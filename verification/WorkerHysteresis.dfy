/** The admission gate inside the worker system: every run of the workers is a run of the gate, so that its
    hysteresis holds of what the workers do. */
module WorkerHysteresis {
  import opened Prelude
  import opened Stock
  import A = Admission
  import opened RegistrationCircuit
  import opened Workers

  // ---------------------------------------------------------------- the gate's part of a run

  /** What releasing a share of lease `l` is to the gate. */
  function Released(o: Lobby, l: nat): seq<A.GateEvent>
  {
    if l < |o.leases| && o.leases[l] > 0 then [A.EndQ(1)] else []
  }

  /** What a step is to the gate. */
  function GateEvents(c: Cfg, s: Shared, a: Actor, ev: Event): seq<A.GateEvent>
  {
    if !ev.Run? then []
    else
      match a
      case SGate => [A.LookT(|s.store.shelf.t|)]
      case PGate => [A.LookQ(|s.store.shelf.q|, c.maxBatch)]
      case Mint(m) => if m.FailRel? || m.EndRel? then [A.EndT] else []
      case Batch(l, _, b) => if b.MailboxRel? || b.ResultRel? || b.UndoRel? then Released(s.lobby, l) else []
      case Settle(l, t) => if t.ShareRel? then Released(s.lobby, l) else []
      case _ => []
  }

  lemma GateStep(c: Cfg, s: Shared, a: Actor, st: Step, m: Move)
    requires Act(c, s, a, st) == Some(m)
    ensures m.shared.lobby.gate == A.Run(c.marks, s.lobby.gate, GateEvents(c, s, a, st.ev))
  {
    hide A.TryT, A.TryQ, TryPop, Store.Cleaned, Store.Settled, Poll, Retire, Trip, ConsumeRecovery, CanSubmit,
      PairExpired, GiveUp, Store.StoreT, Store.StoreQ;
    match a {
      case Batch(_, _, b) =>
        match PhaseOf(b) {
          case Reserving =>
          case Queueing =>
          case Posting =>
          case HandingOver =>
        }
      case _ =>
    }
  }

  function GateRun(c: Cfg, s: Sys, run: seq<Step>): seq<A.GateEvent>
    requires Exec(c, s, run).Some?
    decreases |run|
  {
    if run == [] then []
    else GateEvents(c, s.shared, s.actors[run[0].i], run[0].ev) + GateRun(c, Next(c, s, run[0]).value, run[1..])
  }

  lemma {:induction false} RunConcat(m: A.Marks, g: A.Gate, es: seq<A.GateEvent>, fs: seq<A.GateEvent>)
    ensures A.Run(m, g, es + fs) == A.Run(m, A.Run(m, g, es), fs)
    decreases |es|
  {
    if es == [] {
      assert es + fs == fs;
    } else {
      assert (es + fs)[1..] == es[1..] + fs;
      RunConcat(m, A.Apply(m, g, es[0]), es[1..], fs);
    }
  }

  /** The gate after any run of the workers is the gate after the run's looks and releases alone. */
  lemma {:induction false} GateFollows(c: Cfg, s: Sys, run: seq<Step>, s': Sys)
    requires Exec(c, s, run) == Some(s')
    ensures s'.shared.lobby.gate == A.Run(c.marks, s.shared.lobby.gate, GateRun(c, s, run))
    decreases |run|
  {
    hide Act, GateEvents;
    if run != [] {
      var st, n, a := run[0], Next(c, s, run[0]).value, s.actors[run[0].i];
      GateStep(c, s.shared, a, st, Act(c, s.shared, a, st).value);
      GateFollows(c, n, run[1..], s');
      RunConcat(c.marks, s.shared.lobby.gate, GateEvents(c, s.shared, a, st.ev), GateRun(c, n, run[1..]));
    }
  }

  // ---------------------------------------------------------------- looks and grants

  /** The step is an S worker's look at the gate. */
  predicate LooksT(s: Sys, st: Step) { st.i < |s.actors| && s.actors[st.i].SGate? && st.ev.Run? }

  predicate LooksQ(c: Cfg, s: Sys, st: Step)
  {
    st.i < |s.actors| && s.actors[st.i].PGate? && st.ev.Run? && c.maxBatch > 0
  }

  /** T in stock and in production. */
  function TotalT(s: Sys): int { |s.shared.store.shelf.t| + s.shared.lobby.gate.tInProgress }

  function TotalQ(s: Sys): int { |s.shared.store.shelf.q| + s.shared.lobby.gate.qInflight }

  predicate GrantsT(s: Sys, st: Step, s': Sys) { LooksT(s, st) && st.i < |s'.actors| && s'.actors[st.i].Mint? }

  predicate GrantsQ(c: Cfg, s: Sys, st: Step, s': Sys)
  {
    LooksQ(c, s, st) && st.i < |s'.actors| && s'.actors[st.i].Batch?
  }

  /** The look finds the high mark reached; a batch whose grant reaches it counts too. */
  predicate HighT(c: Cfg, s: Sys, st: Step)
  {
    LooksT(s, st) && TotalT(s) >= c.marks.tHigh && TotalT(s) > c.marks.tLow
  }

  predicate HighQ(c: Cfg, s: Sys, st: Step, s': Sys)
  {
    && LooksQ(c, s, st)
    && (|| (TotalQ(s) >= c.marks.qHigh && TotalQ(s) > c.marks.qLow)
        || (GrantsQ(c, s, st, s') && TotalQ(s') >= c.marks.qHigh))
  }

  predicate LowT(c: Cfg, s: Sys, st: Step) { LooksT(s, st) && TotalT(s) <= c.marks.tLow }

  predicate LowQ(c: Cfg, s: Sys, st: Step) { LooksQ(c, s, st) && TotalQ(s) <= c.marks.qLow }

  /** No look of the run finds the low mark. */
  predicate NeverLowT(c: Cfg, s: Sys, run: seq<Step>)
    requires Exec(c, s, run).Some?
    decreases |run|
  {
    run == [] || (!LowT(c, s, run[0]) && NeverLowT(c, Next(c, s, run[0]).value, run[1..]))
  }

  predicate NeverLowQ(c: Cfg, s: Sys, run: seq<Step>)
    requires Exec(c, s, run).Some?
    decreases |run|
  {
    run == [] || (!LowQ(c, s, run[0]) && NeverLowQ(c, Next(c, s, run[0]).value, run[1..]))
  }

  lemma OneEvent(m: A.Marks, g: A.Gate, es: seq<A.GateEvent>, fs: seq<A.GateEvent>)
    requires |es| <= 1
    ensures A.NoLowT(m, g, es + fs) <==>
              (es == [] || !A.SeesLowT(m, g, es[0])) && A.NoLowT(m, A.Run(m, g, es), fs)
    ensures A.NoLowQ(m, g, es + fs) <==>
              (es == [] || !A.SeesLowQ(m, g, es[0])) && A.NoLowQ(m, A.Run(m, g, es), fs)
  {
    if es == [] {
      assert es + fs == fs;
    } else {
      assert (es + fs)[0] == es[0] && (es + fs)[1..] == fs && es[1..] == [];
    }
  }

  /** The low mark is found in the run of the workers if and only if it is in the gate's. */
  lemma {:induction false} LowsAgree(c: Cfg, s: Sys, run: seq<Step>)
    requires Exec(c, s, run).Some?
    ensures NeverLowT(c, s, run) <==> A.NoLowT(c.marks, s.shared.lobby.gate, GateRun(c, s, run))
    ensures NeverLowQ(c, s, run) <==> A.NoLowQ(c.marks, s.shared.lobby.gate, GateRun(c, s, run))
    decreases |run|
  {
    hide Act, A.Run, A.Apply;
    if run != [] {
      var st, n, a := run[0], Next(c, s, run[0]).value, s.actors[run[0].i];
      GateStep(c, s.shared, a, st, Act(c, s.shared, a, st).value);
      LowsAgree(c, n, run[1..]);
      OneEvent(c.marks, s.shared.lobby.gate, GateEvents(c, s.shared, a, st.ev), GateRun(c, n, run[1..]));
    }
  }

  lemma LookIs(c: Cfg, s: Sys, st: Step, s': Sys)
    requires Next(c, s, st) == Some(s') && (LooksT(s, st) || LooksQ(c, s, st))
    ensures var (g, es) := (s.shared.lobby.gate, GateEvents(c, s.shared, s.actors[st.i], st.ev));
            && |es| == 1 && s'.shared.lobby.gate == A.Apply(c.marks, g, es[0])
            && (GrantsT(s, st, s') <==> A.GrantsT(c.marks, g, es[0]))
            && (GrantsQ(c, s, st, s') <==> A.GrantsQ(c.marks, g, es[0]))
            && (LowT(c, s, st) <==> A.SeesLowT(c.marks, g, es[0]))
            && (LowQ(c, s, st) <==> A.SeesLowQ(c.marks, g, es[0]))
            && (HighT(c, s, st) <==> A.ReachesHighT(c.marks, g, es[0]))
            && (HighQ(c, s, st, s') <==> A.ReachesHighQ(c.marks, g, es[0]))
  {
  }

  /** Hysteresis of the workers: once an S worker's look has found the high mark reached, no S worker is granted
      a production, whatever all the workers do meanwhile, until some S worker's look finds the low mark; and
      the same for P workers and batches. */
  lemma WorkerHysteresis(c: Cfg, s: Sys, first: Step, s1: Sys, between: seq<Step>, s2: Sys, last: Step, s3: Sys)
    requires c.marks.Valid()
    requires Next(c, s, first) == Some(s1) && Exec(c, s1, between) == Some(s2) && Next(c, s2, last) == Some(s3)
    ensures HighT(c, s, first) && NeverLowT(c, s1, between) && !LowT(c, s2, last) ==> !GrantsT(s2, last, s3)
    ensures HighQ(c, s, first, s1) && NeverLowQ(c, s1, between) && !LowQ(c, s2, last) ==> !GrantsQ(c, s2, last, s3)
  {
    hide Next, Exec, GateEvents, A.Run, A.Apply, A.NoLowT, A.NoLowQ, A.GrantsT, A.GrantsQ, A.ReachesHighT,
      A.ReachesHighQ, NeverLowT, NeverLowQ, GateRun;
    if (LooksT(s, first) || LooksQ(c, s, first)) && (LooksT(s2, last) || LooksQ(c, s2, last)) {
      LookIs(c, s, first, s1);
      LookIs(c, s2, last, s3);
      GateFollows(c, s1, between, s2);
      LowsAgree(c, s1, between);
      var m, g := c.marks, s.shared.lobby.gate;
      var e := GateEvents(c, s.shared, s.actors[first.i], first.ev)[0];
      var f := GateEvents(c, s2.shared, s2.actors[last.i], last.ev)[0];
      A.NoLowSnoc(m, A.Apply(m, g, e), GateRun(c, s1, between), f);
      A.Hysteresis(m, g, e, GateRun(c, s1, between), f);
    }
  }
}
