/** What the admission gate counts as in production and what is: the shares that cancelled releases leave
    counted for good, and when they stop production altogether. */
module WorkerLeaks {
  import opened Prelude
  import opened Stock
  import A = Admission
  import opened RegistrationCircuit
  import opened Workers
  import opened WorkerWeights
  import opened WorkerPermits
  import opened WorkerLeases
  import opened WorkerSlots
  import opened WorkerProbes
  import opened WorkerTheorems
  import opened WorkerRuns
  import opened WorkerHysteresis

  // ---------------------------------------------------------------- in flight, exactly

  /** What is counted as in production. */
  function Counted(k: Kind, s: Sys): int
  {
    if k.KindT? then s.shared.lobby.gate.tInProgress else s.shared.lobby.gate.qInflight
  }

  /** The shares whose release is still to come. */
  function Owed(c: Cfg, k: Kind, s: Sys): nat { Sum(c, if k.KindT? then LeaseT else Share, s.actors) }

  function Leaked(c: Cfg, k: Kind, s: Sys): int { Counted(k, s) - Owed(c, k, s) }

  function Sheds(k: Kind, a: Actor, ev: Event): nat { if k.KindT? then ShedT(a, ev) else ShedQ(a, ev) }

  /** Every step leaks exactly what it sheds. */
  lemma LeakStep(c: Cfg, s: Sys, st: Step, s': Sys, k: Kind)
    requires Next(c, s, st) == Some(s') && Leased(c, s)
    ensures Leaked(c, k, s') == Leaked(c, k, s) + Sheds(k, s.actors[st.i], st.ev)
  {
    hide Act, Sum, Joined, ShedQ, ShedT;
    var a := s.actors[st.i];
    var m := Act(c, s.shared, a, st).value;
    LeasesLocal(c, s.shared, a, st, m);
    StepSum(c, LeaseT, s.actors, st.i, m);
    StepSum(c, Share, s.actors, st.i, m);
    if OneReleased(s.shared, a, st.ev, m) {
      ShareThere(c, s, st.i);
    } else if Granted(c, s.shared, a, m) {
      NothingShed(a, st.ev);
    }
  }

  lemma NothingShed(a: Actor, ev: Event)
    requires a.PGate?
    ensures ShedQ(a, ev) == 0
  {
  }

  function TotalShed(c: Cfg, k: Kind, s: Sys, run: seq<Step>): nat
    requires Exec(c, s, run).Some?
    decreases |run|
  {
    if run == [] then 0
    else Sheds(k, s.actors[run[0].i], run[0].ev) + TotalShed(c, k, Next(c, s, run[0]).value, run[1..])
  }

  /** No step of the run sheds a share. */
  predicate Tight(c: Cfg, k: Kind, s: Sys, run: seq<Step>)
    requires Exec(c, s, run).Some?
    decreases |run|
  {
    run == []
    || (Sheds(k, s.actors[run[0].i], run[0].ev) == 0 && Tight(c, k, Next(c, s, run[0]).value, run[1..]))
  }

  lemma {:induction false} LeakRun(c: Cfg, k: Kind, s: Sys, run: seq<Step>, s': Sys)
    requires Exec(c, s, run) == Some(s') && Leased(c, s)
    ensures Leased(c, s') && Leaked(c, k, s') == Leaked(c, k, s) + TotalShed(c, k, s, run)
    ensures TotalShed(c, k, s, run) == 0 <==> Tight(c, k, s, run)
    decreases |run|
  {
    hide Next, Leased, Leaked, Sheds;
    if run != [] {
      var n := Next(c, s, run[0]).value;
      LeakStep(c, s, run[0], n, k);
      LeasesStep(c, s, run[0], n);
      LeakRun(c, k, n, run[1..], s');
    }
  }

  /** From the start, what is counted as in production is what is still owed and what the steps of the run have
      shed; and it is just what is owed if and only if no step has shed anything. */
  lemma LeaksExplained(c: Cfg, l: Launch, run: seq<Step>, s: Sys, k: Kind)
    requires Exec(c, Begin(c, l), run) == Some(s)
    ensures Counted(k, s) == Owed(c, k, s) + TotalShed(c, k, Begin(c, l), run)
    ensures Counted(k, s) == Owed(c, k, s) <==> Tight(c, k, Begin(c, l), run)
  {
    NothingOwed(c, l, k);
    hide Begin, Leased;
    LeakRun(c, k, Begin(c, l), run, s);
  }

  lemma NothingOwed(c: Cfg, l: Launch, k: Kind)
    ensures Leased(c, Begin(c, l)) && Leaked(c, k, Begin(c, l)) == 0
  {
    hide Sum;
    InvStart(c, l);
    forall i | 0 <= i < |Begin(c, l).actors|
      ensures Begin(c, l).actors[i] in {SIdle, PIdle, CIdle}
    {
    }
    SumNone(c, LeaseT, Begin(c, l).actors);
    SumNone(c, Share, Begin(c, l).actors);
  }

  // ---------------------------------------------------------------- when production stops

  function Top(c: Cfg, k: Kind): int { if k.KindT? then c.marks.tHigh else c.marks.qHigh }

  function Bottom(c: Cfg, k: Kind): int { if k.KindT? then c.marks.tLow else c.marks.qLow }

  predicate Paused(k: Kind, s: Sys)
  {
    if k.KindT? then s.shared.lobby.gate.tPaused else s.shared.lobby.gate.qPaused
  }

  /** The leaks alone reach the high mark, or keep a pause from ending at the low mark. */
  predicate Starved(c: Cfg, k: Kind, s: Sys)
  {
    Leaked(c, k, s) >= Top(c, k) || (Paused(k, s) && Leaked(c, k, s) > Bottom(c, k))
  }

  predicate Grants(c: Cfg, k: Kind, s: Sys, st: Step, s': Sys)
  {
    if k.KindT? then GrantsT(s, st, s') else GrantsQ(c, s, st, s')
  }

  /** A pause goes on through any part of a run in which the total stays above the low mark. */
  lemma PauseStays(c: Cfg, s: Sys, st: Step, s': Sys, k: Kind)
    requires Next(c, s, st) == Some(s') && Paused(k, s)
    requires (if k.KindT? then TotalT(s) else TotalQ(s)) > Bottom(c, k)
    ensures Paused(k, s')
  {
    hide Act;
    var a := s.actors[st.i];
    GateStep(c, s.shared, a, st, Act(c, s.shared, a, st).value);
    if GateEvents(c, s.shared, a, st.ev) != [] {
      assert GateEvents(c, s.shared, a, st.ev)[1..] == [];
    }
  }

  lemma StarvedStep(c: Cfg, s: Sys, st: Step, s': Sys, k: Kind)
    requires Next(c, s, st) == Some(s') && Leased(c, s) && Starved(c, k, s)
    ensures Starved(c, k, s') && !Grants(c, k, s, st, s')
  {
    LeakStep(c, s, st, s', k);
    hide Leased, Next;
    if Leaked(c, k, s) > Bottom(c, k) && Paused(k, s) {
      PauseStays(c, s, st, s', k);
    }
    StarvedRefuses(c, s, st, s', k);
  }

  lemma StarvedRefuses(c: Cfg, s: Sys, st: Step, s': Sys, k: Kind)
    requires Next(c, s, st) == Some(s') && Starved(c, k, s)
    ensures !Grants(c, k, s, st, s')
  {
    if LooksT(s, st) || LooksQ(c, s, st) {
      LookIs(c, s, st, s');
    }
    hide Act;
  }

  /** Once a side is starved, nothing is ever produced there again: no step of any continuation is granted. */
  lemma {:induction false} StarvedForEver(c: Cfg, s: Sys, run: seq<Step>, s': Sys, last: Step, s'': Sys, k: Kind)
    requires Leased(c, s) && Starved(c, k, s)
    requires Exec(c, s, run) == Some(s') && Next(c, s', last) == Some(s'')
    ensures Starved(c, k, s') && !Grants(c, k, s', last, s'')
    decreases |run|
  {
    hide Next, Leased, Starved, Grants;
    if run == [] {
      StarvedStep(c, s, last, s'', k);
    } else {
      var n := Next(c, s, run[0]).value;
      StarvedStep(c, s, run[0], n, k);
      LeasesStep(c, s, run[0], n);
      StarvedForEver(c, n, run[1..], s', last, s'', k);
    }
  }

  /** Nothing in stock, and nothing whose release is still to come. */
  predicate AtRest(c: Cfg, k: Kind, s: Sys)
  {
    Owed(c, k, s) == 0 && (if k.KindT? then s.shared.store.shelf.t else s.shared.store.shelf.q) == []
  }

  /** At rest, the next look of a worker is granted if and only if the side is not starved. */
  lemma GrantedUnlessStarved(c: Cfg, s: Sys, st: Step, s': Sys, k: Kind)
    requires c.marks.Valid() && Leased(c, s) && Next(c, s, st) == Some(s') && AtRest(c, k, s)
    requires if k.KindT? then LooksT(s, st) else LooksQ(c, s, st)
    ensures Grants(c, k, s, st, s') <==> !Starved(c, k, s)
  {
    LookIs(c, s, st, s');
    hide Act, Leased;
  }

  // ---------------------------------------------------------------- it happens

  /** An S worker cancelled while it gives back its lease: with a high mark of one, no T is ever produced again. */
  lemma OneCancelStarvesT() returns (run: seq<Step>, s: Sys)
    ensures Exec(TOKENS_ONLY, Begin(TOKENS_ONLY, ONE_S_WORKER), run) == Some(s)
    ensures Leaked(TOKENS_ONLY, KindT, s) == 1 && Starved(TOKENS_ONLY, KindT, s)
  {
    var c, s0 := TOKENS_ONLY, Begin(TOKENS_ONLY, ONE_S_WORKER);
    var go, fail, stop := Step(0, Run, 0.0, 0.0), Step(0, Fail, 0.0, 0.0), Step(0, Cancel, 0.0, 0.0);
    assert s0.actors == [SIdle];
    var s1 := Next(c, s0, go).value;
    ExecSnoc(c, s0, [], s0, go);
    assert s1 == s0.(actors := [SGate]) && [] + [go] == [go];
    var s2 := Next(c, s1, go).value;
    ExecSnoc(c, s0, [go], s1, go);
    assert s2.actors == [Mint(Solving)] && s2.shared.lobby.gate.tInProgress == 1;
    var s3 := Next(c, s2, fail).value;
    ExecSnoc(c, s0, [go] + [go], s2, fail);
    assert s3.actors == [Mint(FailRel)] && s3.shared.lobby == s2.shared.lobby;
    s := Next(c, s3, stop).value;
    ExecSnoc(c, s0, [go] + [go] + [fail], s3, stop);
    assert s.actors == [Dead] && Sum(c, LeaseT, [Dead][1..]) == 0;
    run := [go] + [go] + [fail] + [stop];
  }

  /** A P worker cancelled twice: with a high mark of two, no batch is ever granted again. */
  lemma TwoCancelsStarveQ() returns (run: seq<Step>, s: Sys)
    ensures Exec(TWO_REQUESTS, Begin(TWO_REQUESTS, ONE_P_WORKER), run) == Some(s)
    ensures Leaked(TWO_REQUESTS, KindQ, s) == 2 && Starved(TWO_REQUESTS, KindQ, s)
  {
    hide Begin, Exec;
    run, s := PendingLossHappens();
    assert Sum(TWO_REQUESTS, Share, [Dead][1..]) == 0;
  }
}
