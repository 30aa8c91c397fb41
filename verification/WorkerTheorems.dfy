/** What holds in every reachable state of the worker system. */
module WorkerTheorems {
  import opened Prelude
  import opened Slots
  import opened Stock
  import opened Admission
  import opened RegistrationCircuit
  import opened Workers
  import opened WorkerWeights
  import opened WorkerPermits
  import opened WorkerLeases
  import opened WorkerSlots
  import opened WorkerProbes

  // ---------------------------------------------------------------- runs

  /** How `main` starts the system: any number of workers of each role. */
  datatype Launch = Launch(
    sWorkers: nat, pWorkers: nat, cWorkers: nat, cooldown: real, recovery: real, interval: real)

  function Begin(c: Cfg, l: Launch): Sys
  {
    Start(c, Initial(l.cooldown, l.recovery, l.interval), l.sWorkers, l.pWorkers, l.cWorkers)
  }

  ghost predicate Reachable(c: Cfg, s: Sys)
  {
    exists l: Launch, run: seq<Step> :: Exec(c, Begin(c, l), run) == Some(s)
  }

  ghost predicate Inv(c: Cfg, s: Sys)
  {
    && Conserved(c, s) && Leased(c, s) && StockBound(c, s) && Probed(c, s)
    && SlotsHold(c, KindT, s.shared.store) && SlotsHold(c, KindQ, s.shared.store)
    && Owned(c, KindQ, RackOf(KindQ, s.shared.store), s.actors)
    && Covered(c, KindT, RackOf(KindT, s.shared.store), s.actors)
  }

  lemma InvStart(c: Cfg, l: Launch)
    ensures Inv(c, Begin(c, l))
    ensures Owned(c, KindT, RackOf(KindT, Begin(c, l).shared.store), Begin(c, l).actors)
  {
    var s := Begin(c, l);
    forall i | 0 <= i < |s.actors|
      ensures s.actors[i] in {SIdle, PIdle, CIdle}
    {
    }
    forall w: Weight
      ensures Sum(c, w, s.actors) == 0
    {
      SumNone(c, w, s.actors);
    }
  }

  lemma InvStep(c: Cfg, s: Sys, st: Step, s': Sys)
    requires Next(c, s, st) == Some(s') && Inv(c, s)
    ensures Inv(c, s')
    ensures Owned(c, KindT, RackOf(KindT, s.shared.store), s.actors)
            && !Discards(KindT, s.shared, s.actors[st.i], st) ==>
              Owned(c, KindT, RackOf(KindT, s'.shared.store), s'.actors)
  {
    hide Act, Leased, StockBound, Probed, SlotsHold, Owned, Covered, Grows, Accounted, Flows, Handles, Joined;
    var a := s.actors[st.i];
    var m := Act(c, s.shared, a, st).value;
    PermitsStep(c, s, st, s');
    LeasesStep(c, s, st, s');
    GrowLocal(c, s.shared, a, st, m);
    BoundStep(c, s, st.i, m);
    assert s.shared.circuit.probeActive <==> s.shared.circuit.probe.Some? by {
      ProbeFlag(c, s);
    }
    ProbeLocal(c, s.shared, a, st, m);
    ProbesStep(c, s, st, m);
    FlowLocal(c, s.shared, a, st, m);
    SlotsFlow(c, KindT, s.shared, a, st, m);
    SlotsFlow(c, KindQ, s.shared, a, st, m);
    OwnedFlow(c, KindQ, s, st, m);
    CoveredFlow(c, KindT, s, st, m);
    if Owned(c, KindT, RackOf(KindT, s.shared.store), s.actors)
       && !Discards(KindT, s.shared, a, st) {
      OwnedFlow(c, KindT, s, st, m);
    }
  }

  lemma ProbeFlag(c: Cfg, s: Sys)
    requires Probed(c, s)
    ensures s.shared.circuit.probeActive <==> s.shared.circuit.probe.Some?
  {
  }

  lemma {:induction false} InvRun(c: Cfg, s: Sys, run: seq<Step>, s': Sys)
    requires Inv(c, s) && Exec(c, s, run) == Some(s')
    ensures Inv(c, s')
    decreases |run|
  {
    hide Inv, Next;
    if run != [] {
      var n := Next(c, s, run[0]).value;
      InvStep(c, s, run[0], n);
      InvRun(c, n, run[1..], s');
    }
  }

  lemma ReachableInv(c: Cfg, s: Sys)
    requires Reachable(c, s)
    ensures Inv(c, s)
  {
    hide Inv, Begin;
    var l, run :| Exec(c, Begin(c, l), run) == Some(s);
    InvStart(c, l);
    InvRun(c, Begin(c, l), run, s);
  }

  /** A step changes no actor but its own. */
  lemma OthersStay(c: Cfg, s: Sys, st: Step, s': Sys, i: nat)
    requires Next(c, s, st) == Some(s') && st.i != i && i < |s.actors|
    ensures i < |s'.actors| && s'.actors[i] == s.actors[i]
  {
    hide Act;
  }

  // ---------------------------------------------------------------- permits

  /** Free, held, kept and lost permits add up in every reachable state of any run. */
  lemma PermitConservation(c: Cfg, s: Sys)
    requires Reachable(c, s)
    ensures var p := s.shared.permits;
            && p.phys + Sum(c, Phys, s.actors) + p.physLost == c.physCap
            && p.send + Sum(c, Send, s.actors) + p.sendLost == SendCap(c)
            && p.pend + Sum(c, Pend, s.actors) + p.pendKept + p.pendLost == c.pendCap
  {
    ReachableInv(c, s);
  }

  /** What a single cancellation costs for good. */
  datatype Loss = PageLoss | SendLoss | KeptLoss | PendingLoss

  function Lost(x: Loss, p: Permits): nat
  {
    match x
    case PageLoss => p.physLost
    case SendLoss => p.sendLost
    case KeptLoss => p.pendKept
    case PendingLoss => p.pendLost
  }

  /** A physical permit, and a send permit where there are such, when a P worker is cancelled while it closes
      its page; a pending permit when a settle task is cancelled while polling; those still owned when a P
      worker is cancelled in its own handler. */
  function Costs(c: Cfg, x: Loss, a: Actor, ev: Event): nat
  {
    match x
    case PageLoss => if ev.Cancel? && a.Batch? && a.b.Closing? then 1 else 0
    case SendLoss => if ev.Cancel? && a.Batch? && a.b.Closing? && c.sendCap.Some? then 1 else 0
    case KeptLoss => if ev.Cancel? && a.Settle? && a.t.PollCode? then 1 else 0
    case PendingLoss => if ev.Cancel? && a.Batch? && a.b.UndoRel? then a.owned else 0
  }

  lemma LossStep(c: Cfg, s: Shared, a: Actor, st: Step, m: Move, x: Loss)
    requires Act(c, s, a, st) == Some(m)
    ensures Lost(x, m.shared.permits) == Lost(x, s.permits) + Costs(c, x, a, st.ev)
  {
    hide TryT, TryQ, TryPop, Store.Cleaned, Store.Settled, Lobby.ReleaseOne, Poll, Retire, Trip,
      ConsumeRecovery, CanSubmit, PairExpired, GiveUp, Store.StoreT, Store.StoreQ;
    match a {
      case Batch(_, _, b) =>
        match PhaseOf(b) {
          case Reserving =>
          case Queueing =>
          case Posting =>
          case HandingOver =>
        }
      case _ =>
    }
  }

  /** The cost of a whole run. */
  function TotalCost(c: Cfg, s: Sys, run: seq<Step>, x: Loss): nat
    requires Exec(c, s, run).Some?
    decreases |run|
  {
    if run == [] then 0
    else
      Costs(c, x, s.actors[run[0].i], run[0].ev)
      + TotalCost(c, Next(c, s, run[0]).value, run[1..], x)
  }

  /** No step of the run costs anything. */
  predicate Sparing(c: Cfg, s: Sys, run: seq<Step>, x: Loss)
    requires Exec(c, s, run).Some?
    decreases |run|
  {
    run == []
    || (Costs(c, x, s.actors[run[0].i], run[0].ev) == 0 && Sparing(c, Next(c, s, run[0]).value, run[1..], x))
  }

  /** Nothing else loses a permit: the losses of any run are exactly the cost of those steps, and none is
      lost if and only if the run contains no step that costs one. */
  lemma {:induction false} LossesExplained(c: Cfg, s: Sys, run: seq<Step>, s': Sys, x: Loss)
    requires Exec(c, s, run) == Some(s')
    ensures Lost(x, s'.shared.permits) == Lost(x, s.shared.permits) + TotalCost(c, s, run, x)
    ensures Lost(x, s'.shared.permits) == Lost(x, s.shared.permits) <==> Sparing(c, s, run, x)
    decreases |run|
  {
    hide Act;
    if run != [] {
      var n := Next(c, s, run[0]).value;
      LossStep(c, s.shared, s.actors[run[0].i], run[0],
               Act(c, s.shared, s.actors[run[0].i], run[0]).value, x);
      LossesExplained(c, n, run[1..], s', x);
    }
  }

  // ---------------------------------------------------------------- leases and pending permits

  /** Behind the gate `_acquire_many` never waits: a permit is free whenever one is wanted. */
  lemma AcquireNeverBlocks(c: Cfg, s: Sys, i: nat)
    requires Reachable(c, s) && 0 <= c.marks.qHigh <= c.pendCap
    requires i < |s.actors| && s.actors[i].Batch? && s.actors[i].b.Acquire?
    ensures s.shared.permits.pend > 0
  {
    ReachableInv(c, s);
    assert Staged(c, s.actors[i]);
    SumUpdate(c, Want, s.actors, i, Dead);
    SumBelow(c, ToStoreQ, Share, s.actors);
    SumSplit(c, s.actors);
  }

  /** Every share that an actor is about to release is still owed by its lease, so releasing it
      takes exactly one from the lease and one from what is in flight. */
  lemma ReleaseIsExact(c: Cfg, s: Sys, i: nat)
    requires Reachable(c, s) && i < |s.actors| && HasLease(s.actors[i])
    requires ShareCount(s.actors[i]) > 0
    ensures var o, n := s.shared.lobby, s.shared.lobby.ReleaseOne(s.actors[i].l);
            && s.actors[i].l < |o.leases| && o.leases[s.actors[i].l] > 0
            && n.leases == o.leases[s.actors[i].l := o.leases[s.actors[i].l] - 1]
            && n.gate.qInflight == o.gate.qInflight - 1 >= 0
  {
    ReachableInv(c, s);
    ShareThere(c, s, i);
    SumUpdate(c, Share, s.actors, i, Dead);
  }

  // ---------------------------------------------------------------- slots and stock

  /** On both sides, free slots and unreleased envelopes add up in every reachable state. */
  lemma SlotConservation(c: Cfg, s: Sys)
    requires Reachable(c, s)
    ensures s.shared.store.tPool.Total() == c.tCap && s.shared.store.qPool.Total() == c.qCap
  {
    ReachableInv(c, s);
  }

  /** On the Q side every unreleased envelope is in exactly one place (stock, a pair lease, a settle
      task), and free + stocked + held equals the capacity, whatever was cancelled where. */
  lemma QOwnership(c: Cfg, s: Sys)
    requires Reachable(c, s)
    ensures Owned(c, KindQ, RackOf(KindQ, s.shared.store), s.actors)
    ensures s.shared.store.qPool.free + |s.shared.store.shelf.q| + Sum(c, Hand(KindQ), s.actors)
            == c.qCap
  {
    ReachableInv(c, s);
  }

  /** Whether a run discards an envelope after handing it over. */
  ghost predicate Faithful(c: Cfg, s: Sys, run: seq<Step>)
    requires Exec(c, s, run).Some?
    decreases |run|
  {
    run == []
    || (!Discards(KindT, s.shared, s.actors[run[0].i], run[0])
        && Faithful(c, Next(c, s, run[0]).value, run[1..]))
  }

  lemma {:induction false} TOwnershipRun(c: Cfg, s: Sys, run: seq<Step>, s': Sys)
    requires Inv(c, s) && Owned(c, KindT, RackOf(KindT, s.shared.store), s.actors)
    requires Exec(c, s, run) == Some(s') && Faithful(c, s, run)
    ensures Owned(c, KindT, RackOf(KindT, s'.shared.store), s'.actors)
    decreases |run|
  {
    hide Inv, Next, Owned, Discards;
    if run != [] {
      var n := Next(c, s, run[0]).value;
      InvStep(c, s, run[0], n);
      TOwnershipRun(c, n, run[1..], s');
    }
  }

  /** On the T side the same holds on every run without such a discard ... */
  lemma TOwnership(c: Cfg, l: Launch, run: seq<Step>, s: Sys)
    requires Exec(c, Begin(c, l), run) == Some(s) && Faithful(c, Begin(c, l), run)
    ensures Owned(c, KindT, RackOf(KindT, s.shared.store), s.actors)
    ensures s.shared.store.tPool.free + |s.shared.store.shelf.t| + Sum(c, Hand(KindT), s.actors)
            == c.tCap
  {
    hide Begin;
    InvStart(c, l);
    TOwnershipRun(c, Begin(c, l), run, s);
  }

  /** ... and the first discard breaks it at once: one slot too many is free. */
  lemma DiscardBreaks(c: Cfg, s: Sys, st: Step, s': Sys)
    requires Next(c, s, st) == Some(s') && Discards(KindT, s.shared, s.actors[st.i], st)
    requires Owned(c, KindT, RackOf(KindT, s.shared.store), s.actors)
    ensures s'.shared.store.tPool.free + |s'.shared.store.shelf.t| + Sum(c, Hand(KindT), s'.actors)
            == c.tCap + 1
  {
    var m := Act(c, s.shared, s.actors[st.i], st).value;
    StepSum(c, Hand(KindT), s.actors, st.i, m);
    ReleaseLive(s.shared.store.tPool, {s.actors[st.i].m.x.id});
  }

  /** Stock and leased production together never exceed the high watermarks. */
  lemma StockNeverOverflows(c: Cfg, s: Sys)
    requires Reachable(c, s) && c.marks.Valid()
    ensures |s.shared.store.shelf.t| + Sum(c, ToStoreT, s.actors) <= c.marks.tHigh
    ensures |s.shared.store.shelf.q| + Sum(c, ToStoreQ, s.actors) <= c.marks.qHigh
  {
    ReachableInv(c, s);
  }

  // ---------------------------------------------------------------- the recovery probe

  /** While a token is current exactly one worker answers for it, so it can never be lost. */
  lemma NoLostProbe(c: Cfg, s: Sys) returns (i: nat)
    requires Reachable(c, s) && s.shared.circuit.probe.Some?
    ensures i < |s.actors| && ProbeOf(s.actors[i]) == Token(s.shared.circuit.probe.value)
    ensures forall j :: 0 <= j < |s.actors| && j != i ==>
              ProbeOf(s.actors[j]) != Token(s.shared.circuit.probe.value)
  {
    ReachableInv(c, s);
    var t := s.shared.circuit.probe.value;
    i := SumHolder(c, Probe(t), s.actors);
    forall j | 0 <= j < |s.actors| && j != i
      ensures ProbeOf(s.actors[j]) != Token(t)
    {
      if i < j {
        SumTwo(c, Probe(t), s.actors, i, j);
      } else {
        SumTwo(c, Probe(t), s.actors, j, i);
      }
    }
  }

  /** A step ends the current token only if it is the actor's own, or by the trip of a rate limit:
      no release or deferral disturbs the token another worker answers for. */
  lemma OthersUndisturbed(c: Cfg, s: Sys, st: Step, s': Sys)
    requires Reachable(c, s) && Next(c, s, st) == Some(s') && s.shared.circuit.probe.Some?
    requires s'.shared.circuit.probe != s.shared.circuit.probe
    ensures s'.shared.circuit.probe.None?
    ensures st.ev.Limited? || ProbeOf(s.actors[st.i]) == Token(s.shared.circuit.probe.value)
  {
    hide Act;
    ReachableInv(c, s);
    ProbeLocal(c, s.shared, s.actors[st.i], st,
               Act(c, s.shared, s.actors[st.i], st).value);
  }

  /** When a worker lets go of its token, on whatever way out, that token is no longer current. */
  lemma ExitRetires(c: Cfg, s: Sys, st: Step, s': Sys, t: nat)
    requires Reachable(c, s) && Next(c, s, st) == Some(s')
    requires ProbeOf(s.actors[st.i]) == Token(t) && ProbeOf(s'.actors[st.i]) != Token(t)
    ensures s'.shared.circuit.probe != Some(t)
  {
    hide Act;
    ReachableInv(c, s);
    ProbeLocal(c, s.shared, s.actors[st.i], st,
               Act(c, s.shared, s.actors[st.i], st).value);
  }

  lemma RegisterEntry(c: Cfg, s: Shared, a: Actor, st: Step, m: Move)
    requires Act(c, s, a, st) == Some(m) && m.actor.Hold? && m.actor.h.Register?
    ensures a.Hold? && a.h.Verify? && CanSubmit(s.circuit, a.k, st.mono)
  {
    hide TryT, TryQ, TryPop, Store.Cleaned, Store.Settled, Lobby.ReleaseOne, Poll, Retire, Trip,
      ConsumeRecovery, CanSubmit, PairExpired, GiveUp, Store.StoreT, Store.StoreQ;
    match a {
      case Batch(_, _, b) =>
        match PhaseOf(b) {
          case Reserving =>
          case Queueing =>
          case Posting =>
          case HandingOver =>
        }
      case _ =>
    }
  }

  /** A submission begins only in the normal state, or by the worker of the current token while the
      circuit is closed. */
  lemma SubmissionGuard(c: Cfg, s: Sys, st: Step, s': Sys)
    requires Reachable(c, s) && Next(c, s, st) == Some(s')
    requires s'.actors[st.i].Hold? && s'.actors[st.i].h.Register?
    ensures var d, k := s.shared.circuit, ProbeOf(s.actors[st.i]);
            d.Normal() || (d.probe.Some? && k == Token(d.probe.value) && !IsOpen(d, st.mono))
  {
    hide Act, Inv;
    ReachableInv(c, s);
    var a := s.actors[st.i];
    RegisterEntry(c, s.shared, a, st, Act(c, s.shared, a, st).value);
    assert Staged(c, a) by {
      InvStaged(c, s, st.i);
    }
    if !s.shared.circuit.Normal() {
      SubmitRule(s.shared.circuit, a.k, st.mono);
    }
  }

  lemma InvStaged(c: Cfg, s: Sys, i: nat)
    requires Inv(c, s) && i < |s.actors|
    ensures Staged(c, s.actors[i])
  {
  }
}
