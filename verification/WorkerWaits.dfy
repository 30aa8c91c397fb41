/** Who waits for whom among the workers: permit waits cannot form a cycle, and whoever waits for a
    permit waits, in the end, for an actor that can step. */
module WorkerWaits {
  import opened Prelude
  import opened Slots
  import opened Stock
  import opened Admission
  import opened Watermarks
  import opened RegistrationCircuit
  import opened Workers
  import opened WorkerWeights
  import opened WorkerPermits
  import opened WorkerLeases
  import opened WorkerSlots
  import opened WorkerProbes
  import opened WorkerTheorems

  datatype Resource = LeaseR | PendR | SlotR(k: Kind) | ProbeR | SendR | PhysR

  function Rank(r: Resource): nat
  {
    match r
    case LeaseR => 0
    case PendR => 1
    case SlotR(_) => 2
    case ProbeR => 3
    case SendR => 4
    case PhysR => 5
  }

  /** The resource whose absence keeps an actor from going on, if any. */
  function Lacks(c: Cfg, s: Shared, a: Actor): Option<Resource>
  {
    match a
    case Mint(m) =>
      if m.Physical? && s.permits.phys == 0 then Some(PhysR)
      else if m.Slot? && s.store.tPool.free == 0 then Some(SlotR(KindT))
      else None
    case Batch(_, _, b) =>
      if b.Acquire? && s.permits.pend == 0 then Some(PendR)
      else if b.SendPermit? && c.sendCap.Some? && s.permits.send == 0 then Some(SendR)
      else if b.PhysicalP? && s.permits.phys == 0 then Some(PhysR)
      else None
    case Settle(_, t) => if t.SlotQ? && s.store.qPool.free == 0 then Some(SlotR(KindQ)) else None
    case Hold(_, _, h) =>
      if h.Breaker? && s.circuit.probeActive then Some(ProbeR)
      else if h.PhysicalC? && s.permits.phys == 0 then Some(PhysR)
      else None
    case _ => None
  }

  predicate Has(c: Cfg, a: Actor, r: Resource)
  {
    match r
    case LeaseR => LeaseTOf(a) > 0 || HasLease(a)
    case PendR => PendOf(a) > 0
    case SlotR(k) => HandOf(k, a) > 0
    case ProbeR => ProbeOf(a).Token?
    case SendR => SendOf(c, a) > 0
    case PhysR => PhysOf(c, a) > 0
  }

  /** `i` waits for something that `j` has. */
  predicate WaitsFor(c: Cfg, s: Sys, i: nat, j: nat)
    requires i < |s.actors| && j < |s.actors|
  {
    var r := Lacks(c, s.shared, s.actors[i]);
    r.Some? && Has(c, s.actors[j], r.value)
  }

  /** Whoever waits for a resource holds only resources of strictly lower rank; a worker that has
      some of its pending permits never waits for the others. */
  lemma WaitOrder(c: Cfg, s: Sys, i: nat, r: Resource, held: Resource)
    requires Reachable(c, s) && 0 <= c.marks.qHigh <= c.pendCap && i < |s.actors|
    requires Lacks(c, s.shared, s.actors[i]) == Some(r) && Has(c, s.actors[i], held)
    ensures Rank(held) < Rank(r)
  {
    hide Reachable, Inv;
    var a := s.actors[i];
    if a.Batch? && a.b.Acquire? {
      AcquireNeverBlocks(c, s, i);
    }
    ReachableInv(c, s);
    InvStaged(c, s, i);
  }

  function WaitRank(c: Cfg, s: Shared, a: Actor): nat
  {
    var r := Lacks(c, s, a);
    if r.Some? then Rank(r.value) else 6
  }

  ghost predicate WaitPath(c: Cfg, s: Sys, path: seq<nat>)
  {
    && path != []
    && (forall k :: 0 <= k < |path| ==> path[k] < |s.actors|)
    && (forall k :: 0 <= k < |path| - 1 ==> WaitsFor(c, s, path[k], path[k + 1]))
  }

  /** The ranks waited for grow along every path of waits, of whatever length. */
  lemma {:induction false} RanksGrow(c: Cfg, s: Sys, path: seq<nat>, n: nat)
    requires Reachable(c, s) && 0 <= c.marks.qHigh <= c.pendCap
    requires WaitPath(c, s, path) && 0 < n < |path|
    ensures WaitRank(c, s.shared, s.actors[path[0]]) < WaitRank(c, s.shared, s.actors[path[n]])
  {
    hide Reachable, Lacks, Has;
    var prev, last := s.actors[path[n - 1]], s.actors[path[n]];
    assert WaitsFor(c, s, path[n - 1], path[n]);
    if Lacks(c, s.shared, last).Some? {
      WaitOrder(c, s, path[n], Lacks(c, s.shared, last).value, Lacks(c, s.shared, prev).value);
    }
    if n > 1 {
      RanksGrow(c, s, path, n - 1);
    }
  }

  /** In no reachable state do waits form a cycle. */
  lemma NoWaitCycle(c: Cfg, s: Sys, path: seq<nat>)
    requires Reachable(c, s) && 0 <= c.marks.qHigh <= c.pendCap && WaitPath(c, s, path) && |path| >= 2
    ensures path[0] != path[|path| - 1]
  {
    RanksGrow(c, s, path, |path| - 1);
  }

  /** An actor that lacks nothing can take its next step as soon as what it awaits has happened. */
  lemma UnblockedSteps(c: Cfg, s: Sys, i: nat, wall: real, mono: real)
    requires Reachable(c, s) && i < |s.actors| && !s.actors[i].Dead?
    requires Lacks(c, s.shared, s.actors[i]).None?
    ensures Next(c, s, Step(i, Run, wall, mono)).Some?
  {
    hide Inv, Reachable, TryT, TryQ, TryPop, Store.Cleaned, Poll, Retire, ConsumeRecovery, GiveUp,
      CanSubmit, PairExpired, Store.StoreT, Store.StoreQ, Store.Settled, Trip, Store.NewT, Store.NewQ,
      Lobby.ReleaseOne, Joined;
    ReachableInv(c, s);
    InvStaged(c, s, i);
    match s.actors[i] {
      case Batch(_, _, b) =>
        match PhaseOf(b) {
          case Reserving =>
          case Queueing =>
          case Posting =>
          case HandingOver =>
        }
      case _ =>
    }
  }

  /** Every permit of the kind has been lost for good. */
  predicate Gone(c: Cfg, s: Shared, r: Resource)
  {
    match r
    case PhysR => s.permits.physLost >= c.physCap
    case SendR => c.sendCap.Some? && s.permits.sendLost >= c.sendCap.value
    case _ => false
  }

  /** Some actor has the exhausted resource, unless it is lost or, for slots, the stock has all of them. */
  lemma ExhaustedHasHolder(c: Cfg, s: Sys, i: nat, r: Resource) returns (j: nat)
    requires Inv(c, s) && i < |s.actors| && Lacks(c, s.shared, s.actors[i]) == Some(r)
    requires !r.PendR? && !Gone(c, s.shared, r)
    ensures (r.SlotR? && |RackOf(r.k, s.shared.store).buf| >= Cap(c, r.k))
            || (j < |s.actors| && WaitsFor(c, s, i, j))
  {
    j := 0;
    match r {
      case PhysR => j := SumHolder(c, Phys, s.actors);
      case SendR => j := SumHolder(c, Send, s.actors);
      case ProbeR => j := SumHolder(c, Probe(s.shared.circuit.probe.value), s.actors);
      case SlotR(k) =>
        if |RackOf(k, s.shared.store).buf| < Cap(c, k) {
          SlotsCovered(c, s, k);
          j := SomebodyHolds(c, k, RackOf(k, s.shared.store), s.actors);
        }
      case _ =>
    }
  }

  lemma SlotsCovered(c: Cfg, s: Sys, k: Kind)
    requires Inv(c, s)
    ensures Covered(c, k, RackOf(k, s.shared.store), s.actors)
    ensures RackOf(k, s.shared.store).pool.Total() == Cap(c, k)
  {
    hide Sum, Ids, Conserved, Leased, StockBound, Probed;
  }

  function High(c: Cfg, k: Kind): int { if k.KindT? then c.marks.tHigh else c.marks.qHigh }

  /** The stock has every slot of the kind, which is possible only if the high mark is above the capacity. */
  predicate Full(c: Cfg, s: Sys, r: Resource)
  {
    r.SlotR? && |RackOf(r.k, s.shared.store).buf| >= Cap(c, r.k) && High(c, r.k) > Cap(c, r.k)
  }

  /** Whoever waits for a slot is to store something, so the stock is below the high mark. */
  lemma SlotLeft(c: Cfg, s: Sys, i: nat, k: Kind)
    requires Reachable(c, s) && c.marks.Valid() && i < |s.actors|
    requires Lacks(c, s.shared, s.actors[i]) == Some(SlotR(k))
    ensures |RackOf(k, s.shared.store).buf| < High(c, k)
  {
    StockNeverOverflows(c, s);
    hide Reachable;
    match k
    case KindT => SumUpdate(c, ToStoreT, s.actors, i, Dead);
    case KindQ => SumUpdate(c, ToStoreQ, s.actors, i, Dead);
  }

  /** Whoever waits behind the gate waits, in the end, for an actor that lacks nothing (so it steps once the
      foreign call it is in ends); or for one that lacks a permit of a kind that is lost altogether; or, only
      where the high mark is above the slot capacity, for the stock to be consumed. */
  lemma {:induction false} Progress(c: Cfg, s: Sys, i: nat) returns (path: seq<nat>)
    requires Reachable(c, s) && c.marks.Valid() && c.marks.qHigh <= c.pendCap
    requires i < |s.actors| && !s.actors[i].Dead?
    ensures WaitPath(c, s, path) && path[0] == i
    ensures var last := s.actors[path[|path| - 1]];
            var r := Lacks(c, s.shared, last);
            !last.Dead? && (r.None? || Gone(c, s.shared, r.value) || Full(c, s, r.value))
    decreases 6 - WaitRank(c, s.shared, s.actors[i])
  {
    hide Inv, Reachable, Full;
    var r := Lacks(c, s.shared, s.actors[i]);
    path := [i];
    if r.Some? && !Gone(c, s.shared, r.value) && !Full(c, s, r.value) {
      var j := WaitsForSome(c, s, i, r.value);
      NotDead(c, s, i, j);
      RankUp(c, s, i, j);
      var more := Progress(c, s, j);
      path := [i] + more;
    }
  }

  /** What is neither lost nor all in stock, somebody has. */
  lemma WaitsForSome(c: Cfg, s: Sys, i: nat, r: Resource) returns (j: nat)
    requires Reachable(c, s) && c.marks.Valid() && c.marks.qHigh <= c.pendCap
    requires i < |s.actors| && Lacks(c, s.shared, s.actors[i]) == Some(r)
    requires !Gone(c, s.shared, r) && !Full(c, s, r)
    ensures j < |s.actors| && WaitsFor(c, s, i, j)
  {
    hide Inv, Reachable, Covered;
    ReachableInv(c, s);
    if r.PendR? {
      AcquireNeverBlocks(c, s, i);
    }
    if r.SlotR? {
      SlotLeft(c, s, i, r.k);
    }
    j := ExhaustedHasHolder(c, s, i, r);
  }

  lemma NotDead(c: Cfg, s: Sys, i: nat, j: nat)
    requires i < |s.actors| && j < |s.actors| && WaitsFor(c, s, i, j)
    ensures !s.actors[j].Dead?
  {
  }

  lemma RankUp(c: Cfg, s: Sys, i: nat, j: nat)
    requires Reachable(c, s) && 0 <= c.marks.qHigh <= c.pendCap
    requires i < |s.actors| && j < |s.actors| && WaitsFor(c, s, i, j)
    ensures WaitRank(c, s.shared, s.actors[i]) < WaitRank(c, s.shared, s.actors[j]) <= 6
  {
    hide Reachable;
    var path := [i, j];
    assert path[0] == i && path[1] == j && WaitPath(c, s, path);
    RanksGrow(c, s, path, 1);
  }

  // ---------------------------------------------------------------- lost altogether

  /** Whoever lacks a physical or a send permit waits for some holder of one if and only if not all of them
      are lost. */
  lemma WaitsUnlessGone(c: Cfg, s: Sys, i: nat, r: Resource)
    requires Reachable(c, s) && (r.PhysR? || r.SendR?)
    requires i < |s.actors| && Lacks(c, s.shared, s.actors[i]) == Some(r)
    ensures (exists j | 0 <= j < |s.actors| :: WaitsFor(c, s, i, j)) <==> !Gone(c, s.shared, r)
  {
    ReachableInv(c, s);
    if Gone(c, s.shared, r) {
      forall j | 0 <= j < |s.actors|
        ensures !WaitsFor(c, s, i, j)
      {
        SumUpdate(c, if r.PhysR? then Phys else Send, s.actors, j, Dead);
      }
    } else {
      hide Inv;
      var j := ExhaustedHasHolder(c, s, i, r);
    }
  }

  lemma NoneLeft(c: Cfg, s: Sys, a: Actor, t: Shared, r: Resource)
    requires Inv(c, s) && Gone(c, s.shared, r) && Lacks(c, t, a) == Some(r)
    ensures Lacks(c, s.shared, a) == Some(r)
  {
    hide Leased, StockBound, Probed, SlotsHold, Owned, Covered, Sum;
  }

  lemma GoneStays(c: Cfg, s: Sys, st: Step, s': Sys, r: Resource)
    requires Next(c, s, st) == Some(s') && Gone(c, s.shared, r)
    ensures Gone(c, s'.shared, r)
  {
    hide Act;
    var m := Act(c, s.shared, s.actors[st.i], st).value;
    LossStep(c, s.shared, s.actors[st.i], st, m, PageLoss);
    LossStep(c, s.shared, s.actors[st.i], st, m, SendLoss);
  }

  /** The time limit around a consumption, and a cancellation, end any wait. */
  predicate Aborts(ev: Event) { ev.Cancel? || ev.Timeout? }

  lemma StuckWithout(c: Cfg, s: Sys, st: Step, r: Resource)
    requires st.i < |s.actors| && Lacks(c, s.shared, s.actors[st.i]) == Some(r) && (r.PhysR? || r.SendR?)
    requires !Aborts(st.ev)
    ensures Next(c, s, st).None?
  {
  }

  /** Once all the physical, or all the send permits are lost, whoever lacks one waits for ever, whatever the
      others do, unless it is cancelled or runs into its time limit. */
  lemma {:induction false} GoneForEver(c: Cfg, s: Sys, run: seq<Step>, s': Sys, i: nat, r: Resource)
    requires Inv(c, s) && Exec(c, s, run) == Some(s') && Gone(c, s.shared, r)
    requires i < |s.actors| && Lacks(c, s.shared, s.actors[i]) == Some(r)
    requires forall st | st in run :: st.i == i ==> !Aborts(st.ev)
    ensures i < |s'.actors| && s'.actors[i] == s.actors[i]
    ensures Gone(c, s'.shared, r) && Lacks(c, s'.shared, s'.actors[i]) == Some(r)
    decreases |run|
  {
    hide Inv, Next, Lacks;
    if run != [] {
      var st, n := run[0], Next(c, s, run[0]).value;
      assert st in run;
      if st.i == i {
        StuckWithout(c, s, st, r);
      }
      OthersStay(c, s, st, n, i);
      GoneStays(c, s, st, n, r);
      InvStep(c, s, st, n);
      NoneLeft(c, n, n.actors[i], s.shared, r);
      GoneForEver(c, n, run[1..], s', i, r);
    }
  }

  /** With the watermarks `main` derives, for any integer settings and at least one pending permit,
      `_acquire_many` never waits. */
  lemma DerivedMarksNeverBlock(
    c: Cfg, s: Sys, i: nat, physicalCap: int, sWorkers: int, settings: Settings)
    requires c.marks == AtStartUp(physicalCap, sWorkers, c.browserMint, settings)
    requires c.pendCap == settings.qPending >= 1 && Reachable(c, s)
    requires i < |s.actors| && s.actors[i].Batch? && s.actors[i].b.Acquire?
    ensures Lacks(c, s.shared, s.actors[i]).None?
  {
    MarksWithinCaps(physicalCap, sWorkers, c.browserMint, settings);
    AcquireNeverBlocks(c, s, i);
  }
}
