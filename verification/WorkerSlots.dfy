/** Inventory slots over every step of the worker system: conservation, single ownership of
    envelopes, and the bound on stock. */
module WorkerSlots {
  import opened Prelude
  import opened Slots
  import opened Stock
  import opened Admission
  import opened RegistrationCircuit
  import opened Workers
  import opened WorkerWeights
  import opened WorkerLeases

  /** One side of the inventory: its slots and its queue. */
  datatype Rack = Rack(pool: Pool, buf: seq<Item>)

  function RackOf(k: Kind, t: Store): Rack
  {
    if k.KindT? then Rack(t.tPool, t.shelf.t) else Rack(t.qPool, t.shelf.q)
  }

  function CleanedRack(r: Rack, now: real): Rack
  {
    Rack(r.pool.ReleaseAll(Ids(Stale(r.buf, now))), Fresh(r.buf, now))
  }

  // ---------------------------------------------------------------- what a step does to one side

  /** The steps that clean both queues. */
  predicate Cleans(a: Actor, st: Step)
  {
    && st.ev.Run?
    && (|| a.CClaim?
        || (a.Mint? && a.m.Put? && !Expired(a.m.x, st.wall))
        || (a.Settle? && a.t.Deposit? && !Expired(a.t.x, st.wall)))
  }

  function Before(k: Kind, s: Shared, a: Actor, st: Step): Rack
  {
    var r := RackOf(k, s.store);
    if Cleans(a, st) then CleanedRack(r, st.wall) else r
  }

  /** Cancelling an S worker in `notify_changed`: it discards what it no longer owns. */
  predicate Strands(k: Kind, a: Actor, st: Step)
  {
    k.KindT? && a.Mint? && a.m.Notify? && st.ev.Cancel?
  }

  predicate Keeps(k: Kind, r: Rack, a: Actor, r': Rack, a': Actor)
  {
    Held(k, a') == Held(k, a) && r' == r
  }

  predicate Creates(k: Kind, id: nat, r: Rack, a: Actor, r': Rack, a': Actor)
  {
    && Held(k, a).None? && Held(k, a').Some? && Held(k, a').value.id == id
    && r.pool.free > 0 && r' == Rack(r.pool.Create(id), r.buf)
  }

  predicate Drops(k: Kind, r: Rack, a: Actor, r': Rack, a': Actor)
  {
    && Held(k, a).Some? && Held(k, a').None?
    && r' == Rack(r.pool.Release(Held(k, a).value.id), r.buf)
  }

  predicate Deposits(k: Kind, r: Rack, a: Actor, r': Rack, a': Actor)
  {
    Held(k, a).Some? && Held(k, a').None? && r' == Rack(r.pool, r.buf + [Held(k, a).value])
  }

  predicate Takes(k: Kind, r: Rack, a: Actor, r': Rack, a': Actor)
  {
    && Held(k, a).None? && r.buf != [] && Held(k, a') == Some(r.buf[0])
    && r' == Rack(r.pool, r.buf[1..])
  }

  /** After any cleaning, a step keeps, creates, drops, deposits or takes one envelope. */
  ghost predicate Flows(k: Kind, s: Shared, a: Actor, st: Step, m: Move)
  {
    var r, r', a' := Before(k, s, a, st), RackOf(k, m.shared.store), m.actor;
    && s.store.nextId <= m.shared.store.nextId
    && (m.spawned.Some? ==> Held(k, m.spawned.value).None?)
    && (|| Keeps(k, r, a, r', a')
        || (Creates(k, s.store.nextId, r, a, r', a') && s.store.nextId < m.shared.store.nextId)
        || Drops(k, r, a, r', a')
        || Deposits(k, r, a, r', a')
        || Takes(k, r, a, r', a')
        || (Strands(k, a, st) && Held(k, a') == Held(k, a) == None
            && r' == Rack(r.pool.Release(a.m.x.id), r.buf)))
  }

  ghost predicate BothFlow(s: Shared, a: Actor, st: Step, m: Move)
  {
    Flows(KindT, s, a, st, m) && Flows(KindQ, s, a, st, m)
  }

  lemma FlowFree(c: Cfg, s: Shared, a: Actor, st: Step, m: Move)
    requires !a.Mint? && !a.Batch? && !a.Settle? && !a.Hold? && !a.CLeave?
    requires StepFree(c, s, a, st) == Some(m)
    ensures BothFlow(s, a, st, m)
  {
    hide TryT, TryQ, Pool.ReleaseAll, Pool.Create, Fresh, Stale, Ids, Expired;
  }

  lemma FlowMint(c: Cfg, s: Shared, a: Actor, st: Step, m: Move)
    requires a.Mint?
    requires StepMint(c, s, a.m, st) == Some(m)
    ensures BothFlow(s, a, st, m)
  {
    hide Lobby.EndT, Pool.ReleaseAll, Pool.Create, Fresh, Stale, Ids, Expired;
  }

  lemma FlowReserve(c: Cfg, s: Shared, a: Actor, st: Step, m: Move)
    requires a.Batch? && PhaseOf(a.b).Reserving?
    requires StepReserve(c, s, a.l, a.owned, a.b, st) == Some(m)
    ensures BothFlow(s, a, st, m)
  {
    hide Lobby.ReleaseOne;
  }

  lemma FlowQueue(c: Cfg, s: Shared, a: Actor, st: Step, m: Move)
    requires a.Batch? && PhaseOf(a.b).Queueing?
    requires StepQueue(c, s, a.l, a.owned, a.b, st) == Some(m)
    ensures BothFlow(s, a, st, m)
  {
  }

  lemma FlowSend(c: Cfg, s: Shared, a: Actor, st: Step, m: Move)
    requires a.Batch? && PhaseOf(a.b).Posting?
    requires StepSend(c, s, a.l, a.owned, a.b, st) == Some(m)
    ensures BothFlow(s, a, st, m)
  {
  }

  lemma FlowHandOver(c: Cfg, s: Shared, a: Actor, st: Step, m: Move)
    requires a.Batch? && PhaseOf(a.b).HandingOver?
    requires StepHandOver(c, s, a.l, a.owned, a.b, st) == Some(m)
    ensures BothFlow(s, a, st, m)
  {
    hide Lobby.ReleaseOne;
  }

  lemma FlowSettle(c: Cfg, s: Shared, a: Actor, st: Step, m: Move)
    requires a.Settle?
    requires StepSettle(c, s, a.l, a.t, st) == Some(m)
    ensures BothFlow(s, a, st, m)
  {
    hide Lobby.ReleaseOne, Pool.ReleaseAll, Pool.Create, Fresh, Stale, Ids, Expired;
  }

  lemma FlowPass(c: Cfg, s: Shared, a: Actor, st: Step, m: Move)
    requires a.Hold? && !Consuming(a.h)
    requires StepPass(c, s, a.p, a.k, a.h, st) == Some(m)
    ensures BothFlow(s, a, st, m)
  {
    hide Poll, GiveUp, PairExpired, Pool.ReleaseAll, Pool.Create, Fresh, Stale, Ids, Expired;
  }

  lemma FlowConsume(c: Cfg, s: Shared, a: Actor, st: Step, m: Move)
    requires a.Hold? && Consuming(a.h)
    requires StepConsume(c, s, a.p, a.k, a.h, st) == Some(m)
    ensures BothFlow(s, a, st, m)
  {
    hide Retire, Trip, ConsumeRecovery, CanSubmit, PairExpired, Pool.ReleaseAll, Pool.Create, Fresh, Stale, Ids,
      Expired;
  }

  lemma FlowLeave(c: Cfg, s: Shared, a: Actor, st: Step, m: Move)
    requires a.CLeave?
    requires StepLeave(c, s, a.k, a.dying, st) == Some(m)
    ensures BothFlow(s, a, st, m)
  {
    hide Retire;
  }

  lemma FlowLocal(c: Cfg, s: Shared, a: Actor, st: Step, m: Move)
    requires Act(c, s, a, st) == Some(m)
    ensures BothFlow(s, a, st, m)
  {
    hide StepFree, StepMint, StepReserve, StepQueue, StepSend, StepHandOver, StepSettle, StepPass, StepConsume,
      StepLeave,
      BothFlow;
    match a {
      case Mint(_) => FlowMint(c, s, a, st, m);
      case Batch(_, _, b) =>
        match PhaseOf(b) {
          case Reserving => FlowReserve(c, s, a, st, m);
          case Queueing => FlowQueue(c, s, a, st, m);
          case Posting => FlowSend(c, s, a, st, m);
          case HandingOver => FlowHandOver(c, s, a, st, m);
        }
      case Settle(_, _) => FlowSettle(c, s, a, st, m);
      case Hold(_, _, h) =>
        if Consuming(h) {
          FlowConsume(c, s, a, st, m);
        } else {
          FlowPass(c, s, a, st, m);
        }
      case CLeave(_, _) => FlowLeave(c, s, a, st, m);
      case _ => FlowFree(c, s, a, st, m);
    }
  }

  // ---------------------------------------------------------------- conservation

  function Cap(c: Cfg, k: Kind): nat { if k.KindT? then c.tCap else c.qCap }

  /** Free slots and unreleased envelopes add up, and no identity is from the future. */
  ghost predicate SlotsHold(c: Cfg, k: Kind, t: Store) { RackHolds(c, k, RackOf(k, t), t.nextId) }

  ghost predicate RackHolds(c: Cfg, k: Kind, r: Rack, nextId: nat)
  {
    r.pool.Total() == Cap(c, k) && forall id :: id in r.pool.live ==> id < nextId
  }

  lemma CleanHolds(c: Cfg, k: Kind, r: Rack, nextId: nat, now: real)
    requires RackHolds(c, k, r, nextId)
    ensures RackHolds(c, k, CleanedRack(r, now), nextId)
  {
    ReleaseConserves(r.pool, Ids(Stale(r.buf, now)));
  }

  lemma ReleaseHolds(c: Cfg, k: Kind, r: Rack, nextId: nat, id: nat)
    requires RackHolds(c, k, r, nextId)
    ensures RackHolds(c, k, Rack(r.pool.Release(id), r.buf), nextId)
  {
    ReleaseConserves(r.pool, {id});
  }

  lemma CreateHolds(c: Cfg, k: Kind, r: Rack, nextId: nat)
    requires RackHolds(c, k, r, nextId) && r.pool.free > 0
    ensures RackHolds(c, k, Rack(r.pool.Create(nextId), r.buf), nextId + 1)
  {
    CreateConserves(r.pool, nextId);
  }

  lemma SlotsFlow(c: Cfg, k: Kind, s: Shared, a: Actor, st: Step, m: Move)
    requires Flows(k, s, a, st, m) && SlotsHold(c, k, s.store)
    ensures SlotsHold(c, k, m.shared.store)
  {
    hide Cleans, Held, CleanedRack, Pool.ReleaseAll, Pool.Create, Pool.Release, Pool.Total;
    CleanHolds(c, k, RackOf(k, s.store), s.store.nextId, st.wall);
    var r := Before(k, s, a, st);
    if Creates(k, s.store.nextId, r, a, RackOf(k, m.shared.store), m.actor) {
      CreateHolds(c, k, r, s.store.nextId);
    } else if Drops(k, r, a, RackOf(k, m.shared.store), m.actor) {
      ReleaseHolds(c, k, r, s.store.nextId, Held(k, a).value.id);
    } else if Strands(k, a, st) {
      ReleaseHolds(c, k, r, s.store.nextId, a.m.x.id);
    }
  }

  // ---------------------------------------------------------------- single ownership

  /** In how many places envelope `id` is: the queue, and the hands of actors. */
  ghost function Places(c: Cfg, k: Kind, r: Rack, actors: seq<Actor>, id: nat): nat
  {
    (if id in Ids(r.buf) then 1 else 0) + Sum(c, Holds(k, id), actors)
  }

  /** Every unreleased envelope is in exactly one place, every other one in none; so free slots,
      stock and envelopes in hand add up to the capacity. */
  ghost predicate Owned(c: Cfg, k: Kind, r: Rack, actors: seq<Actor>)
  {
    && Distinct(r.buf)
    && r.pool.free + |r.buf| + Sum(c, Hand(k), actors) == Cap(c, k)
    && forall id: nat :: Places(c, k, r, actors, id) == if id in r.pool.live then 1 else 0
  }

  lemma CleanKeepsOwned(c: Cfg, k: Kind, r: Rack, actors: seq<Actor>, now: real)
    requires Owned(c, k, r, actors)
    ensures Owned(c, k, CleanedRack(r, now), actors)
  {
    hide Sum, Fresh, Stale;
    var stale, r' := Stale(r.buf, now), CleanedRack(r, now);
    Split(r.buf, now);
    DistinctCount(stale);
    forall id: nat | id in Ids(stale)
      ensures id in r.pool.live
    {
      assert Places(c, k, r, actors, id) >= 1;
    }
    ReleaseLive(r.pool, Ids(stale));
    forall id: nat
      ensures Places(c, k, r', actors, id) == if id in r'.pool.live then 1 else 0
    {
      assert Places(c, k, r, actors, id) == if id in r.pool.live then 1 else 0;
    }
  }

  predicate Unarmed(k: Kind, spawned: Option<Actor>)
  {
    spawned.Some? ==> Held(k, spawned.value).None?
  }

  /** An actor's envelope is unreleased and nowhere else. */
  lemma HeldIsLive(c: Cfg, k: Kind, r: Rack, actors: seq<Actor>, i: nat)
    requires i < |actors| && Owned(c, k, r, actors) && Held(k, actors[i]).Some?
    ensures Held(k, actors[i]).value.id in r.pool.live
    ensures Held(k, actors[i]).value.id !in Ids(r.buf)
  {
    var id := Held(k, actors[i]).value.id;
    SumUpdate(c, Holds(k, id), actors, i, Dead);
    assert Places(c, k, r, actors, id) == if id in r.pool.live then 1 else 0;
  }

  lemma KeepOwned(c: Cfg, k: Kind, r: Rack, r': Rack, actors: seq<Actor>, i: nat, m: Move)
    requires i < |actors| && Owned(c, k, r, actors) && Unarmed(k, m.spawned)
    requires Keeps(k, r, actors[i], r', m.actor)
    ensures Owned(c, k, r', Joined(actors[i := m.actor], m.spawned))
  {
    hide Sum, Joined;
    var actors' := Joined(actors[i := m.actor], m.spawned);
    StepSum(c, Hand(k), actors, i, m);
    forall id: nat
      ensures Places(c, k, r', actors', id) == if id in r'.pool.live then 1 else 0
    {
      StepSum(c, Holds(k, id), actors, i, m);
      assert Places(c, k, r, actors, id) == if id in r.pool.live then 1 else 0;
    }
  }

  lemma CreateOwned(c: Cfg, k: Kind, r: Rack, r': Rack, actors: seq<Actor>, i: nat, m: Move, id0: nat)
    requires i < |actors| && Owned(c, k, r, actors) && Unarmed(k, m.spawned)
    requires id0 !in r.pool.live && Creates(k, id0, r, actors[i], r', m.actor)
    ensures Owned(c, k, r', Joined(actors[i := m.actor], m.spawned))
  {
    hide Sum, Joined;
    var actors' := Joined(actors[i := m.actor], m.spawned);
    StepSum(c, Hand(k), actors, i, m);
    forall id: nat
      ensures Places(c, k, r', actors', id) == if id in r'.pool.live then 1 else 0
    {
      StepSum(c, Holds(k, id), actors, i, m);
      assert Places(c, k, r, actors, id) == if id in r.pool.live then 1 else 0;
    }
  }

  lemma DropOwned(c: Cfg, k: Kind, r: Rack, r': Rack, actors: seq<Actor>, i: nat, m: Move)
    requires i < |actors| && Owned(c, k, r, actors) && Unarmed(k, m.spawned)
    requires Drops(k, r, actors[i], r', m.actor)
    ensures Owned(c, k, r', Joined(actors[i := m.actor], m.spawned))
  {
    hide Sum, Joined;
    var actors' := Joined(actors[i := m.actor], m.spawned);
    StepSum(c, Hand(k), actors, i, m);
    HeldIsLive(c, k, r, actors, i);
    ReleaseLive(r.pool, {Held(k, actors[i]).value.id});
    forall id: nat
      ensures Places(c, k, r', actors', id) == if id in r'.pool.live then 1 else 0
    {
      StepSum(c, Holds(k, id), actors, i, m);
      assert Places(c, k, r, actors, id) == if id in r.pool.live then 1 else 0;
    }
  }

  lemma DepositOwned(c: Cfg, k: Kind, r: Rack, r': Rack, actors: seq<Actor>, i: nat, m: Move)
    requires i < |actors| && Owned(c, k, r, actors) && Unarmed(k, m.spawned)
    requires Deposits(k, r, actors[i], r', m.actor)
    ensures Owned(c, k, r', Joined(actors[i := m.actor], m.spawned))
  {
    hide Sum, Joined;
    var actors' := Joined(actors[i := m.actor], m.spawned);
    StepSum(c, Hand(k), actors, i, m);
    HeldIsLive(c, k, r, actors, i);
    IdsSnoc(r.buf, Held(k, actors[i]).value);
    forall id: nat
      ensures Places(c, k, r', actors', id) == if id in r'.pool.live then 1 else 0
    {
      StepSum(c, Holds(k, id), actors, i, m);
      assert Places(c, k, r, actors, id) == if id in r.pool.live then 1 else 0;
    }
  }

  lemma TakeOwned(c: Cfg, k: Kind, r: Rack, r': Rack, actors: seq<Actor>, i: nat, m: Move)
    requires i < |actors| && Owned(c, k, r, actors) && Unarmed(k, m.spawned)
    requires Takes(k, r, actors[i], r', m.actor)
    ensures Owned(c, k, r', Joined(actors[i := m.actor], m.spawned))
  {
    hide Sum, Joined;
    var actors' := Joined(actors[i := m.actor], m.spawned);
    StepSum(c, Hand(k), actors, i, m);
    IdsCons(r.buf[0], r.buf[1..]);
    assert [r.buf[0]] + r.buf[1..] == r.buf;
    assert r.buf[0].id !in Ids(r.buf[1..]);
    forall id: nat
      ensures Places(c, k, r', actors', id) == if id in r'.pool.live then 1 else 0
    {
      StepSum(c, Holds(k, id), actors, i, m);
      assert Places(c, k, r, actors, id) == if id in r.pool.live then 1 else 0;
    }
  }

  /** Whether a step discards an envelope that is no longer the worker's to discard. */
  predicate Discards(k: Kind, s: Shared, a: Actor, st: Step)
  {
    Strands(k, a, st) && a.m.x.id in s.store.tPool.live
  }

  /** Every step that discards no such envelope keeps single ownership. */
  lemma OwnedFlow(c: Cfg, k: Kind, s: Sys, st: Step, m: Move)
    requires st.i < |s.actors| && SlotsHold(c, k, s.shared.store)
    requires Owned(c, k, RackOf(k, s.shared.store), s.actors)
    requires Flows(k, s.shared, s.actors[st.i], st, m)
    requires !Discards(k, s.shared, s.actors[st.i], st)
    ensures Owned(c, k, RackOf(k, m.shared.store), Joined(s.actors[st.i := m.actor], m.spawned))
  {
    hide Sum, Cleans, Fresh, Stale, Joined, Owned, Held, Ids;
    var a := s.actors[st.i];
    var r, r' := Before(k, s.shared, a, st), RackOf(k, m.shared.store);
    CleanKeepsOwned(c, k, RackOf(k, s.shared.store), s.actors, st.wall);
    assert Owned(c, k, r, s.actors) && r.pool.live <= RackOf(k, s.shared.store).pool.live;
    if Keeps(k, r, a, r', m.actor) {
      KeepOwned(c, k, r, r', s.actors, st.i, m);
    } else if Creates(k, s.shared.store.nextId, r, a, r', m.actor) {
      CreateOwned(c, k, r, r', s.actors, st.i, m, s.shared.store.nextId);
    } else if Drops(k, r, a, r', m.actor) {
      DropOwned(c, k, r, r', s.actors, st.i, m);
    } else if Deposits(k, r, a, r', m.actor) {
      DepositOwned(c, k, r, r', s.actors, st.i, m);
    } else {
      TakeOwned(c, k, r, r', s.actors, st.i, m);
    }
  }

  // ---------------------------------------------------------------- no envelope is out of sight

  /** Every unreleased envelope is in stock or in hand, even after a discard. */
  ghost predicate Covered(c: Cfg, k: Kind, r: Rack, actors: seq<Actor>)
  {
    forall id: nat | id in r.pool.live :: Places(c, k, r, actors, id) >= 1
  }

  lemma CleanKeepsCovered(c: Cfg, k: Kind, r: Rack, actors: seq<Actor>, now: real)
    requires Covered(c, k, r, actors)
    ensures Covered(c, k, CleanedRack(r, now), actors)
  {
    hide Sum, Fresh, Stale, Ids;
    var r' := CleanedRack(r, now);
    Split(r.buf, now);
    forall id: nat | id in r'.pool.live
      ensures Places(c, k, r', actors, id) >= 1
    {
      assert Places(c, k, r, actors, id) >= 1;
    }
  }

  /** Whatever a step does with one envelope, the others stay where they are. */
  lemma CoveredFlow(c: Cfg, k: Kind, s: Sys, st: Step, m: Move)
    requires st.i < |s.actors| && Covered(c, k, RackOf(k, s.shared.store), s.actors)
    requires Flows(k, s.shared, s.actors[st.i], st, m)
    ensures Covered(c, k, RackOf(k, m.shared.store), Joined(s.actors[st.i := m.actor], m.spawned))
  {
    hide Sum, Cleans, CleanedRack, Joined, Ids, Held;
    var a := s.actors[st.i];
    var r, r' := Before(k, s.shared, a, st), RackOf(k, m.shared.store);
    CleanKeepsCovered(c, k, RackOf(k, s.shared.store), s.actors, st.wall);
    if Deposits(k, r, a, r', m.actor) {
      IdsSnoc(r.buf, Held(k, a).value);
    } else if Takes(k, r, a, r', m.actor) {
      IdsCons(r.buf[0], r.buf[1..]);
      assert [r.buf[0]] + r.buf[1..] == r.buf;
    }
    forall id: nat | id in r'.pool.live
      ensures Places(c, k, r', Joined(s.actors[st.i := m.actor], m.spawned), id) >= 1
    {
      StepSum(c, Holds(k, id), s.actors, st.i, m);
      assert id in r.pool.live ==> Places(c, k, r, s.actors, id) >= 1;
    }
  }

  lemma {:induction false} IdsCount(buf: seq<Item>)
    ensures |Ids(buf)| <= |buf|
  {
    if buf == [] {
      assert Ids(buf) == {};
    } else {
      IdsCount(buf[1..]);
      IdsCons(buf[0], buf[1..]);
      assert [buf[0]] + buf[1..] == buf;
    }
  }

  /** With no slot free and fewer items in stock than slots, somebody holds an envelope. */
  lemma SomebodyHolds(c: Cfg, k: Kind, r: Rack, actors: seq<Actor>) returns (j: nat)
    requires Covered(c, k, r, actors) && r.pool.Total() == Cap(c, k)
    requires r.pool.free == 0 && |r.buf| < Cap(c, k)
    ensures j < |actors| && HandOf(k, actors[j]) > 0
  {
    hide Sum, Ids;
    IdsCount(r.buf);
    if r.pool.live <= Ids(r.buf) {
      SubsetCount(r.pool.live, Ids(r.buf));
      assert false;
    }
    var id :| id in r.pool.live && id !in Ids(r.buf);
    assert Places(c, k, r, actors, id) >= 1;
    j := SumHolder(c, Holds(k, id), actors);
  }

  lemma SubsetCount(a: set<nat>, b: set<nat>)
    requires a <= b
    ensures |a| <= |b|
  {
    assert a + (b - a) == b;
  }

  // ---------------------------------------------------------------- the bound on stock

  /** Stock, and what leases already granted may still bring in, stay within the high marks. */
  ghost predicate StockBound(c: Cfg, s: Sys)
  {
    && |s.shared.store.shelf.t| + Sum(c, ToStoreT, s.actors) <= Max(0, c.marks.tHigh)
    && |s.shared.store.shelf.q| + Sum(c, ToStoreQ, s.actors) <= Max(0, c.marks.qHigh)
  }

  /** A step adds to stock only what its actor was still to bring; a grant looks at the gate. */
  ghost predicate Grows(c: Cfg, s: Shared, a: Actor, m: Move)
  {
    var sh, sh', gate := s.store.shelf, m.shared.store.shelf, s.lobby.gate;
    && (|sh'.t| + ToStoreTOf(m.actor) <= |sh.t| + ToStoreTOf(a)
        || (sh' == sh && ToStoreTOf(a) == 0
            && |sh.t| + gate.tInProgress + ToStoreTOf(m.actor) <= c.marks.tHigh))
    && (|sh'.q| + ToStoreQOf(m.actor) + (if m.spawned.Some? then 1 else 0)
        <= |sh.q| + ToStoreQOf(a)
        || (sh' == sh && ToStoreQOf(a) == 0 && m.spawned.None?
            && |sh.q| + gate.qInflight + ToStoreQOf(m.actor) <= c.marks.qHigh))
    && (m.spawned.Some? ==> ToStoreTOf(m.spawned.value) == 0 && ToStoreQOf(m.spawned.value) == 1)
  }

  lemma CleanShrinks(sh: Shelf, now: real)
    ensures |Clean(sh, now).t| <= |sh.t| && |Clean(sh, now).q| <= |sh.q|
  {
    Split(sh.t, now);
    Split(sh.q, now);
  }

  lemma GrowFree(c: Cfg, s: Shared, a: Actor, st: Step, m: Move)
    requires !a.Mint? && !a.Batch? && !a.Settle? && !a.Hold? && !a.CLeave?
    requires StepFree(c, s, a, st) == Some(m)
    ensures Grows(c, s, a, m)
  {
    hide TryQ, TryT, Fresh, Stale, Ids, Pool.ReleaseAll;
    GateKeeps(c, s);
    if a.PGate? && st.ev.Run? && c.maxBatch > 0 {
      var grant := TryQ(c.marks, s.lobby.gate, |s.store.shelf.q|, c.maxBatch).1;
      assert grant.Some? ==> ToStoreQOf(m.actor) == grant.value;
    } else if a.SGate? && st.ev.Run? {
      var granted := TryT(c.marks, s.lobby.gate, |s.store.shelf.t|).1;
      assert ToStoreTOf(m.actor) == if granted then 1 else 0;
    }
    CleanShrinks(s.store.shelf, st.wall);
  }

  lemma GrowMint(c: Cfg, s: Shared, a: Actor, st: Step, m: Move)
    requires a.Mint?
    requires StepMint(c, s, a.m, st) == Some(m)
    ensures Grows(c, s, a, m)
  {
    hide Lobby.EndT, Fresh, Stale, Ids, Pool.ReleaseAll;
    CleanShrinks(s.store.shelf, st.wall);
  }

  lemma GrowReserve(c: Cfg, s: Shared, a: Actor, st: Step, m: Move)
    requires a.Batch? && PhaseOf(a.b).Reserving?
    requires StepReserve(c, s, a.l, a.owned, a.b, st) == Some(m)
    ensures Grows(c, s, a, m)
  {
    hide Lobby.ReleaseOne;
  }

  lemma GrowQueue(c: Cfg, s: Shared, a: Actor, st: Step, m: Move)
    requires a.Batch? && PhaseOf(a.b).Queueing?
    requires StepQueue(c, s, a.l, a.owned, a.b, st) == Some(m)
    ensures Grows(c, s, a, m)
  {
  }

  lemma GrowSend(c: Cfg, s: Shared, a: Actor, st: Step, m: Move)
    requires a.Batch? && PhaseOf(a.b).Posting?
    requires StepSend(c, s, a.l, a.owned, a.b, st) == Some(m)
    ensures Grows(c, s, a, m)
  {
  }

  lemma GrowHandOver(c: Cfg, s: Shared, a: Actor, st: Step, m: Move)
    requires a.Batch? && PhaseOf(a.b).HandingOver?
    requires StepHandOver(c, s, a.l, a.owned, a.b, st) == Some(m)
    ensures Grows(c, s, a, m)
  {
    hide Lobby.ReleaseOne;
  }

  lemma GrowSettle(c: Cfg, s: Shared, a: Actor, st: Step, m: Move)
    requires a.Settle?
    requires StepSettle(c, s, a.l, a.t, st) == Some(m)
    ensures Grows(c, s, a, m)
  {
    hide Lobby.ReleaseOne, Fresh, Stale, Ids, Pool.ReleaseAll;
    CleanShrinks(s.store.shelf, st.wall);
  }

  lemma GrowPass(c: Cfg, s: Shared, a: Actor, st: Step, m: Move)
    requires a.Hold? && !Consuming(a.h)
    requires StepPass(c, s, a.p, a.k, a.h, st) == Some(m)
    ensures Grows(c, s, a, m)
  {
    hide Poll, GiveUp, PairExpired, Pool.ReleaseAll;
  }

  lemma GrowConsume(c: Cfg, s: Shared, a: Actor, st: Step, m: Move)
    requires a.Hold? && Consuming(a.h)
    requires StepConsume(c, s, a.p, a.k, a.h, st) == Some(m)
    ensures Grows(c, s, a, m)
  {
    hide Retire, Trip, ConsumeRecovery, CanSubmit, PairExpired, Pool.ReleaseAll;
  }

  lemma GrowLeave(c: Cfg, s: Shared, a: Actor, st: Step, m: Move)
    requires a.CLeave?
    requires StepLeave(c, s, a.k, a.dying, st) == Some(m)
    ensures Grows(c, s, a, m)
  {
    hide Retire;
  }

  lemma GrowLocal(c: Cfg, s: Shared, a: Actor, st: Step, m: Move)
    requires Act(c, s, a, st) == Some(m)
    ensures Grows(c, s, a, m)
  {
    hide StepFree, StepMint, StepReserve, StepQueue, StepSend, StepHandOver, StepSettle, StepPass, StepConsume,
      StepLeave,
      Grows;
    match a {
      case Mint(_) => GrowMint(c, s, a, st, m);
      case Batch(_, _, b) =>
        match PhaseOf(b) {
          case Reserving => GrowReserve(c, s, a, st, m);
          case Queueing => GrowQueue(c, s, a, st, m);
          case Posting => GrowSend(c, s, a, st, m);
          case HandingOver => GrowHandOver(c, s, a, st, m);
        }
      case Settle(_, _) => GrowSettle(c, s, a, st, m);
      case Hold(_, _, h) =>
        if Consuming(h) {
          GrowConsume(c, s, a, st, m);
        } else {
          GrowPass(c, s, a, st, m);
        }
      case CLeave(_, _) => GrowLeave(c, s, a, st, m);
      case _ => GrowFree(c, s, a, st, m);
    }
  }

  lemma BoundStep(c: Cfg, s: Sys, i: nat, m: Move)
    requires i < |s.actors| && StockBound(c, s) && Leased(c, s)
    requires Grows(c, s.shared, s.actors[i], m)
    ensures StockBound(c, Sys(m.shared, Joined(s.actors[i := m.actor], m.spawned)))
  {
    hide Sum, Joined;
    StepSum(c, ToStoreT, s.actors, i, m);
    StepSum(c, ToStoreQ, s.actors, i, m);
    SumBelow(c, ToStoreT, LeaseT, s.actors);
    SumBelow(c, ToStoreQ, Share, s.actors);
  }
}
