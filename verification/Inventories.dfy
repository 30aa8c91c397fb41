/** The inventory as the source has it: two deques of envelopes, rebuilt in place, and the lease on a
    claimed pair (grok_register/core/inventory.py). */
module Inventories {
  import opened Prelude
  import opened Slots
  import opened Stock
  import opened Envelopes

  function Items(buf: seq<ResourceEnvelope>): (r: seq<Item>)
    ensures |r| == |buf| && forall i :: 0 <= i < |buf| ==> r[i] == buf[i].AsItem()
  {
    seq(|buf|, i requires 0 <= i < |buf| => buf[i].AsItem())
  }

  /** Envelopes of one semaphore, each consistent with it, one object for each identity. */
  ghost predicate Shelved(buf: seq<ResourceEnvelope>, slots: Semaphore)
    reads slots, buf
  {
    && (forall e :: e in buf ==> e.slots == slots && e.Valid())
    && (forall i, j :: 0 <= i < j < |buf| ==> buf[i].id != buf[j].id)
  }

  lemma NothingFilters(p: Pool, now: real)
    ensures Fresh([], now) == [] && Stale([], now) == []
    ensures p.ReleaseAll(Ids(Stale([], now))) == p
  {
    assert Ids([]) == {} && p.live * {} == {} && p.live - {} == p.live;
  }

  lemma SnocFilters(done: seq<Item>, x: Item, now: real)
    ensures Fresh(done + [x], now) == Fresh(done, now) + (if Expired(x, now) then [] else [x])
    ensures Stale(done + [x], now) == Stale(done, now) + (if Expired(x, now) then [x] else [])
  {
    FreshAppend(done, [x], now);
    StaleAppend(done, [x], now);
    assert Fresh([x], now) == if Expired(x, now) then [] else [x];
    assert Stale([x], now) == if Expired(x, now) then [x] else [];
  }

  /** `kept` comes from `seen`, without repeats. */
  ghost predicate Kept(kept: seq<ResourceEnvelope>, seen: seq<ResourceEnvelope>)
  {
    && (forall e :: e in kept ==> e in seen)
    && (forall i, j :: 0 <= i < j < |kept| ==> kept[i].id != kept[j].id)
  }

  lemma KeptSnoc(
    kept: seq<ResourceEnvelope>, buf: seq<ResourceEnvelope>, i: nat, slots: Semaphore)
    requires i < |buf| && Shelved(buf, slots) && Kept(kept, buf[..i])
    ensures Kept(kept, buf[..i + 1]) && Kept(kept + [buf[i]], buf[..i + 1])
  {
    forall e | e in kept
      ensures e in buf[..i + 1] && e.id != buf[i].id
    {
      var j :| 0 <= j < i && buf[..i][j] == e;
      assert buf[..i + 1][j] == e;
    }
    assert buf[..i + 1][i] == buf[i];
  }

  lemma KeptNothing()
    ensures Kept([], [])
  {
  }

  lemma KeptShelved(kept: seq<ResourceEnvelope>, buf: seq<ResourceEnvelope>, slots: Semaphore)
    requires Shelved(buf, slots) && Kept(kept, buf)
    ensures Shelved(kept, slots) && forall e :: e in kept ==> e in buf
  {
  }

  /** `_cleanup_buf`: scan the whole queue, release what has expired, keep the rest in order. */
  method CleanupBuf(buf: seq<ResourceEnvelope>, slots: Semaphore, now: real)
    returns (kept: seq<ResourceEnvelope>, dropped: nat)
    requires Shelved(buf, slots)
    modifies buf, slots
    ensures Items(kept) == Fresh(Items(buf), now) && dropped == |Stale(Items(buf), now)|
    ensures slots.View() == old(slots.View()).ReleaseAll(Ids(Stale(Items(buf), now)))
    ensures Shelved(kept, slots) && forall e :: e in kept ==> e in buf
  {
    hide Fresh, Stale, Ids, Pool.ReleaseAll, Shelved, Kept;
    NothingFilters(slots.View(), now);
    kept, dropped := [], 0;
    var rest := buf;
    ghost var done: seq<Item> := [];
    assert buf[..0] == [] && Kept([], []) by {
      KeptNothing();
    }
    while rest != []
      invariant |rest| <= |buf| && rest == buf[|buf| - |rest|..]
      invariant done == Items(buf)[..|buf| - |rest|]
      invariant Items(kept) == Fresh(done, now) && dropped == |Stale(done, now)|
      invariant slots.View() == old(slots.View()).ReleaseAll(Ids(Stale(done, now)))
      invariant Shelved(buf, slots) && Kept(kept, buf[..|buf| - |rest|])
    {
      var e := rest[0];
      var i := |buf| - |rest|;
      assert e == buf[i] && e in buf;
      assert Items(buf)[..i + 1] == done + [e.AsItem()];
      SnocFilters(done, e.AsItem(), now);
      KeptSnoc(kept, buf, i, slots);
      if e.IsExpired(Some(now), now) {
        IdsSnoc(Stale(done, now), e.AsItem());
        ReleaseTwice(old(slots.View()), Ids(Stale(done, now)), {e.id});
        ReleaseOnShelf(buf, slots, e);
        dropped := dropped + 1;
        assert Fresh(done, now) + [] == Fresh(done, now);
      } else {
        kept := kept + [e];
        assert Stale(done, now) + [] == Stale(done, now);
      }
      done := done + [e.AsItem()];
      rest := rest[1..];
    }
    assert done == Items(buf) && buf[..|buf|] == buf;
    KeptShelved(kept, buf, slots);
  }

  /** Releasing one envelope of a shelf leaves all of them consistent. */
  method ReleaseOnShelf(ghost buf: seq<ResourceEnvelope>, ghost slots: Semaphore, e: ResourceEnvelope)
    requires Shelved(buf, slots) && e in buf
    modifies e`released, slots
    ensures Shelved(buf, slots) && slots.View() == old(slots.View()).Release(e.id)
  {
    e.ReleaseSlotOnce();
  }

  /** Cleaning a queue does not release an envelope that is not in it. */
  lemma NotStale(buf: seq<ResourceEnvelope>, env: ResourceEnvelope, now: real)
    requires forall e :: e in buf ==> e.id != env.id
    ensures env.id !in Ids(Stale(Items(buf), now))
  {
    hide Stale;
    Split(Items(buf), now);
    assert env.id !in Ids(Items(buf));
  }

  /** A claimed pair; leaving its context settles both envelopes whatever happened inside. */
  class PairLease {
    const t: ResourceEnvelope
    const q: ResourceEnvelope

    constructor (t: ResourceEnvelope, q: ResourceEnvelope)
      ensures this.t == t && this.q == q
    {
      this.t := t;
      this.q := q;
    }

    method Settle()
      requires t.Valid() && q.Valid() && t.slots != q.slots
      modifies t`released, q`released, t.slots, q.slots
      ensures t.Valid() && q.Valid() && t.released && q.released
      ensures t.slots.View() == old(t.slots.View()).Release(t.id)
      ensures q.slots.View() == old(q.slots.View()).Release(q.id)
    {
      t.ReleaseSlotOnce();
      q.ReleaseSlotOnce();
    }
  }

  class Inventory {
    const tSlots: Semaphore
    const qSlots: Semaphore
    var tBuf: seq<ResourceEnvelope>
    var qBuf: seq<ResourceEnvelope>
    var tExpired: nat
    var qExpired: nat
    var pairsClaimed: nat

    constructor (tSlots: Semaphore, qSlots: Semaphore)
      requires tSlots != qSlots
      ensures this.tSlots == tSlots && this.qSlots == qSlots && Valid() && Contents() == Shelf([], [])
      ensures tExpired == qExpired == pairsClaimed == 0
    {
      this.tSlots := tSlots;
      this.qSlots := qSlots;
      tBuf, qBuf := [], [];
      tExpired, qExpired, pairsClaimed := 0, 0, 0;
    }

    ghost predicate Valid()
      reads this, tSlots, qSlots, tBuf, qBuf
    {
      tSlots != qSlots && Shelved(tBuf, tSlots) && Shelved(qBuf, qSlots)
    }

    function Contents(): Shelf
      reads this
    {
      Shelf(Items(tBuf), Items(qBuf))
    }

    method CleanupExpired(now: real)
      requires Valid()
      modifies this, tBuf, qBuf, tSlots, qSlots
      ensures Valid() && Contents() == Clean(old(Contents()), now)
      ensures tExpired == old(tExpired) + |Stale(old(Contents()).t, now)|
      ensures qExpired == old(qExpired) + |Stale(old(Contents()).q, now)|
      ensures tSlots.View() == old(tSlots.View()).ReleaseAll(Ids(Stale(old(Contents()).t, now)))
      ensures qSlots.View() == old(qSlots.View()).ReleaseAll(Ids(Stale(old(Contents()).q, now)))
      ensures pairsClaimed == old(pairsClaimed)
      ensures (forall e :: e in tBuf ==> e in old(tBuf)) && (forall e :: e in qBuf ==> e in old(qBuf))
    {
      hide Pool.ReleaseAll, Fresh, Stale, Ids;
      var dropped: nat;
      tBuf, dropped := CleanupBuf(tBuf, tSlots, now);
      tExpired := tExpired + dropped;
      qBuf, dropped := CleanupBuf(qBuf, qSlots, now);
      qExpired := qExpired + dropped;
    }

    /** The T side; an envelope that is expired on arrival is discarded and counted. */
    method PutT(env: ResourceEnvelope, now: real)
      requires Valid() && env.slots == tSlots && env.Valid()
      requires env !in tBuf && forall e :: e in tBuf ==> e.id != env.id
      modifies this, tBuf, qBuf, tSlots, qSlots, env
      ensures Valid() && env.Valid()
      ensures Contents() == Stock.PutT(old(Contents()), env.AsItem(), now)
      ensures Expired(env.AsItem(), now) ==>
                && tExpired == old(tExpired) + 1 && qExpired == old(qExpired)
                && tSlots.View() == old(tSlots.View()).Release(env.id)
                && qSlots.View() == old(qSlots.View())
      ensures !Expired(env.AsItem(), now) ==>
                && tExpired == old(tExpired) + |Stale(old(Contents()).t, now)|
                && qExpired == old(qExpired) + |Stale(old(Contents()).q, now)|
                && tSlots.View() == old(tSlots.View()).ReleaseAll(Ids(Stale(old(Contents()).t, now)))
                && qSlots.View() == old(qSlots.View()).ReleaseAll(Ids(Stale(old(Contents()).q, now)))
      ensures pairsClaimed == old(pairsClaimed)
    {
      hide Fresh, Stale, Ids;
      if env.IsExpired(Some(now), now) {
        env.ReleaseSlotOnce();
        tExpired := tExpired + 1;
      } else {
        NotStale(tBuf, env, now);
        hide Pool.ReleaseAll;
        StaysLive(tSlots.View(), Ids(Stale(Contents().t, now)), env.id);
        CleanupExpired(now);
        tBuf := tBuf + [env];
      }
    }

    method PutQ(env: ResourceEnvelope, now: real)
      requires Valid() && env.slots == qSlots && env.Valid()
      requires env !in qBuf && forall e :: e in qBuf ==> e.id != env.id
      modifies this, tBuf, qBuf, tSlots, qSlots, env
      ensures Valid() && env.Valid()
      ensures Contents() == Stock.PutQ(old(Contents()), env.AsItem(), now)
      ensures Expired(env.AsItem(), now) ==>
                && qExpired == old(qExpired) + 1 && tExpired == old(tExpired)
                && qSlots.View() == old(qSlots.View()).Release(env.id)
                && tSlots.View() == old(tSlots.View())
      ensures !Expired(env.AsItem(), now) ==>
                && tExpired == old(tExpired) + |Stale(old(Contents()).t, now)|
                && qExpired == old(qExpired) + |Stale(old(Contents()).q, now)|
                && tSlots.View() == old(tSlots.View()).ReleaseAll(Ids(Stale(old(Contents()).t, now)))
                && qSlots.View() == old(qSlots.View()).ReleaseAll(Ids(Stale(old(Contents()).q, now)))
      ensures pairsClaimed == old(pairsClaimed)
    {
      hide Fresh, Stale, Ids;
      if env.IsExpired(Some(now), now) {
        env.ReleaseSlotOnce();
        qExpired := qExpired + 1;
      } else {
        NotStale(qBuf, env, now);
        hide Pool.ReleaseAll;
        StaysLive(qSlots.View(), Ids(Stale(Contents().q, now)), env.id);
        CleanupExpired(now);
        qBuf := qBuf + [env];
      }
    }

    /** One look of a waiting claim; a cancelled wait makes no further look and takes nothing. */
    method TryPopPair(now: real) returns (pair: Option<PairLease>)
      requires Valid()
      modifies this, tBuf, qBuf, tSlots, qSlots
      ensures Valid()
      ensures (Contents(), if pair.None? then None
                           else Some(Pair(pair.value.t.AsItem(), pair.value.q.AsItem())))
              == TryPop(old(Contents()), now)
      ensures pair.Some? ==>
                && fresh(pair.value) && pair.value.t in old(tBuf) && pair.value.q in old(qBuf)
                && pair.value.t.Valid() && pair.value.q.Valid()
      ensures pairsClaimed == old(pairsClaimed) + if pair.Some? then 1 else 0
      ensures tSlots.View() == old(tSlots.View()).ReleaseAll(Ids(Stale(old(Contents()).t, now)))
      ensures qSlots.View() == old(qSlots.View()).ReleaseAll(Ids(Stale(old(Contents()).q, now)))
    {
      hide Pool.ReleaseAll, Fresh, Stale, Ids;
      CleanupExpired(now);
      pair := PopFront();
    }

    /** Takes the first T and the first Q, if there are both. */
    method PopFront() returns (pair: Option<PairLease>)
      requires Valid()
      modifies this`tBuf, this`qBuf, this`pairsClaimed
      ensures Valid()
      ensures if old(tBuf) == [] || old(qBuf) == [] then pair.None? && Contents() == old(Contents())
              else && pair.Some? && fresh(pair.value) && pair.value.t == old(tBuf)[0] && pair.value.q == old(qBuf)[0]
                   && Contents() == Shelf(old(Contents()).t[1..], old(Contents()).q[1..])
      ensures pair.Some? ==>
                && pair.value.t in old(tBuf) && pair.value.q in old(qBuf)
                && pair.value.t.Valid() && pair.value.q.Valid()
      ensures pairsClaimed == old(pairsClaimed) + if pair.Some? then 1 else 0
    {
      if tBuf == [] || qBuf == [] {
        return None;
      }
      var lease := new PairLease(tBuf[0], qBuf[0]);
      assert tBuf[0] in tBuf && qBuf[0] in qBuf;
      assert Items(tBuf[1..]) == Items(tBuf)[1..] && Items(qBuf[1..]) == Items(qBuf)[1..];
      tBuf, qBuf := tBuf[1..], qBuf[1..];
      pairsClaimed := pairsClaimed + 1;
      return Some(lease);
    }
  }
}
