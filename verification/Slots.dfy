/** Inventory slots and the envelopes that own them (grok_register/core/envelope.py).

    On values, a pool is a semaphore together with the identities of the envelopes that
    still hold one of its permits.  The classes below do the same thing in place. */
module Slots {
  import opened Prelude

  /** `free` is the semaphore's counter, `live` the envelopes created and not yet released. */
  datatype Pool = Pool(free: nat, live: set<nat>) {
    function Total(): nat { free + |live| }

    /** A permit is taken and an envelope with a fresh identity is built around it. */
    function Create(id: nat): Pool
      requires free > 0
    {
      Pool(free - 1, live + {id})
    }

    function Release(id: nat): Pool { ReleaseAll({id}) }

    /** `release_slot_once` on each of `ids`: only the unreleased ones give a permit back. */
    function ReleaseAll(ids: set<nat>): Pool
    {
      Pool(free + |live * ids|, live - ids)
    }
  }

  /** Whatever is released, however often, permits and unreleased envelopes add up. */
  lemma ReleaseConserves(p: Pool, ids: set<nat>)
    ensures p.ReleaseAll(ids).Total() == p.Total()
    ensures p.ReleaseAll(ids).ReleaseAll(ids) == p.ReleaseAll(ids)
  {
    assert (p.live - ids) + (p.live * ids) == p.live;
    assert p.ReleaseAll(ids).live * ids == {};
  }

  lemma CreateConserves(p: Pool, id: nat)
    requires p.free > 0 && id !in p.live
    ensures p.Create(id).Total() == p.Total()
    ensures p.Create(id).Release(id) == p
  {
    assert (p.live + {id}) - {id} == p.live;
    assert (p.live + {id}) * {id} == {id};
  }

  /** Releasing envelopes that are all unreleased returns exactly one permit each. */
  lemma ReleaseLive(p: Pool, ids: set<nat>)
    requires ids <= p.live
    ensures p.ReleaseAll(ids).free == p.free + |ids|
  {
    assert p.live * ids == ids;
  }

  lemma StaysLive(p: Pool, ids: set<nat>, id: nat)
    requires id !in ids
    ensures id in p.ReleaseAll(ids).live <==> id in p.live
  {
  }

  lemma ReleaseTwice(p: Pool, a: set<nat>, b: set<nat>)
    ensures p.ReleaseAll(a).ReleaseAll(b) == p.ReleaseAll(a + b)
  {
    assert (p.live - a) - b == p.live - (a + b);
    assert (p.live * a) + ((p.live - a) * b) == p.live * (a + b);
    assert (p.live * a) !! ((p.live - a) * b);
  }
}
