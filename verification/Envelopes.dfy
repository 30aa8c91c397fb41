/** Semaphores and resource envelopes as the source has them, updated in place
    (grok_register/core/envelope.py; `_acquire_many` in grok_register/register.py). */
module Envelopes {
  import opened Prelude
  import opened Slots
  import opened Stock

  /** `live` names the envelopes that still hold one of the permits. */
  class Semaphore {
    var value: nat
    ghost var live: set<nat>

    constructor (value: nat)
      ensures this.value == value && live == {}
    {
      this.value := value;
      live := {};
    }

    ghost function View(): Pool
      reads this
    {
      Pool(value, live)
    }
  }

  class ResourceEnvelope {
    const id: nat
    const slots: Semaphore
    const expires: Option<real>
    var released: bool

    constructor (id: nat, slots: Semaphore, expires: Option<real>)
      ensures this.id == id && this.slots == slots && this.expires == expires && !released
    {
      this.id := id;
      this.slots := slots;
      this.expires := expires;
      released := false;
    }

    /** The flag and the semaphore agree on whether the envelope holds a permit. */
    ghost predicate Valid()
      reads this, slots
    {
      released <==> id !in slots.live
    }

    function AsItem(): Item { Item(id, expires) }

    /** `now or time.time()`: no argument and zero both mean the clock. */
    predicate IsExpired(now: Option<real>, clock: real)
    {
      var at := if now.None? || now.value == 0.0 then clock else now.value;
      expires.Some? && at > expires.value
    }

    method ReleaseSlotOnce()
      requires Valid()
      modifies this`released, slots
      ensures Valid() && released
      ensures slots.View() == old(slots.View()).Release(id)
    {
      if !released {
        released := true;
        assert slots.live * {id} == {id};
        slots.value := slots.value + 1;
        slots.live := slots.live - {id};
      } else {
        assert slots.live * {id} == {};
      }
    }
  }

  /** `create_with_slot`, from the moment a permit is there; `fails` says that the envelope could
      not be built. */
  method CreateWithSlot(id: nat, slots: Semaphore, expires: Option<real>, fails: bool)
    returns (r: Result<ResourceEnvelope, ()>)
    requires slots.value > 0 && id !in slots.live
    modifies slots
    ensures r.Err? <==> fails
    ensures fails ==> slots.View() == old(slots.View())
    ensures !fails ==>
              && fresh(r.value) && r.value.Valid() && !r.value.released
              && r.value.id == id && r.value.slots == slots && r.value.expires == expires
              && slots.View() == old(slots.View()).Create(id)
  {
    slots.value := slots.value - 1;
    if fails {
      slots.value := slots.value + 1;
      return Err(());
    }
    var e := new ResourceEnvelope(id, slots, expires);
    slots.live := slots.live + {id};
    r := Ok(e);
  }

  /** What others do to the value in a number of waits. */
  function Net(others: seq<int>): int
    decreases |others|
  {
    if others == [] then 0 else Net(others[..|others| - 1]) + others[|others| - 1]
  }

  /** How many awaits of a permit begin: all, or those up to the cancelled one. */
  function Awaits(count: nat, cancelAt: Option<nat>): nat
  {
    if cancelAt.Some? && cancelAt.value < count then cancelAt.value + 1 else count
  }

  /** `_acquire_many`, waiting for each permit: `others` is by how much other tasks change the value during each
      await, an await that ends finds a permit, and the await of permit `cancelAt`, if there is one, is
      cancelled.  All of the permits are taken or none, whatever the others do. */
  method AcquireMany(sem: Semaphore, count: nat, others: seq<int>, cancelAt: Option<nat>)
    returns (acquired: Option<nat>)
    requires |others| == Awaits(count, cancelAt)
    requires forall k | 0 <= k < |others| ::
               sem.value + Net(others[..k + 1]) >= if Some(k) == cancelAt then k else k + 1
    modifies sem`value
    ensures acquired == if cancelAt.Some? && cancelAt.value < count then None else Some(count)
    ensures sem.value == old(sem.value) + Net(others) - if acquired.Some? then count else 0
  {
    var n, cancelled := 0, false;
    while n < count && !cancelled
      invariant n <= count && (cancelAt.Some? ==> n <= cancelAt.value || count <= cancelAt.value)
      invariant n + (if cancelled then 1 else 0) <= |others|
      invariant cancelled ==> n + 1 == |others| && cancelAt == Some(n)
      invariant sem.value == old(sem.value) + Net(others[..n + if cancelled then 1 else 0]) - n
      decreases count - n, !cancelled
    {
      assert others[..n + 1][..n] == others[..n];
      assert old(sem.value) + Net(others[..n + 1]) >= if Some(n) == cancelAt then n else n + 1;
      sem.value := sem.value + others[n];
      if Some(n) == cancelAt {
        cancelled := true;
      } else {
        sem.value := sem.value - 1;
        n := n + 1;
      }
    }
    assert others[..|others|] == others;
    if !cancelled {
      return Some(n);
    }
    while n > 0
      invariant sem.value == old(sem.value) + Net(others) - n
    {
      sem.value := sem.value + 1;
      n := n - 1;
    }
    return None;
  }
}
