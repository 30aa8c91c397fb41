/** The admission gate and its leases as the source has them, updated in place
    (grok_register/core/admission.py). */
module Gates {
  import opened Prelude
  import opened Admission

  class AdmissionGate {
    const marks: Marks
    var tInProgress: int
    var qInflight: int
    var tPaused: bool
    var qPaused: bool

    constructor (marks: Marks)
      ensures this.marks == marks && View() == IDLE_GATE
    {
      this.marks := marks;
      tInProgress, qInflight, tPaused, qPaused := 0, 0, false, false;
    }

    function View(): Gate
      reads this
    {
      Gate(tInProgress, qInflight, tPaused, qPaused)
    }

    /** One look of a waiting S worker, with `depth` T in stock. */
    method AcquireT(depth: nat) returns (lease: Option<TProductionLease>)
      modifies this
      ensures (View(), lease.Some?) == TryT(marks, old(View()), depth)
      ensures lease.Some? ==> fresh(lease.value) && lease.value.gate == this && !lease.value.released
    {
      var total := depth + tInProgress;
      if total >= marks.tHigh {
        tPaused := true;
      }
      if tPaused && total <= marks.tLow {
        tPaused := false;
      }
      if !tPaused && total < marks.tHigh {
        tInProgress := tInProgress + 1;
        var l := new TProductionLease(this);
        return Some(l);
      }
      return None;
    }

    /** One look of a waiting P worker, with `depth` Q in stock. */
    method AcquireQ(depth: nat, maxBatch: int) returns (r: Result<Option<QBatchLease>, string>)
      modifies this
      ensures r.Err? <==> maxBatch <= 0
      ensures r.Err? ==> View() == old(View())
      ensures r.Ok? ==>
                (View(), if r.value.None? then None else Some(r.value.value.count))
                == TryQ(marks, old(View()), depth, maxBatch)
      ensures r.Ok? && r.value.Some? ==>
                && fresh(r.value.value) && r.value.value.gate == this
                && r.value.value.remaining == r.value.value.count > 0
    {
      if maxBatch <= 0 {
        return Err("max_batch must be positive");
      }
      var total := depth + qInflight;
      if total >= marks.qHigh {
        qPaused := true;
      }
      if qPaused && total <= marks.qLow {
        qPaused := false;
      }
      var demand := marks.qHigh - total;
      if !qPaused && demand > 0 {
        var count := Min(maxBatch, demand);
        qInflight := qInflight + count;
        if depth + qInflight >= marks.qHigh {
          qPaused := true;
        }
        var l := new QBatchLease(this, count);
        return Ok(Some(l));
      }
      return Ok(None);
    }
  }

  /** What the constructor of the source refuses. */
  method MakeGate(marks: Marks) returns (r: Result<AdmissionGate, string>)
    ensures r.Ok? <==> marks.Valid()
    ensures r.Ok? ==> fresh(r.value) && r.value.marks == marks && r.value.View() == IDLE_GATE
  {
    if marks.tLow < 0 || marks.qLow < 0 {
      return Err("low watermarks must be non-negative");
    }
    if marks.tHigh <= 0 || marks.qHigh <= 0 {
      return Err("high watermarks must be positive");
    }
    if marks.tLow > marks.tHigh {
      return Err("t_low must be <= t_high");
    }
    if marks.qLow > marks.qHigh {
      return Err("q_low must be <= q_high");
    }
    var g := new AdmissionGate(marks);
    return Ok(g);
  }

  class TProductionLease {
    const gate: AdmissionGate
    var released: bool

    constructor (gate: AdmissionGate)
      ensures this.gate == gate && !released
    {
      this.gate := gate;
      released := false;
    }

    /** The flag is set before the lock is awaited; `locked` says that the await was not cancelled. */
    method Release(locked: bool)
      modifies this`released, gate`tInProgress
      ensures released
      ensures gate.tInProgress
           == old(gate.tInProgress) - if !old(released) && locked then 1 else 0
    {
      if released {
        return;
      }
      released := true;
      if locked {
        gate.tInProgress := gate.tInProgress - 1;
      }
    }

    /** Any number of releases decrement at most once, and exactly once if and only if the first of
        them gets the lock. */
    method ReleaseRepeatedly(locks: seq<bool>)
      requires !released
      modifies this`released, gate`tInProgress
      ensures gate.tInProgress
           == old(gate.tInProgress) - if locks != [] && locks[0] then 1 else 0
    {
      var i := 0;
      while i < |locks|
        invariant i <= |locks| && (released <==> i > 0)
        invariant gate.tInProgress
               == old(gate.tInProgress) - if i > 0 && locks[0] then 1 else 0
      {
        Release(locks[i]);
        i := i + 1;
      }
    }
  }

  class QBatchLease {
    const gate: AdmissionGate
    const count: nat
    var remaining: nat

    constructor (gate: AdmissionGate, count: nat)
      ensures this.gate == gate && this.count == count == remaining
    {
      this.gate := gate;
      this.count := count;
      remaining := count;
    }

    /** Here the guard is evaluated again under the lock, so a cancelled wait changes nothing. */
    method ReleaseOne(locked: bool)
      modifies this`remaining, gate`qInflight
      ensures remaining == old(remaining) - if locked && old(remaining) > 0 then 1 else 0
      ensures gate.qInflight + old(remaining) == old(gate.qInflight) + remaining
    {
      if remaining > 0 && locked {
        remaining := remaining - 1;
        gate.qInflight := gate.qInflight - 1;
      }
    }

    method ReleaseAll(locked: bool)
      modifies this`remaining, gate`qInflight
      ensures remaining == if locked then 0 else old(remaining)
      ensures gate.qInflight + old(remaining) == old(gate.qInflight) + remaining
    {
      if remaining > 0 && locked {
        gate.qInflight := gate.qInflight - remaining;
        remaining := 0;
      }
    }
  }
}
