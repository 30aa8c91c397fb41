/** Single ownership: where a source is, and that its state says so. */
module PipelinePlaces {
  import opened Prelude
  import L = LedgerBook
  import G = RateGate
  import P = Pacing
  import opened Pipeline

  // ---------------------------------------------------------------- counting

  function One(b: bool): nat { if b then 1 else 0 }

  function Count(q: seq<string>, fp: string): nat
    decreases |q|
  {
    if q == [] then 0 else One(q[0] == fp) + Count(q[1..], fp)
  }

  function JobCount(q: seq<Job>, fp: string): nat
    decreases |q|
  {
    if q == [] then 0 else One(q[0].fp == fp) + JobCount(q[1..], fp)
  }

  function HeapCount(q: seq<Waiting>, fp: string): nat
    decreases |q|
  {
    if q == [] then 0 else One(q[0].fp == fp) + HeapCount(q[1..], fp)
  }

  lemma {:induction false} CountConcat(q: seq<string>, r: seq<string>, fp: string)
    ensures Count(q + r, fp) == Count(q, fp) + Count(r, fp)
    decreases |q|
  {
    if q == [] {
      assert q + r == r;
    } else {
      CountConcat(q[1..], r, fp);
      assert (q + r)[1..] == q[1..] + r;
    }
  }

  lemma CountPush(q: seq<string>, x: string, fp: string)
    ensures Count(q + [x], fp) == Count(q, fp) + One(x == fp)
  {
    CountConcat(q, [x], fp);
    assert [x][1..] == [];
  }

  lemma CountDrop(q: seq<string>, i: nat, fp: string)
    requires i < |q|
    ensures Count(q, fp) == Count(Drop(q, i), fp) + One(q[i] == fp)
  {
    assert q == q[..i] + [q[i]] + q[i + 1..];
    CountPush(q[..i], q[i], fp);
    CountConcat(q[..i] + [q[i]], q[i + 1..], fp);
    CountConcat(q[..i], q[i + 1..], fp);
  }

  lemma {:induction false} JobPush(q: seq<Job>, x: Job, fp: string)
    ensures JobCount(q + [x], fp) == JobCount(q, fp) + One(x.fp == fp)
    decreases |q|
  {
    if q == [] {
      assert (q + [x])[1..] == [];
    } else {
      JobPush(q[1..], x, fp);
      assert (q + [x])[1..] == q[1..] + [x];
    }
  }

  lemma {:induction false} HeapConcat(q: seq<Waiting>, r: seq<Waiting>, fp: string)
    ensures HeapCount(q + r, fp) == HeapCount(q, fp) + HeapCount(r, fp)
    decreases |q|
  {
    if q == [] {
      assert q + r == r;
    } else {
      HeapConcat(q[1..], r, fp);
      assert (q + r)[1..] == q[1..] + r;
    }
  }

  lemma HeapPush(q: seq<Waiting>, x: Waiting, fp: string)
    ensures HeapCount(q + [x], fp) == HeapCount(q, fp) + One(x.fp == fp)
  {
    HeapConcat(q, [x], fp);
    assert [x][1..] == [];
  }

  lemma HeapDrop(q: seq<Waiting>, i: nat, fp: string)
    requires i < |q|
    ensures HeapCount(q, fp) == HeapCount(Drop(q, i), fp) + One(q[i].fp == fp)
  {
    assert q == q[..i] + [q[i]] + q[i + 1..];
    HeapPush(q[..i], q[i], fp);
    HeapConcat(q[..i] + [q[i]], q[i + 1..], fp);
    HeapConcat(q[..i], q[i + 1..], fp);
  }

  // ---------------------------------------------------------------- places by state

  predicate Live(k: PState) { k.Queued? || k.Prepared? || k.Active? || k.RetryWaiting? }

  function PrepIn(p: Prep, fp: string, k: PState): nat
  {
    match p
    case PFlow(job) => One(job.fp == fp && k == Queued)
    case PPut(job) => One(job.fp == fp && k == Prepared)
    case PPark(x, _) => One(x == fp && k == RetryWaiting)
    case PIdle => 0
    case PWant => 0
    case PDead => 0
  }

  function AuthIn(a: Auth, fp: string, k: PState): nat
  {
    if !HoldsJob(a) then One(a.APark? && a.fp == fp && k == RetryWaiting)
    else One(a.job.fp == fp && k == if a.AConfirm? || a.APut? then Active else Prepared)
  }

  predicate CompHolds(c: Comp) { c.CNew? || c.CPoll? || c.CStore? || c.CStored? }

  function CompIn(c: Comp, fp: string, k: PState): nat
  {
    if CompHolds(c) then One(c.job.fp == fp && k == Active) else One(c.CPark? && c.fp == fp && k == RetryWaiting)
  }

  function HandIn(h: Option<string>, fp: string): nat { One(h == Some(fp)) }

  function QueueIn(at: Places, fp: string, k: PState): nat
  {
    match k
    case Queued => Count(at.admits, fp) + Count(at.sourceQ, fp) + HandIn(at.retryHand, fp)
    case Prepared => JobCount(at.preparedQ, fp)
    case Active => JobCount(at.completionQ, fp)
    case RetryWaiting => HeapCount(at.heap, fp)
    case Imported => 0
    case Terminal => 0
  }

  /** How often the source is in a place that goes with the state. */
  function Spot(at: Places, fp: string, k: PState): nat
  {
    PrepIn(at.prep, fp, k) + AuthIn(at.auth, fp, k) + CompIn(at.comp, fp, k) + QueueIn(at, fp, k)
  }

  /** A source is in a place only as its state says, and there once; while the process runs, a source
      in a live state is in a place. */
  ghost predicate Own(s: Sys, fp: string)
  {
    forall k: PState ::
      && Spot(s.at, fp, k) <= One(Live(k) && InState(s.mem, fp, k))
      && (!s.flags.stopping ==> Spot(s.at, fp, k) == One(Live(k) && InState(s.mem, fp, k)))
  }

  // ---------------------------------------------------------------- moves

  /** From `before` to `after` the source `x` left a place of state `from` for one of state `to`; a
      state that is not live stands for no place. */
  ghost predicate Moved(before: Places, after: Places, x: string, from: PState, to: PState, fp: string)
  {
    && (x == fp && Live(from) ==> Spot(before, fp, from) >= 1)
    && forall k: PState ::
         Spot(after, fp, k) + One(x == fp && k == from && Live(k))
         == Spot(before, fp, k) + One(x == fp && k == to && Live(k))
  }

  lemma OwnAt(s: Sys, fp: string, k: PState)
    requires Own(s, fp) && Spot(s.at, fp, k) >= 1
    ensures InState(s.mem, fp, k)
  {
    hide Spot;
  }

  predicate LiveIn(mem: Memory, fp: string) { fp in mem.states && Live(mem.states[fp]) }

  lemma OwnMoved(s: Sys, t: Sys, x: string, from: PState, to: PState, fp: string)
    requires Own(s, fp) && Moved(s.at, t.at, x, from, to, fp) && t.flags.stopping == s.flags.stopping
    requires x != fp ==> forall k :: InState(t.mem, fp, k) <==> InState(s.mem, fp, k)
    requires x == fp && !Live(from) ==> !LiveIn(s.mem, fp)
    requires x == fp && Live(to) ==> InState(t.mem, fp, to)
    requires x == fp && !Live(to) ==> s.flags.stopping || !LiveIn(t.mem, fp)
    ensures Own(t, fp)
  {
    hide Spot;
    forall k: PState
      ensures Spot(t.at, fp, k) <= One(Live(k) && InState(t.mem, fp, k))
      ensures !s.flags.stopping ==> Spot(t.at, fp, k) == One(Live(k) && InState(t.mem, fp, k))
    {
      assert Spot(s.at, fp, k) <= One(Live(k) && InState(s.mem, fp, k));
      assert Spot(s.at, fp, from) <= One(Live(from) && InState(s.mem, fp, from));
      assert Spot(t.at, fp, from) + One(x == fp && Live(from))
          == Spot(s.at, fp, from) + One(x == fp && from == to && Live(from));
      assert Spot(t.at, fp, k) + One(x == fp && k == from && Live(k))
          == Spot(s.at, fp, k) + One(x == fp && k == to && Live(k));
      if x == fp && from != to && Live(from) {
        assert InState(s.mem, fp, from);
      }
    }
  }

  lemma OwnSame(s: Sys, t: Sys, fp: string)
    requires Own(s, fp) && t.at == s.at && t.mem.states == s.mem.states
    requires s.flags.stopping ==> t.flags.stopping
    ensures Own(t, fp)
  {
    hide Spot;
  }

  // ---------------------------------------------------------------- admission and retries

  lemma OwnAdmit(s: Sys, x: string, fp: string)
    requires Own(s, fp) && x !in s.mem.states
    ensures Own(SourceStep(s, Admit(x)), fp)
  {
    hide Count, JobCount, HeapCount, Own, PrepIn, AuthIn, CompIn, HandIn;
    CountPush(s.at.admits, x, fp);
    OwnMoved(s, SourceStep(s, Admit(x)), x, Imported, Queued, fp);
  }

  lemma OwnAdmitPut(s: Sys, i: nat, fp: string)
    requires Own(s, fp) && i < |s.at.admits| && |s.at.sourceQ| < SOURCE_QUEUE_CAPACITY
    ensures Own(SourceStep(s, AdmitPut(i)), fp)
  {
    hide Count, JobCount, HeapCount, Drop, PrepIn, AuthIn, CompIn;
    var x, t := s.at.admits[i], SourceStep(s, AdmitPut(i));
    CountDrop(s.at.admits, i, fp);
    CountPush(s.at.sourceQ, x, fp);
    hide Own;
    if x == fp {
      OwnAt(s, fp, Queued);
    }
    OwnMoved(s, t, x, Queued, Queued, fp);
  }

  lemma OwnAdmitCancelled(s: Sys, i: nat, fp: string)
    requires Own(s, fp) && i < |s.at.admits|
    ensures Own(SourceStep(s, AdmitCancelled(i)), fp)
  {
    hide Count, JobCount, HeapCount, Drop, PrepIn, AuthIn, CompIn;
    var x, t := s.at.admits[i], SourceStep(s, AdmitCancelled(i));
    CountDrop(s.at.admits, i, fp);
    hide Own;
    if x == fp {
      OwnAt(s, fp, Queued);
    }
    OwnMoved(s, t, x, Queued, Imported, fp);
  }

  lemma OwnPop(s: Sys, i: nat, fp: string)
    requires Own(s, fp)
    requires !s.flags.stopping && s.at.retryHand.None? && IsFirst(s.at.heap, i) && s.at.heap[i].due <= s.clock
    ensures Own(SourceStep(s, Pop(i)), fp)
  {
    assert i < |s.at.heap|;
    hide Count, JobCount, HeapCount, Drop, IsFirst, PrepIn, AuthIn, CompIn;
    var x, t := s.at.heap[i].fp, SourceStep(s, Pop(i));
    HeapDrop(s.at.heap, i, fp);
    hide Own;
    if x == fp {
      OwnAt(s, fp, RetryWaiting);
    }
    if InState(s.mem, x, RetryWaiting) {
      OwnMoved(s, t, x, RetryWaiting, Queued, fp);
    } else {
      OwnMoved(s, t, x, RetryWaiting, Imported, fp);
    }
  }

  lemma OwnRetryPut(s: Sys, fp: string)
    requires Own(s, fp) && s.at.retryHand.Some? && |s.at.sourceQ| < SOURCE_QUEUE_CAPACITY
    ensures Own(SourceStep(s, RetryPut), fp)
  {
    hide Count, JobCount, HeapCount, PrepIn, AuthIn, CompIn, Own;
    var x := s.at.retryHand.value;
    CountPush(s.at.sourceQ, x, fp);
    if x == fp {
      OwnAt(s, fp, Queued);
    }
    OwnMoved(s, SourceStep(s, RetryPut), x, Queued, Queued, fp);
  }

  lemma OwnRetryDrop(s: Sys, fp: string)
    requires Own(s, fp) && s.at.retryHand.Some? && s.flags.stopping
    ensures Own(SourceStep(s, RetryCancelled), fp)
  {
    hide Count, JobCount, HeapCount, PrepIn, AuthIn, CompIn, Own;
    OwnMoved(s, SourceStep(s, RetryCancelled), s.at.retryHand.value, Queued, Imported, fp);
  }

  lemma OwnSource(s: Sys, e: SourceEvent, fp: string)
    requires Own(s, fp)
    ensures Own(SourceStep(s, e), fp)
  {
    hide Own;
    match e
    case Admit(x) =>
      if x !in s.mem.states {
        OwnAdmit(s, x, fp);
      }
    case AdmitPut(i) =>
      if i < |s.at.admits| && |s.at.sourceQ| < SOURCE_QUEUE_CAPACITY {
        OwnAdmitPut(s, i, fp);
      }
    case AdmitCancelled(i) =>
      if i < |s.at.admits| {
        OwnAdmitCancelled(s, i, fp);
      }
    case Pop(i) =>
      if !s.flags.stopping && s.at.retryHand.None? && IsFirst(s.at.heap, i) && s.at.heap[i].due <= s.clock {
        OwnPop(s, i, fp);
      }
    case RetryPut =>
      if s.at.retryHand.Some? && |s.at.sourceQ| < SOURCE_QUEUE_CAPACITY {
        OwnRetryPut(s, fp);
      }
    case RetryCancelled =>
      if s.flags.stopping && s.at.retryHand.Some? {
        OwnRetryDrop(s, fp);
      } else {
        OwnSame(s, SourceStep(s, RetryCancelled), fp);
      }
  }

  // ---------------------------------------------------------------- a worker's hands

  lemma OwnFail(s: Sys, job: Job, status: L.JobStatus, reason: string, retry: Retry)
    ensures var (t, due) := Fail(s, job, status, reason, retry);
            && t.at == s.at && t.flags == s.flags && t.gate == s.gate && t.pacer == s.pacer && t.clock == s.clock
            && t.mem.states == s.mem.states[job.fp := if due.Some? then RetryWaiting else Terminal]
            && (retry.NoRetry? ==> due.None?)
  {
    hide L.Finish;
  }

  /** The state of `x` is set to `to`, or kept where that says the same, or where it no longer matters. */
  ghost predicate Sets(s: Sys, t: Sys, x: string, from: PState, to: PState)
  {
    && t.flags.stopping == s.flags.stopping
    && (|| t.mem.states == s.mem.states[x := to]
        || (t.mem.states == s.mem.states && (to == from || (s.flags.stopping && !Live(to)))))
  }

  lemma OwnSets(s: Sys, t: Sys, x: string, from: PState, to: PState, fp: string)
    requires Own(s, fp) && Live(from) && Sets(s, t, x, from, to) && Moved(s.at, t.at, x, from, to, fp)
    ensures Own(t, fp)
  {
    hide Own, Spot, Moved;
    if x == fp {
      MovedFrom(s.at, t.at, x, from, to);
      OwnAt(s, fp, from);
    }
    OwnMoved(s, t, x, from, to, fp);
  }

  lemma MovedFrom(before: Places, after: Places, x: string, from: PState, to: PState)
    requires Moved(before, after, x, from, to, x) && Live(from)
    ensures Spot(before, x, from) >= 1
  {
    hide Spot;
  }

  predicate PrepHolds(p: Prep, x: string, k: PState)
  {
    match k
    case Queued => p.PFlow? && p.job.fp == x
    case Prepared => p.PPut? && p.job.fp == x
    case Active => false
    case RetryWaiting => p.PPark? && p.fp == x
    case Imported => p.PIdle? || p.PDead?
    case Terminal => p.PIdle? || p.PDead?
  }

  lemma PrepTo(s: Sys, t: Sys, x: string, from: PState, to: PState, fp: string)
    requires Own(s, fp) && Live(from) && Sets(s, t, x, from, to)
    requires t.at == s.at.(prep := t.at.prep) && PrepHolds(s.at.prep, x, from) && PrepHolds(t.at.prep, x, to)
    ensures Own(t, fp)
  {
    hide Count, JobCount, HeapCount, AuthIn, CompIn, QueueIn, Own, Sets;
    assert Moved(s.at, t.at, x, from, to, fp) by {
      forall k
        ensures QueueIn(s.at, fp, k) == QueueIn(t.at, fp, k)
      {
        SameQueues(s.at, t.at, fp, k);
      }
    }
    OwnSets(s, t, x, from, to, fp);
  }

  lemma SameQueues(before: Places, after: Places, fp: string, k: PState)
    requires after == before.(prep := after.prep, auth := after.auth, comp := after.comp)
    ensures QueueIn(after, fp, k) == QueueIn(before, fp, k)
  {
    hide Count, JobCount, HeapCount, HandIn;
  }

  predicate AuthHolds(a: Auth, x: string, k: PState)
  {
    match k
    case Queued => false
    case Prepared => (a.ANew? || a.APace? || a.AGate? || a.AFlow?) && a.job.fp == x
    case Active => (a.AConfirm? || a.APut?) && a.job.fp == x
    case RetryWaiting => a.APark? && a.fp == x
    case Imported => a.AIdle? || a.ADead?
    case Terminal => a.AIdle? || a.ADead?
  }

  lemma AuthTo(s: Sys, t: Sys, x: string, from: PState, to: PState, fp: string)
    requires Own(s, fp) && Live(from) && Sets(s, t, x, from, to)
    requires t.at == s.at.(auth := t.at.auth) && AuthHolds(s.at.auth, x, from) && AuthHolds(t.at.auth, x, to)
    ensures Own(t, fp)
  {
    hide Count, JobCount, HeapCount, PrepIn, CompIn, QueueIn, Own, Sets;
    assert Moved(s.at, t.at, x, from, to, fp) by {
      forall k
        ensures QueueIn(s.at, fp, k) == QueueIn(t.at, fp, k)
      {
        SameQueues(s.at, t.at, fp, k);
      }
    }
    OwnSets(s, t, x, from, to, fp);
  }

  predicate CompHas(c: Comp, x: string, k: PState)
  {
    match k
    case Queued => false
    case Prepared => false
    case Active => CompHolds(c) && c.job.fp == x
    case RetryWaiting => c.CPark? && c.fp == x
    case Imported => c.CIdle? || c.CDead?
    case Terminal => c.CIdle? || c.CDead?
  }

  lemma CompTo(s: Sys, t: Sys, x: string, from: PState, to: PState, fp: string)
    requires Own(s, fp) && Live(from) && Sets(s, t, x, from, to)
    requires t.at == s.at.(comp := t.at.comp) && CompHas(s.at.comp, x, from) && CompHas(t.at.comp, x, to)
    ensures Own(t, fp)
  {
    hide Count, JobCount, HeapCount, PrepIn, AuthIn, QueueIn, Own, Sets;
    assert Moved(s.at, t.at, x, from, to, fp) by {
      forall k
        ensures QueueIn(s.at, fp, k) == QueueIn(t.at, fp, k)
      {
        SameQueues(s.at, t.at, fp, k);
      }
    }
    OwnSets(s, t, x, from, to, fp);
  }

  // ---------------------------------------------------------------- the prepare worker

  /** Taking from a queue and putting on one. */
  lemma OwnTakeSource(s: Sys, fp: string)
    requires Own(s, fp) && s.at.prep.PWant? && s.at.sourceQ != []
    ensures Own(PrepStep(s, TakeSource), fp)
  {
    hide JobCount, HeapCount, AuthIn, CompIn, Own, HandIn, L.StartJob;
    OwnSets(s, PrepStep(s, TakeSource), s.at.sourceQ[0], Queued, Queued, fp);
  }

  lemma OwnPutPrepared(s: Sys, fp: string)
    requires Own(s, fp) && s.at.prep.PPut? && |s.at.preparedQ| < PREPARED_QUEUE_CAPACITY
    ensures Own(PrepStep(s, PutPrepared), fp)
  {
    hide Count, JobCount, HeapCount, AuthIn, CompIn, Own, HandIn;
    JobPush(s.at.preparedQ, s.at.prep.job, fp);
    OwnSets(s, PrepStep(s, PutPrepared), s.at.prep.job.fp, Prepared, Prepared, fp);
  }

  lemma OwnPrepPark(s: Sys, fp: string)
    requires Own(s, fp) && s.at.prep.PPark?
    ensures Own(PrepStep(s, PrepParks), fp)
  {
    hide Count, JobCount, HeapCount, AuthIn, CompIn, Own, HandIn;
    HeapPush(s.at.heap, Waiting(s.at.prep.due, s.flags.order, s.at.prep.fp), fp);
    OwnSets(s, PrepStep(s, PrepParks), s.at.prep.fp, RetryWaiting, RetryWaiting, fp);
  }

  lemma OwnPrepFails(s: Sys, e: PrepEvent, fp: string)
    requires Own(s, fp) && (e.FlowInvalid? || e.FlowFailed?)
    ensures Own(PrepStep(s, e), fp)
  {
    hide Fail, Own;
    if s.at.prep.PFlow? {
      var job := s.at.prep.job;
      OwnFail(s, job, L.SourceInvalid, "device_flow_invalid", NoRetry);
      OwnFail(s, job, L.TransportFailed, "device_flow_failed", Transient);
      var t := PrepStep(s, e);
      PrepTo(s, t, job.fp, Queued, if t.at.prep.PPark? then RetryWaiting else Terminal, fp);
    }
  }

  lemma OwnPrepCancelled(s: Sys, fp: string)
    requires Own(s, fp) && s.flags.stopping
    ensures Own(PrepStep(s, PrepCancelled), fp)
  {
    hide Own, L.Finish;
    var p, t := s.at.prep, PrepStep(s, PrepCancelled);
    if p.PFlow? {
      PrepTo(s, t, p.job.fp, Queued, Imported, fp);
    } else if p.PPut? {
      PrepTo(s, t, p.job.fp, Prepared, Imported, fp);
    } else if p.PPark? {
      PrepTo(s, t, p.fp, RetryWaiting, Imported, fp);
    } else {
      OwnSameSpots(s, t, fp);
    }
  }

  /** Nothing that holds a source changes. */
  lemma OwnSameSpots(s: Sys, t: Sys, fp: string)
    requires Own(s, fp) && t.mem.states == s.mem.states && (s.flags.stopping ==> t.flags.stopping)
    requires t.at == s.at.(prep := t.at.prep, auth := t.at.auth, comp := t.at.comp)
    requires forall k :: PrepIn(t.at.prep, fp, k) == PrepIn(s.at.prep, fp, k)
    requires forall k :: AuthIn(t.at.auth, fp, k) == AuthIn(s.at.auth, fp, k)
    requires forall k :: CompIn(t.at.comp, fp, k) == CompIn(s.at.comp, fp, k)
    ensures Own(t, fp)
  {
    hide PrepIn, AuthIn, CompIn, QueueIn;
    forall k
      ensures Spot(t.at, fp, k) == Spot(s.at, fp, k)
    {
      SameQueues(s.at, t.at, fp, k);
    }
  }

  lemma OwnPrep(s: Sys, e: PrepEvent, fp: string)
    requires Own(s, fp)
    ensures Own(PrepStep(s, e), fp)
  {
    hide Own;
    match e
    case TakeSlot => OwnSameSpots(s, PrepStep(s, e), fp);
    case TakeSource =>
      if s.at.prep.PWant? && s.at.sourceQ != [] {
        OwnTakeSource(s, fp);
      }
    case FlowOk =>
      if s.at.prep.PFlow? {
        PrepTo(s, PrepStep(s, e), s.at.prep.job.fp, Queued, Prepared, fp);
      }
    case FlowInvalid => OwnPrepFails(s, e, fp);
    case FlowFailed => OwnPrepFails(s, e, fp);
    case PutPrepared =>
      if s.at.prep.PPut? && |s.at.preparedQ| < PREPARED_QUEUE_CAPACITY {
        OwnPutPrepared(s, fp);
      }
    case PrepParks =>
      if s.at.prep.PPark? {
        OwnPrepPark(s, fp);
      }
    case PrepCancelled =>
      if s.flags.stopping {
        OwnPrepCancelled(s, fp);
      }
  }

  // ---------------------------------------------------------------- the authorization task

  /** The state that goes with an authorization task at work. */
  function StateOf(a: Auth): PState { if a.AConfirm? || a.APut? then Active else Prepared }

  lemma OwnParked(s: Sys, t: Sys, status: L.JobStatus, reason: string, retry: Retry, fp: string)
    requires Own(s, fp) && HoldsJob(s.at.auth)
    requires t.at == s.at && t.mem == s.mem && t.flags == s.flags
    ensures Own(Parked(Fail(t, s.at.auth.job, status, reason, retry), s.at.auth.job.fp), fp)
  {
    hide Own, Fail;
    var job := s.at.auth.job;
    OwnFail(t, job, status, reason, retry);
    var u := Parked(Fail(t, job, status, reason, retry), job.fp);
    AuthTo(s, u, job.fp, StateOf(s.at.auth), if u.at.auth.APark? then RetryWaiting else Terminal, fp);
  }

  lemma OwnConfirm(s: Sys, o: Outcome, fp: string)
    requires Own(s, fp) && s.at.auth.AConfirm?
    ensures Own(ConfirmStep(s, s.at.auth.job, s.at.auth.probe, o), fp)
  {
    hide Own, Fail, Verdict, Parked, G.Apply, G.Limit, P.Succeeded, P.Limited;
    var job, probe := s.at.auth.job, s.at.auth.probe;
    if o.Authorized? {
      AuthTo(s, ConfirmStep(s, job, probe, o), job.fp, Active, Active, fp);
    } else {
      var (status, reason, retry) := Verdict(o);
      OwnParked(s, Gate(s, G.CallLimit(probe)), status, reason, retry, fp);
      OwnParked(s, Gate(s, G.CallLimit(probe)).(pacer := P.Limited(s.pacer)), status, reason, retry, fp);
      OwnParked(s, Gate(s, G.CallShrug(probe)), status, reason, retry, fp);
    }
  }

  lemma OwnCancel(s: Sys, fp: string)
    requires Own(s, fp) && HoldsJob(s.at.auth)
    ensures Own(AuthCancel(s), fp)
  {
    hide Own, G.Apply, L.Finish;
    AuthTo(s, AuthCancel(s), s.at.auth.job.fp, StateOf(s.at.auth),
      if s.flags.stopping then Imported else RetryWaiting, fp);
  }

  lemma OwnImported(s: Sys, probe: Option<nat>, fp: string)
    requires Own(s, fp) && HoldsJob(s.at.auth)
    ensures Own(AlreadyImported(s, s.at.auth.job, probe), fp)
  {
    hide Own, G.Apply, L.Finish;
    AuthTo(s, AlreadyImported(s, s.at.auth.job, probe), s.at.auth.job.fp, StateOf(s.at.auth), Imported, fp);
  }

  lemma OwnPermit(s: Sys, fp: string)
    requires Own(s, fp) && s.at.auth.AGate?
    ensures Own(PermitStep(s), fp)
  {
    hide Own, G.Apply, G.Ask, AuthCancel;
    var t := Gate(s, G.CallAsk(!s.flags.paused));
    OwnSame(s, t, fp);
    if G.Ask(s.gate.g, !s.flags.paused, s.clock).1.Refused? {
      OwnCancel(t, fp);
    } else if !G.Ask(s.gate.g, !s.flags.paused, s.clock).1.Wait? {
      AuthTo(s, PermitStep(s), s.at.auth.job.fp, Prepared, Prepared, fp);
    }
  }

  lemma OwnTakePrepared(s: Sys, fp: string)
    requires Own(s, fp) && s.at.auth.AIdle? && s.at.preparedQ != [] && !s.flags.authDoomed
    ensures Own(AuthStep(s, TakePrepared), fp)
  {
    hide Count, HeapCount, PrepIn, CompIn, Own, HandIn;
    OwnSets(s, AuthStep(s, TakePrepared), s.at.preparedQ[0].fp, Prepared, Prepared, fp);
  }

  lemma OwnPutCompletion(s: Sys, fp: string)
    requires Own(s, fp) && s.at.auth.APut? && |s.at.completionQ| < COMPLETION_QUEUE_CAPACITY && !s.flags.authDoomed
    ensures Own(AuthStep(s, PutCompletion), fp)
  {
    hide Count, JobCount, HeapCount, PrepIn, CompIn, Own, HandIn;
    JobPush(s.at.completionQ, s.at.auth.job, fp);
    OwnSets(s, AuthStep(s, PutCompletion), s.at.auth.job.fp, Active, Active, fp);
  }

  lemma OwnAuthPark(s: Sys, fp: string)
    requires Own(s, fp) && s.at.auth.APark? && !s.flags.authDoomed
    ensures Own(AuthStep(s, AuthParks), fp)
  {
    hide Count, JobCount, HeapCount, PrepIn, CompIn, Own, HandIn;
    HeapPush(s.at.heap, Waiting(s.at.auth.due, s.flags.order, s.at.auth.fp), fp);
    OwnSets(s, AuthStep(s, AuthParks), s.at.auth.fp, RetryWaiting, RetryWaiting, fp);
  }

  lemma OwnAuthMoves(s: Sys, e: AuthEvent, fp: string)
    requires Own(s, fp) && (e.Begin? || e.Paced? || e.Start?) && !s.flags.authDoomed
    ensures Own(AuthStep(s, e), fp)
  {
    hide AlreadyImported, L.MarkStarted, P.Delay, L.HasImported, Own;
    var a, t := s.at.auth, AuthStep(s, e);
    if HoldsJob(a) {
      var x := a.job.fp;
      OwnImported(s, ProbeOf(a), fp);
      if e.Begin? && a.ANew? {
        AuthTo(s, t, x, Prepared, Prepared, fp);
      } else if L.HasImported(s.book.jobs, x) {
      } else if e.Paced? && a.APace? && s.clock >= a.wake && !s.flags.paused {
        AuthTo(s, t, x, Prepared, Prepared, fp);
      } else if e.Start? && a.AFlow? && !s.flags.paused {
        AuthTo(s, t, x, Prepared, Active, fp);
      }
    }
  }

  lemma OwnAuthEnds(s: Sys, fp: string)
    requires Own(s, fp)
    ensures Own(AuthStep(s, AuthCancelled), fp)
  {
    hide AuthCancel, Own;
    var a, t := s.at.auth, AuthStep(s, AuthCancelled);
    if HoldsJob(a) {
      OwnCancel(s, fp);
    }
    if s.flags.stopping && a.ANew? {
      AuthTo(s, t, a.job.fp, Prepared, Imported, fp);
    } else if s.flags.stopping && a.APark? {
      AuthTo(s, t, a.fp, RetryWaiting, Imported, fp);
    } else if s.flags.stopping && !HoldsJob(a) {
      OwnSameSpots(s, t, fp);
    }
  }

  lemma OwnAuth(s: Sys, e: AuthEvent, fp: string)
    requires Own(s, fp)
    ensures Own(AuthStep(s, e), fp)
  {
    hide Own, Fail, ConfirmStep, PermitStep, AuthCancel, AlreadyImported, Parked, Push, SetState, G.Apply,
      L.HasImported;
    var a := s.at.auth;
    if e.AuthCancelled? {
      OwnAuthEnds(s, fp);
    } else if !s.flags.authDoomed {
      match e
      case TakePrepared =>
        if a.AIdle? && s.at.preparedQ != [] {
          OwnTakePrepared(s, fp);
        }
      case PutCompletion =>
        if a.APut? && |s.at.completionQ| < COMPLETION_QUEUE_CAPACITY {
          OwnPutCompletion(s, fp);
        }
      case AuthParks =>
        if a.APark? {
          OwnAuthPark(s, fp);
        }
      case Permit =>
        if a.AGate? {
          OwnPermit(s, fp);
        }
      case Confirmed(o) =>
        if a.AConfirm? {
          OwnConfirm(s, o, fp);
        }
      case RefreshInvalid =>
        if a.AFlow? {
          OwnParked(s, Gate(s, G.CallShrug(a.probe)), L.SourceInvalid, "device_flow_invalid", NoRetry, fp);
        }
      case RefreshFailed =>
        if a.AFlow? {
          OwnParked(s, Gate(s, G.CallShrug(a.probe)), L.TransportFailed, "device_flow_refresh_failed", Transient, fp);
        }
      case Begin => OwnAuthMoves(s, e, fp);
      case Paced => OwnAuthMoves(s, e, fp);
      case Start => OwnAuthMoves(s, e, fp);
      case AuthCancelled =>
    }
  }

  // ---------------------------------------------------------------- the completion task

  lemma OwnCompFails(s: Sys, status: L.JobStatus, reason: string, retry: Retry, fp: string)
    requires Own(s, fp) && (s.at.comp.CPoll? || s.at.comp.CStore?)
    ensures Own(CompParked(Fail(s, s.at.comp.job, status, reason, retry), s.at.comp.job.fp), fp)
  {
    hide Own, Fail;
    var job := s.at.comp.job;
    OwnFail(s, job, status, reason, retry);
    var u := CompParked(Fail(s, job, status, reason, retry), job.fp);
    CompTo(s, u, job.fp, Active, if u.at.comp.CPark? then RetryWaiting else Terminal, fp);
  }

  lemma OwnTakeCompletion(s: Sys, fp: string)
    requires Own(s, fp) && s.at.comp.CIdle? && s.at.completionQ != [] && !s.flags.compDoomed
    ensures Own(CompStep(s, TakeCompletion), fp)
  {
    hide Count, HeapCount, PrepIn, AuthIn, Own, HandIn;
    OwnSets(s, CompStep(s, TakeCompletion), s.at.completionQ[0].fp, Active, Active, fp);
  }

  lemma OwnCompPark(s: Sys, fp: string)
    requires Own(s, fp) && s.at.comp.CPark? && !s.flags.compDoomed
    ensures Own(CompStep(s, CompParks), fp)
  {
    hide Count, JobCount, HeapCount, PrepIn, AuthIn, Own, HandIn;
    HeapPush(s.at.heap, Waiting(s.at.comp.due, s.flags.order, s.at.comp.fp), fp);
    OwnSets(s, CompStep(s, CompParks), s.at.comp.fp, RetryWaiting, RetryWaiting, fp);
  }

  lemma OwnCompMoves(s: Sys, e: CompEvent, fp: string)
    requires Own(s, fp) && (e.BeginPoll? || e.Polled? || e.StoreCancelled? || e.Sunk?)
    ensures Own(CompStep(s, e), fp)
  {
    hide Own;
    var t := CompStep(s, e);
    if CompHolds(s.at.comp) {
      CompTo(s, t, s.at.comp.job.fp, Active, if CompHolds(t.at.comp) then Active else Imported, fp);
    }
  }

  lemma OwnCommit(s: Sys, fp: string)
    requires Own(s, fp) && s.at.comp.CStored?
    ensures var c := s.at.comp; Own(CommitStep(s, c.job, c.receipt, c.cancelled), fp)
  {
    hide Own, L.Finish;
    var c := s.at.comp;
    CompTo(s, CommitStep(s, c.job, c.receipt, c.cancelled), c.job.fp, Active, Imported, fp);
  }

  lemma OwnCompEnds(s: Sys, fp: string)
    requires Own(s, fp)
    ensures Own(CompStep(s, CompCancelled), fp)
  {
    hide Own, L.Finish;
    var c, t := s.at.comp, CompStep(s, CompCancelled);
    if c.CPoll? && (s.flags.compDoomed || s.flags.stopping) {
      CompTo(s, t, c.job.fp, Active, if s.flags.stopping then Imported else RetryWaiting, fp);
    } else if s.flags.stopping && c.CNew? {
      CompTo(s, t, c.job.fp, Active, Imported, fp);
    } else if s.flags.stopping && c.CPark? {
      CompTo(s, t, c.fp, RetryWaiting, Imported, fp);
    } else if s.flags.stopping && !CompHolds(c) {
      OwnSameSpots(s, t, fp);
    }
  }

  lemma OwnComp(s: Sys, e: CompEvent, fp: string)
    requires Own(s, fp)
    ensures Own(CompStep(s, e), fp)
  {
    hide Own, CompParked, Fail, CommitStep, Push;
    var c := s.at.comp;
    if e.CompCancelled? {
      OwnCompEnds(s, fp);
    } else if !s.flags.compDoomed {
      match e
      case TakeCompletion =>
        if c.CIdle? && s.at.completionQ != [] {
          OwnTakeCompletion(s, fp);
        }
      case CompParks =>
        if c.CPark? {
          OwnCompPark(s, fp);
        }
      case Commit =>
        if c.CStored? {
          OwnCommit(s, fp);
        }
      case PollRefused(why) =>
        if c.CPoll? {
          OwnCompFails(s, RefusalOf(why).0, RefusalOf(why).1, NoRetry, fp);
        }
      case PollFailed(reason) =>
        if c.CPoll? {
          OwnCompFails(s, L.TransportFailed, reason, Transient, fp);
        }
      case SinkMissing =>
        if c.CPoll? {
          OwnCompFails(s, L.SinkFailed, "sink_unconfigured", NoRetry, fp);
        }
      case StoreFailed =>
        if c.CStore? {
          OwnCompFails(s, L.SinkFailed, "sink_failed", Transient, fp);
        }
      case BeginPoll => OwnCompMoves(s, e, fp);
      case Polled => OwnCompMoves(s, e, fp);
      case StoreCancelled => OwnCompMoves(s, e, fp);
      case Sunk(_) => OwnCompMoves(s, e, fp);
      case CompCancelled =>
    }
  }

  // ---------------------------------------------------------------- control and runs

  lemma OwnBooted(book: L.Book, past: Past, base: real, interval: real, start: real, fp: string)
    ensures Own(Booted(book, past, base, interval, start), fp)
  {
    hide L.RecoverPending, L.Reopen, P.Make, L.WasImported;
  }

  lemma OwnSettled(s: Sys, fp: string)
    requires Own(s, fp) && s.flags.stopping && Gathered(s.at)
    ensures Own(Settled(s), fp)
  {
    hide L.RecoverPending, FinishAll;
  }

  lemma OwnControl(s: Sys, e: ControlEvent, fp: string)
    requires Own(s, fp)
    ensures Own(ControlStep(s, e), fp)
  {
    hide Own, L.Finish, L.StartJob, Booted, Settled, G.Apply;
    if e.Boot? {
      OwnBooted(s.book, CutBy(s), e.base, e.interval, e.start, fp);
    } else if e.Settle? {
      if s.flags.stopping && Gathered(s.at) {
        OwnSettled(s, fp);
      }
    } else {
      OwnSame(s, ControlStep(s, e), fp);
    }
  }

  lemma OwnStep(s: Sys, e: Event, fp: string)
    requires Own(s, fp)
    ensures Own(Step(s, e), fp)
  {
    hide Own, SourceStep, PrepStep, AuthStep, CompStep, ControlStep;
    match e
    case ESource(x) => OwnSource(s, x, fp);
    case EPrep(x) => OwnPrep(s, x, fp);
    case EAuth(x) => OwnAuth(s, x, fp);
    case EComp(x) => OwnComp(s, x, fp);
    case EControl(x) => OwnControl(s, x, fp);
  }

  lemma {:induction false} OwnRun(s: Sys, es: seq<Event>, fp: string)
    requires Own(s, fp)
    ensures Own(Run(s, es), fp)
    decreases |es|
  {
    if es != [] {
      hide Own, Step;
      OwnStep(s, es[0], fp);
      OwnRun(Step(s, es[0]), es[1..], fp);
    }
  }
}
