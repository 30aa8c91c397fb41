/** The bounded queues, the prepare slot and the workers' liveness while the process runs. */
module PipelineQueues {
  import opened Prelude
  import L = LedgerBook
  import G = RateGate
  import P = Pacing
  import opened Pipeline
  import opened PipelinePlaces

  function Busy(p: Prep): nat { One(!p.PIdle? && !p.PDead?) }

  predicate Ordered(heap: seq<Waiting>, order: nat)
  {
    && (forall i | 0 <= i < |heap| :: heap[i].order < order)
    && forall i, j | 0 <= i < j < |heap| :: heap[i].order != heap[j].order
  }

  /** The slot is free, or the prepare worker has it, or the prepared queue stands for it. */
  predicate Slotted(s: Sys)
  {
    && One(s.flags.slot) + Busy(s.at.prep) + |s.at.preparedQ| <= 1
    && (!s.flags.stopping ==> One(s.flags.slot) + Busy(s.at.prep) + |s.at.preparedQ| == 1)
  }

  predicate Bounded(s: Sys)
  {
    && |s.at.sourceQ| <= SOURCE_QUEUE_CAPACITY && |s.at.completionQ| <= COMPLETION_QUEUE_CAPACITY
    && Ordered(s.at.heap, s.flags.order)
  }

  /** No worker is dead while the process runs, and only a task that can be cancelled is doomed. */
  predicate Alive(s: Sys)
  {
    && (!s.flags.stopping ==> !s.at.prep.PDead? && !s.at.auth.ADead? && !s.at.comp.CDead? && !s.flags.settled)
    && (s.flags.authDoomed ==> Cancellable(s.at.auth))
    && (s.flags.compDoomed ==> s.at.comp.CPoll?)
  }

  predicate Empty(at: Places)
  {
    Gathered(at) && at.sourceQ == [] && at.heap == [] && at.preparedQ == [] && at.completionQ == []
  }

  /** After the shutdown nothing is held and no row is pending. */
  ghost predicate ShutDown(s: Sys)
  {
    s.flags.settled ==> s.flags.stopping && Empty(s.at) && forall id :: !L.IsPending(s.book.jobs, id)
  }

  ghost predicate Queues(s: Sys) { Slotted(s) && Bounded(s) && Alive(s) && ShutDown(s) }

  lemma OrderedPush(heap: seq<Waiting>, order: nat, due: real, fp: string)
    requires Ordered(heap, order)
    ensures Ordered(heap + [Waiting(due, order, fp)], order + 1)
  {
  }

  lemma OrderedDrop(heap: seq<Waiting>, order: nat, i: nat)
    requires Ordered(heap, order) && i < |heap|
    ensures Ordered(Drop(heap, i), order)
  {
  }

  lemma QueuesSource(s: Sys, e: SourceEvent)
    requires Queues(s) && !s.flags.settled
    ensures Queues(SourceStep(s, e))
  {
    hide Ordered, Drop, L.IsPending;
    match e
    case Pop(i) =>
      if i < |s.at.heap| {
        OrderedDrop(s.at.heap, s.flags.order, i);
      }
    case _ =>
  }

  lemma QueuesPrep(s: Sys, e: PrepEvent)
    requires Queues(s) && !s.flags.settled
    ensures Queues(PrepStep(s, e))
  {
    hide Ordered, L.IsPending, L.Finish, L.StartJob, Fail;
    var p := s.at.prep;
    if p.PPark? {
      OrderedPush(s.at.heap, s.flags.order, p.due, p.fp);
    }
    if p.PFlow? {
      OwnFail(s, p.job, L.SourceInvalid, "device_flow_invalid", NoRetry);
      OwnFail(s, p.job, L.TransportFailed, "device_flow_failed", Transient);
    }
  }

  /** The authorization task changes only where it is, clearing its doom. */
  lemma QueuesHands(s: Sys, t: Sys)
    requires Queues(s) && !s.flags.settled
    requires t.at == s.at.(auth := t.at.auth) && t.flags == s.flags.(authDoomed := t.flags.authDoomed)
    requires t.at.auth.ADead? ==> s.flags.stopping
    requires t.flags.authDoomed ==> Cancellable(t.at.auth)
    ensures Queues(t)
  {
    hide Ordered, L.IsPending;
  }

  lemma QueuesParked(s: Sys, t: Sys, status: L.JobStatus, reason: string, retry: Retry)
    requires Queues(s) && !s.flags.settled && HoldsJob(s.at.auth) && !s.flags.authDoomed
    requires t.at == s.at && t.flags == s.flags
    ensures Queues(Parked(Fail(t, s.at.auth.job, status, reason, retry), s.at.auth.job.fp))
  {
    hide Fail, Queues;
    OwnFail(t, s.at.auth.job, status, reason, retry);
    QueuesHands(s, Parked(Fail(t, s.at.auth.job, status, reason, retry), s.at.auth.job.fp));
  }

  lemma QueuesConfirm(s: Sys, o: Outcome)
    requires Queues(s) && !s.flags.settled && s.at.auth.AConfirm? && !s.flags.authDoomed
    ensures Queues(ConfirmStep(s, s.at.auth.job, s.at.auth.probe, o))
  {
    hide Fail, Verdict, Parked, Queues, G.Apply, G.Limit, P.Succeeded, P.Limited;
    var probe := s.at.auth.probe;
    if o.Authorized? {
      QueuesHands(s, ConfirmStep(s, s.at.auth.job, probe, o));
    } else {
      var (status, reason, retry) := Verdict(o);
      QueuesParked(s, Gate(s, G.CallLimit(probe)), status, reason, retry);
      QueuesParked(s, Gate(s, G.CallLimit(probe)).(pacer := P.Limited(s.pacer)), status, reason, retry);
      QueuesParked(s, Gate(s, G.CallShrug(probe)), status, reason, retry);
    }
  }

  lemma QueuesCancel(s: Sys)
    requires Queues(s) && !s.flags.settled && HoldsJob(s.at.auth)
    ensures Queues(AuthCancel(s))
  {
    hide Queues, G.Apply, L.Finish;
    QueuesHands(s, AuthCancel(s));
  }

  lemma QueuesPermit(s: Sys)
    requires Queues(s) && !s.flags.settled && s.at.auth.AGate? && !s.flags.authDoomed
    ensures Queues(PermitStep(s))
  {
    hide Queues, G.Apply, G.Ask, AuthCancel;
    var t := Gate(s, G.CallAsk(!s.flags.paused));
    QueuesHands(s, t);
    if G.Ask(s.gate.g, !s.flags.paused, s.clock).1.Refused? {
      QueuesCancel(t);
    } else {
      QueuesHands(s, PermitStep(s));
    }
  }

  lemma QueuesAuthMoves(s: Sys, e: AuthEvent)
    requires Queues(s) && !s.flags.settled && !s.flags.authDoomed
    requires e.TakePrepared? || e.PutCompletion? || e.AuthParks?
    ensures Queues(AuthStep(s, e))
  {
    hide Ordered, L.IsPending;
    if s.at.auth.APark? {
      OrderedPush(s.at.heap, s.flags.order, s.at.auth.due, s.at.auth.fp);
    }
  }

  lemma QueuesAuth(s: Sys, e: AuthEvent)
    requires Queues(s) && !s.flags.settled
    ensures Queues(AuthStep(s, e))
  {
    hide Fail, Queues, Parked, G.Apply, AuthCancel, PermitStep, ConfirmStep, L.HasImported, L.MarkStarted, L.Finish,
      P.Delay;
    var a := s.at.auth;
    DoomedFlag(s);
    if e.AuthCancelled? {
      if HoldsJob(a) && !a.ANew? && (s.flags.authDoomed || s.flags.stopping) {
        QueuesCancel(s);
      } else {
        QueuesHands(s, AuthStep(s, e));
      }
    } else if s.flags.authDoomed {
    } else if e.TakePrepared? || e.PutCompletion? || e.AuthParks? {
      QueuesAuthMoves(s, e);
    } else if e.Permit? && a.AGate? {
      QueuesPermit(s);
    } else if e.Confirmed? && a.AConfirm? {
      QueuesConfirm(s, e.o);
    } else if e.RefreshInvalid? && a.AFlow? {
      QueuesParked(s, Gate(s, G.CallShrug(a.probe)), L.SourceInvalid, "device_flow_invalid", NoRetry);
    } else if e.RefreshFailed? && a.AFlow? {
      QueuesParked(s, Gate(s, G.CallShrug(a.probe)), L.TransportFailed, "device_flow_refresh_failed", Transient);
    } else {
      QueuesHands(s, AuthStep(s, e));
    }
  }

  lemma DoomedFlag(s: Sys)
    requires Queues(s)
    ensures s.flags.authDoomed ==> Cancellable(s.at.auth)
    ensures !s.flags.stopping ==> !s.at.auth.ADead?
  {
  }

  lemma QueuesCompFails(s: Sys, status: L.JobStatus, reason: string, retry: Retry)
    requires Queues(s) && !s.flags.settled && !s.flags.compDoomed && CompHolds(s.at.comp)
    ensures Queues(CompParked(Fail(s, s.at.comp.job, status, reason, retry), s.at.comp.job.fp))
  {
    hide Ordered, L.IsPending, Fail;
    OwnFail(s, s.at.comp.job, status, reason, retry);
  }

  lemma QueuesComp(s: Sys, e: CompEvent)
    requires Queues(s) && !s.flags.settled
    ensures Queues(CompStep(s, e))
  {
    hide Ordered, L.IsPending, L.Finish, Fail, CompParked;
    var c := s.at.comp;
    if c.CPark? {
      OrderedPush(s.at.heap, s.flags.order, c.due, c.fp);
    }
    if (e.PollRefused? || e.PollFailed? || e.SinkMissing? || e.StoreFailed?) && CompHolds(c) && !s.flags.compDoomed {
      hide Queues;
      QueuesCompFails(s, L.TransportFailed, if e.PollFailed? then e.reason else "", Transient);
      QueuesCompFails(s, L.SinkFailed, "sink_unconfigured", NoRetry);
      QueuesCompFails(s, L.SinkFailed, "sink_failed", Transient);
      if e.PollRefused? {
        QueuesCompFails(s, RefusalOf(e.why).0, RefusalOf(e.why).1, NoRetry);
      }
    }
  }

  lemma QueuesSettled(s: Sys)
    requires Queues(s) && s.flags.stopping && Gathered(s.at)
    ensures Queues(Settled(s))
  {
    hide FinishAll;
    var now := s.clock.Floor;
    var book := FinishAll(FinishAll(s.book, s.at.preparedQ, now), s.at.completionQ, now);
    L.RecoveryLeavesNone(book, "shutdown_cancelled", now);
    forall id
      ensures !L.IsPending(Settled(s).book.jobs, id)
    {
    }
  }

  lemma QueuesControl(s: Sys, e: ControlEvent)
    requires Queues(s)
    ensures Queues(ControlStep(s, e))
  {
    hide Ordered, L.IsPending, L.Finish, L.StartJob, L.RecoverPending, L.Reopen, FinishAll, G.Apply, P.Make,
      ImportedStates,
      Settled;
    match e
    case Settle =>
      if s.flags.stopping && Gathered(s.at) {
        QueuesSettled(s);
      }
    case Boot(_, _, _) => NothingOrdered();
    case ImportElsewhere(fp, receipt) =>
      forall id
        ensures L.IsPending(ControlStep(s, e).book.jobs, id) ==> L.IsPending(s.book.jobs, id)
      {
        OneRowMore(s.book, fp, receipt, s.clock.Floor, id);
      }
    case _ =>
  }

  lemma NothingOrdered()
    ensures Ordered([], 0)
  {
  }

  lemma OneRowMore(b: L.Book, fp: string, receipt: string, now: int, id: nat)
    ensures L.IsPending(L.Finish(L.StartJob(b, fp), |b.jobs|, L.Imported, "imported", Some(receipt), now).jobs, id) ==>
              L.IsPending(b.jobs, id)
  {
    hide L.NextAttempt;
  }

  lemma QueuesStep(s: Sys, e: Event)
    requires Queues(s)
    ensures Queues(Step(s, e))
  {
    hide Queues, SourceStep, PrepStep, AuthStep, CompStep, ControlStep;
    if !s.flags.settled || e.EControl? {
      match e
      case ESource(x) => QueuesSource(s, x);
      case EPrep(x) => QueuesPrep(s, x);
      case EAuth(x) => QueuesAuth(s, x);
      case EComp(x) => QueuesComp(s, x);
      case EControl(x) => QueuesControl(s, x);
    }
  }

  /** The heap always has one first entry. */
  lemma {:induction false} HeapHasFirst(heap: seq<Waiting>, order: nat) returns (i: nat)
    requires heap != [] && Ordered(heap, order)
    ensures IsFirst(heap, i)
    decreases |heap|
  {
    var n := |heap| - 1;
    if n == 0 {
      i := 0;
    } else {
      var front := heap[..n];
      var k := HeapHasFirst(front, order);
      i := if heap[k].due < heap[n].due || (heap[k].due == heap[n].due && heap[k].order < heap[n].order) then k else n;
      forall j | 0 <= j < |heap| && j != i
        ensures heap[i].due < heap[j].due || (heap[i].due == heap[j].due && heap[i].order < heap[j].order)
      {
        if j < n && j != k {
          assert front[k].due < front[j].due || (front[k].due == front[j].due && front[k].order < front[j].order);
        }
      }
    }
  }
}
