/** The job rows of the pipeline: a pending row is held by exactly one place. */
module PipelineRows {
  import opened Prelude
  import L = LedgerBook
  import G = RateGate
  import P = Pacing
  import opened Pipeline
  import opened PipelinePlaces

  // ---------------------------------------------------------------- holders of a row

  function PrepId(p: Prep, id: nat): nat { One((p.PFlow? || p.PPut?) && p.job.id == id) }

  function AuthId(a: Auth, id: nat): nat { One(HoldsJob(a) && a.job.id == id) }

  function CompId(c: Comp, id: nat): nat { One(CompHolds(c) && c.job.id == id) }

  function QueueId(q: seq<Job>, id: nat): nat
    decreases |q|
  {
    if q == [] then 0 else One(q[0].id == id) + QueueId(q[1..], id)
  }

  lemma {:induction false} QueueIdPush(q: seq<Job>, x: Job, id: nat)
    ensures QueueId(q + [x], id) == QueueId(q, id) + One(x.id == id)
    decreases |q|
  {
    if q == [] {
      assert (q + [x])[1..] == [];
    } else {
      QueueIdPush(q[1..], x, id);
      assert (q + [x])[1..] == q[1..] + [x];
    }
  }

  /** How many places hold the row. */
  function Held(at: Places, id: nat): nat
  {
    PrepId(at.prep, id) + QueueId(at.preparedQ, id) + AuthId(at.auth, id) + QueueId(at.completionQ, id)
    + CompId(at.comp, id)
  }

  /** A held row is pending and held once; while the process runs, a pending row is held. */
  predicate RowHeld(s: Sys, id: nat)
  {
    && Held(s.at, id) <= One(L.IsPending(s.book.jobs, id))
    && (!s.flags.stopping ==> Held(s.at, id) == One(L.IsPending(s.book.jobs, id)))
  }

  // ---------------------------------------------------------------- what the ledger calls do to a row

  lemma FinishPends(b: L.Book, x: nat, status: L.JobStatus, reason: string, receipt: Option<string>, now: int, id: nat)
    ensures L.IsPending(L.Finish(b, x, status, reason, receipt, now).jobs, id) <==> L.IsPending(b.jobs, id) && id != x
  {
  }

  lemma StartPends(b: L.Book, fp: string, id: nat)
    ensures L.IsPending(L.StartJob(b, fp).jobs, id) <==> L.IsPending(b.jobs, id) || id == |b.jobs|
    ensures |L.StartJob(b, fp).jobs| == |b.jobs| + 1
  {
    hide L.NextAttempt;
  }

  lemma MarkPends(b: L.Book, x: nat, id: nat)
    ensures L.IsPending(L.MarkStarted(b, x).jobs, id) <==> L.IsPending(b.jobs, id)
  {
  }

  lemma FailBook(s: Sys, job: Job, status: L.JobStatus, reason: string, retry: Retry)
    ensures Fail(s, job, status, reason, retry).0.book == L.Finish(s.book, job.id, status, reason, None, s.clock.Floor)
    ensures Fail(s, job, status, reason, retry).0.at == s.at && Fail(s, job, status, reason, retry).0.flags == s.flags
  {
    hide L.Finish;
  }

  // ---------------------------------------------------------------- steps

  lemma RowSame(s: Sys, t: Sys, id: nat)
    requires RowHeld(s, id) && Held(t.at, id) == Held(s.at, id)
    requires L.IsPending(t.book.jobs, id) <==> L.IsPending(s.book.jobs, id)
    requires s.flags.stopping ==> t.flags.stopping
    ensures RowHeld(t, id)
  {
    hide Held, L.IsPending;
  }

  /** The row `x` is finished and its holder lets it go. */
  lemma RowDone(s: Sys, t: Sys, x: nat, id: nat)
    requires RowHeld(s, id) && Held(t.at, id) + One(x == id) == Held(s.at, id)
    requires L.IsPending(t.book.jobs, id) <==> L.IsPending(s.book.jobs, id) && id != x
    requires s.flags.stopping ==> t.flags.stopping
    ensures RowHeld(t, id)
  {
    hide Held, L.IsPending;
  }

  lemma RowSource(s: Sys, e: SourceEvent, id: nat)
    requires RowHeld(s, id)
    ensures RowHeld(SourceStep(s, e), id)
  {
    hide RowHeld, QueueId, PrepId, AuthId, CompId, IsFirst, L.IsPending;
    RowSame(s, SourceStep(s, e), id);
  }

  lemma RowPrepFails(s: Sys, e: PrepEvent, id: nat)
    requires RowHeld(s, id) && (e.FlowInvalid? || e.FlowFailed?) && s.at.prep.PFlow?
    ensures RowHeld(PrepStep(s, e), id)
  {
    hide RowHeld, QueueId, AuthId, CompId, L.IsPending, L.Finish, Fail;
    var job := s.at.prep.job;
    FailBook(s, job, L.SourceInvalid, "device_flow_invalid", NoRetry);
    FailBook(s, job, L.TransportFailed, "device_flow_failed", Transient);
    FinishPends(s.book, job.id, L.SourceInvalid, "device_flow_invalid", None, s.clock.Floor, id);
    FinishPends(s.book, job.id, L.TransportFailed, "device_flow_failed", None, s.clock.Floor, id);
    RowDone(s, PrepStep(s, e), job.id, id);
  }

  lemma RowPrep(s: Sys, e: PrepEvent, id: nat)
    requires RowHeld(s, id)
    ensures RowHeld(PrepStep(s, e), id)
  {
    hide QueueId, AuthId, CompId, L.IsPending, L.Finish, L.StartJob;
    var p, t := s.at.prep, PrepStep(s, e);
    if (e.FlowInvalid? || e.FlowFailed?) && p.PFlow? {
      RowPrepFails(s, e, id);
    } else if e.TakeSource? && p.PWant? && s.at.sourceQ != [] {
      StartPends(s.book, s.at.sourceQ[0], id);
      if id == |s.book.jobs| {
        PastTheEnd(s.book.jobs, id);
      }
    } else if e.PrepCancelled? && s.flags.stopping && (p.PFlow? || p.PPut?) {
      hide RowHeld;
      FinishPends(s.book, p.job.id, L.Cancelled, "shutdown_cancelled", None, s.clock.Floor, id);
      RowDone(s, t, p.job.id, id);
    } else {
      hide RowHeld;
      if p.PPut? {
        QueueIdPush(s.at.preparedQ, p.job, id);
      }
      RowSame(s, t, id);
    }
  }

  /** The authorization task finishes its row and holds none afterwards. */
  lemma RowAuthDone(s: Sys, t: Sys, status: L.JobStatus, reason: string, id: nat)
    requires RowHeld(s, id) && HoldsJob(s.at.auth) && !HoldsJob(t.at.auth)
    requires t.at == s.at.(auth := t.at.auth) && t.flags.stopping == s.flags.stopping
    requires t.book == L.Finish(s.book, s.at.auth.job.id, status, reason, None, s.clock.Floor)
    ensures RowHeld(t, id)
  {
    hide RowHeld, QueueId, PrepId, CompId, L.IsPending, L.Finish;
    FinishPends(s.book, s.at.auth.job.id, status, reason, None, s.clock.Floor, id);
    RowDone(s, t, s.at.auth.job.id, id);
  }

  lemma RowParked(s: Sys, t: Sys, status: L.JobStatus, reason: string, retry: Retry, id: nat)
    requires RowHeld(s, id) && HoldsJob(s.at.auth)
    requires t.at == s.at && t.book == s.book && t.flags == s.flags && t.clock == s.clock
    ensures RowHeld(Parked(Fail(t, s.at.auth.job, status, reason, retry), s.at.auth.job.fp), id)
  {
    hide RowHeld, L.Finish, Fail;
    FailBook(t, s.at.auth.job, status, reason, retry);
    RowAuthDone(s, Parked(Fail(t, s.at.auth.job, status, reason, retry), s.at.auth.job.fp), status, reason, id);
  }

  lemma RowConfirm(s: Sys, o: Outcome, id: nat)
    requires RowHeld(s, id) && s.at.auth.AConfirm?
    ensures RowHeld(ConfirmStep(s, s.at.auth.job, s.at.auth.probe, o), id)
  {
    hide RowHeld, QueueId, PrepId, CompId, L.IsPending, Fail, Verdict, Parked, G.Apply, G.Limit, P.Succeeded, P.Limited;
    var job, probe := s.at.auth.job, s.at.auth.probe;
    if o.Authorized? {
      RowSame(s, ConfirmStep(s, job, probe, o), id);
    } else {
      var (status, reason, retry) := Verdict(o);
      RowParked(s, Gate(s, G.CallLimit(probe)), status, reason, retry, id);
      RowParked(s, Gate(s, G.CallLimit(probe)).(pacer := P.Limited(s.pacer)), status, reason, retry, id);
      RowParked(s, Gate(s, G.CallShrug(probe)), status, reason, retry, id);
    }
  }

  lemma RowCancel(s: Sys, id: nat)
    requires RowHeld(s, id) && HoldsJob(s.at.auth)
    ensures RowHeld(AuthCancel(s), id)
  {
    hide RowHeld, G.Apply, L.Finish;
    RowAuthDone(s, AuthCancel(s), L.Cancelled, CancelReason(s), id);
  }

  lemma RowImported(s: Sys, probe: Option<nat>, id: nat)
    requires RowHeld(s, id) && HoldsJob(s.at.auth)
    ensures RowHeld(AlreadyImported(s, s.at.auth.job, probe), id)
  {
    hide RowHeld, G.Apply, L.Finish;
    RowAuthDone(s, AlreadyImported(s, s.at.auth.job, probe), L.Cancelled, "already_imported", id);
  }

  lemma RowPermit(s: Sys, id: nat)
    requires RowHeld(s, id) && s.at.auth.AGate?
    ensures RowHeld(PermitStep(s), id)
  {
    hide RowHeld, QueueId, PrepId, CompId, L.IsPending, G.Apply, G.Ask, AuthCancel;
    var t := Gate(s, G.CallAsk(!s.flags.paused));
    RowSame(s, t, id);
    RowCancel(t, id);
    if !G.Ask(s.gate.g, !s.flags.paused, s.clock).1.Refused? {
      RowSame(s, PermitStep(s), id);
    }
  }

  lemma RowAuthMoves(s: Sys, e: AuthEvent, id: nat)
    requires RowHeld(s, id) && !s.flags.authDoomed
    requires e.TakePrepared? || e.Begin? || e.Paced? || e.Start? || e.PutCompletion? || e.AuthParks?
    ensures RowHeld(AuthStep(s, e), id)
  {
    hide RowHeld, PrepId, CompId, L.IsPending, L.MarkStarted, L.HasImported, P.Delay, AlreadyImported;
    var a, t := s.at.auth, AuthStep(s, e);
    if HoldsJob(a) {
      RowImported(s, ProbeOf(a), id);
      MarkPends(s.book, a.job.id, id);
      QueueIdPush(s.at.completionQ, a.job, id);
    }
    if !(HoldsJob(a) && L.HasImported(s.book.jobs, a.job.fp)) || !(e.Paced? || e.Start?) {
      RowSame(s, t, id);
    }
  }

  lemma RowAuthEnds(s: Sys, id: nat)
    requires RowHeld(s, id)
    ensures RowHeld(AuthStep(s, AuthCancelled), id)
  {
    hide QueueId, PrepId, CompId, L.IsPending, AuthCancel;
    if HoldsJob(s.at.auth) {
      RowCancel(s, id);
    }
  }

  lemma RowAuth(s: Sys, e: AuthEvent, id: nat)
    requires RowHeld(s, id)
    ensures RowHeld(AuthStep(s, e), id)
  {
    hide RowHeld, Fail, ConfirmStep, PermitStep, AuthCancel, AlreadyImported, Parked, Push, SetState, G.Apply,
      L.HasImported;
    var a := s.at.auth;
    if e.AuthCancelled? {
      RowAuthEnds(s, id);
    } else if !s.flags.authDoomed {
      match e
      case Permit =>
        if a.AGate? {
          RowPermit(s, id);
        }
      case Confirmed(o) =>
        if a.AConfirm? {
          RowConfirm(s, o, id);
        }
      case RefreshInvalid =>
        if a.AFlow? {
          RowParked(s, Gate(s, G.CallShrug(a.probe)), L.SourceInvalid, "device_flow_invalid", NoRetry, id);
        }
      case RefreshFailed =>
        if a.AFlow? {
          RowParked(s, Gate(s, G.CallShrug(a.probe)), L.TransportFailed, "device_flow_refresh_failed", Transient, id);
        }
      case TakePrepared => RowAuthMoves(s, e, id);
      case PutCompletion => RowAuthMoves(s, e, id);
      case AuthParks => RowAuthMoves(s, e, id);
      case Begin => RowAuthMoves(s, e, id);
      case Paced => RowAuthMoves(s, e, id);
      case Start => RowAuthMoves(s, e, id);
      case AuthCancelled =>
    }
  }

  lemma RowCompDone(s: Sys, t: Sys, status: L.JobStatus, reason: string, receipt: Option<string>, id: nat)
    requires RowHeld(s, id) && CompHolds(s.at.comp) && !CompHolds(t.at.comp)
    requires t.at == s.at.(comp := t.at.comp) && t.flags.stopping == s.flags.stopping
    requires t.book == L.Finish(s.book, s.at.comp.job.id, status, reason, receipt, s.clock.Floor)
    ensures RowHeld(t, id)
  {
    hide RowHeld, QueueId, PrepId, AuthId, L.IsPending, L.Finish;
    FinishPends(s.book, s.at.comp.job.id, status, reason, receipt, s.clock.Floor, id);
    RowDone(s, t, s.at.comp.job.id, id);
  }

  lemma RowCompFails(s: Sys, status: L.JobStatus, reason: string, retry: Retry, id: nat)
    requires RowHeld(s, id) && CompHolds(s.at.comp)
    ensures RowHeld(CompParked(Fail(s, s.at.comp.job, status, reason, retry), s.at.comp.job.fp), id)
  {
    hide RowHeld, L.Finish, Fail;
    FailBook(s, s.at.comp.job, status, reason, retry);
    RowCompDone(s, CompParked(Fail(s, s.at.comp.job, status, reason, retry), s.at.comp.job.fp), status, reason, None,
      id);
  }

  lemma RowCompEnds(s: Sys, id: nat)
    requires RowHeld(s, id)
    ensures RowHeld(CompStep(s, CompCancelled), id)
  {
    hide QueueId, PrepId, AuthId, L.IsPending, L.Finish;
    var c, t := s.at.comp, CompStep(s, CompCancelled);
    if c.CPoll? && (s.flags.compDoomed || s.flags.stopping) {
      hide RowHeld;
      RowCompDone(s, t, L.Cancelled, CancelReason(s), None, id);
    }
  }

  lemma RowStoreCancelled(s: Sys, id: nat)
    requires RowHeld(s, id)
    ensures RowHeld(CompStep(s, StoreCancelled), id)
  {
    hide QueueId, PrepId, AuthId, L.IsPending;
  }

  lemma RowComp(s: Sys, e: CompEvent, id: nat)
    requires RowHeld(s, id)
    ensures RowHeld(CompStep(s, e), id)
  {
    hide RowHeld, CompParked, Fail, PrepId, AuthId, L.IsPending, L.Finish;
    var c, t := s.at.comp, CompStep(s, e);
    if e.CompCancelled? {
      RowCompEnds(s, id);
    } else if !s.flags.compDoomed {
      match e
      case PollRefused(why) =>
        if c.CPoll? {
          RowCompFails(s, RefusalOf(why).0, RefusalOf(why).1, NoRetry, id);
        }
      case PollFailed(reason) =>
        if c.CPoll? {
          RowCompFails(s, L.TransportFailed, reason, Transient, id);
        }
      case SinkMissing =>
        if c.CPoll? {
          RowCompFails(s, L.SinkFailed, "sink_unconfigured", NoRetry, id);
        }
      case StoreFailed =>
        if c.CStore? {
          RowCompFails(s, L.SinkFailed, "sink_failed", Transient, id);
        }
      case Commit =>
        if c.CStored? {
          RowCompDone(s, t, L.Imported, "imported", Some(c.receipt), id);
        }
      case TakeCompletion => RowSame(s, t, id);
      case CompParks => RowSame(s, t, id);
      case BeginPoll => RowSame(s, t, id);
      case Polled => RowSame(s, t, id);
      case StoreCancelled => RowStoreCancelled(s, id);
      case Sunk(_) => RowSame(s, t, id);
      case CompCancelled =>
    }
  }

  lemma NoneHeld(at: Places, id: nat)
    requires at.preparedQ == [] && at.completionQ == [] && !HoldsJob(at.auth) && !CompHolds(at.comp)
    requires !at.prep.PFlow? && !at.prep.PPut?
    ensures Held(at, id) == 0
  {
  }

  lemma RowControl(s: Sys, e: ControlEvent, id: nat)
    requires RowHeld(s, id)
    ensures RowHeld(ControlStep(s, e), id)
  {
    hide QueueId, PrepId, AuthId, CompId, L.IsPending, L.Finish, L.StartJob, L.Reopen, L.RecoverPending, FinishAll,
      G.Apply,
      P.Make, ImportedStates;
    var t := ControlStep(s, e);
    match e
    case Boot(_, interval, start) =>
      L.RecoveryLeavesNone(L.Reopen(s.book), "recovered_pending", start.Floor);
      NoneHeld(t.at, id);
      PastTheEnd(t.book.jobs, id);
    case Settle =>
      if s.flags.stopping && !s.flags.interrupted && s.gate.g.closed && Gathered(s.at) {
        NoneHeld(t.at, id);
      }
    case ImportElsewhere(fp, receipt) =>
      StartPends(s.book, fp, id);
      FinishPends(L.StartJob(s.book, fp), |s.book.jobs|, L.Imported, "imported", Some(receipt), s.clock.Floor, id);
      PastTheEnd(s.book.jobs, id);
      RowSame(s, t, id);
    case _ => RowSame(s, t, id);
  }

  lemma PastTheEnd(jobs: seq<L.Row>, id: nat)
    ensures id >= |jobs| ==> !L.IsPending(jobs, id)
  {
  }

  lemma RowStep(s: Sys, e: Event, id: nat)
    requires RowHeld(s, id)
    ensures RowHeld(Step(s, e), id)
  {
    hide RowHeld, SourceStep, PrepStep, AuthStep, CompStep, ControlStep;
    match e
    case ESource(x) => RowSource(s, x, id);
    case EPrep(x) => RowPrep(s, x, id);
    case EAuth(x) => RowAuth(s, x, id);
    case EComp(x) => RowComp(s, x, id);
    case EControl(x) => RowControl(s, x, id);
  }
}
