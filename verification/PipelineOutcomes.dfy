/** What becomes of a job: its row, its source's state and when it is tried again. */
module PipelineOutcomes {
  import opened Prelude
  import L = LedgerBook
  import G = RateGate
  import P = Pacing
  import opened Pipeline
  import opened PipelinePlaces
  import opened PipelineRows
  import opened PipelineImports
  import opened PipelineTheorems

  /** The row is finished so, and no other row has changed. */
  predicate RowEnds(s: Sys, t: Sys, id: nat, status: L.JobStatus, reason: string)
  {
    && |t.book.jobs| == |s.book.jobs| && id < |s.book.jobs|
    && t.book.jobs == s.book.jobs[id := s.book.jobs[id].(end := L.Done(status, s.clock.Floor, reason, None))]
  }

  /** The source waits for a retry in `delay` seconds; its counter has gone up if that counts. */
  predicate TriedAgain(s: Sys, t: Sys, fp: string, delay: real, counts: bool)
  {
    && InState(t.mem, fp, RetryWaiting)
    && Get(t.mem.retries, fp) == Get(s.mem.retries, fp) + One(counts)
    && (t.at.prep == PPark(fp, s.clock + delay) || t.at.auth == APark(fp, s.clock + delay)
        || t.at.comp == CPark(fp, s.clock + delay))
  }

  /** A transient failure: tried again after 5, 15 and 30 seconds, and given up at the fourth. */
  predicate Slipped(s: Sys, t: Sys, fp: string)
  {
    match Get(s.mem.retries, fp)
    case 0 => TriedAgain(s, t, fp, 5.0, true)
    case 1 => TriedAgain(s, t, fp, 15.0, true)
    case 2 => TriedAgain(s, t, fp, 30.0, true)
    case _ => InState(t.mem, fp, Terminal)
  }

  lemma FinishEnds(s: Sys, id: nat, status: L.JobStatus, reason: string)
    requires L.IsPending(s.book.jobs, id)
    ensures RowEnds(s, FinishRow(s, id, status, reason), id, status, reason)
    ensures status != L.Imported ==> FinishRow(s, id, status, reason).book.stock == s.book.stock
  {
  }

  lemma FailEnds(s: Sys, job: Job, status: L.JobStatus, reason: string, retry: Retry)
    requires L.IsPending(s.book.jobs, job.id) && status != L.Imported
    ensures RowEnds(s, Fail(s, job, status, reason, retry).0, job.id, status, reason)
  {
    hide L.Finish, Fail;
    FailBook(s, job, status, reason, retry);
    FinishEnds(s, job.id, status, reason);
  }

  /** What a failure that does not count, one that does, and a final one come to, before the task parks. */
  lemma FailMemory(s: Sys, job: Job, status: L.JobStatus, reason: string, retry: Retry)
    ensures var (t, due) := Fail(s, job, status, reason, retry);
            var n := Get(s.mem.retries, job.fp);
            match retry {
              case NoRetry => due.None? && InState(t.mem, job.fp, Terminal) && t.mem.retries == s.mem.retries
              case RateLimited =>
                due == Some(s.clock) && InState(t.mem, job.fp, RetryWaiting) && t.mem.retries == s.mem.retries
              case Transient =>
                if n <= 2 then
                  && due == Some(s.clock + if n == 0 then 5.0 else if n == 1 then 15.0 else 30.0)
                  && InState(t.mem, job.fp, RetryWaiting) && Get(t.mem.retries, job.fp) == n + 1
                else due.None? && InState(t.mem, job.fp, Terminal)
            }
  {
    hide L.Finish;
  }

  // ---------------------------------------------------------------- the confirmation

  predicate Confirming(s: Sys) { s.at.auth.AConfirm? && L.IsPending(s.book.jobs, s.at.auth.job.id) }

  function Outcomes(s: Sys, o: Outcome): Sys
    requires s.at.auth.AConfirm?
  {
    ConfirmStep(s, s.at.auth.job, s.at.auth.probe, o)
  }

  predicate Flaky(o: Outcome)
  {
    || o.TimedOut? || o.TransportError? || o.BrowserError?
    || (o.Reported? && o.reason in {"browser_error", "confirmation_timeout", "challenge_required", "unknown_page"})
  }

  lemma ParkedFail(s: Sys, t: Sys, status: L.JobStatus, reason: string, retry: Retry)
    requires HoldsJob(s.at.auth) && L.IsPending(s.book.jobs, s.at.auth.job.id) && status != L.Imported
    requires t.at == s.at && t.mem == s.mem && t.book == s.book && t.clock == s.clock
    ensures var u := Parked(Fail(t, s.at.auth.job, status, reason, retry), s.at.auth.job.fp);
            var fp := s.at.auth.job.fp;
            && RowEnds(s, u, s.at.auth.job.id, status, reason)
            && (retry.Transient? ==> Slipped(s, u, fp))
            && (retry.NoRetry? ==> InState(u.mem, fp, Terminal) && u.at.auth.AIdle? && u.mem.retries == s.mem.retries)
  {
    hide L.Finish, Fail;
    FailEnds(t, s.at.auth.job, status, reason, retry);
    FailMemory(t, s.at.auth.job, status, reason, retry);
  }

  /** A flaky outcome counts as a transient failure; its row says what happened. */
  lemma AfterFlaky(s: Sys, o: Outcome)
    requires Confirming(s) && Flaky(o)
    ensures var t := Outcomes(s, o);
            && Slipped(s, t, s.at.auth.job.fp)
            && (o.TimedOut? ==> RowEnds(s, t, s.at.auth.job.id, L.TimedOut, "confirmation_timeout"))
            && (o.TransportError? ==>
                  RowEnds(s, t, s.at.auth.job.id, L.TransportFailed, "authorization_transport_failed"))
            && (o.BrowserError? ==> RowEnds(s, t, s.at.auth.job.id, L.NeedsInteraction, "browser_error"))
            && (o.Reported? ==>
                  RowEnds(s, t, s.at.auth.job.id,
                          if o.reason == "confirmation_timeout" then L.TimedOut
                          else if o.needsBrowser then L.NeedsBrowser else L.NeedsInteraction, o.reason))
  {
    hide L.Finish, Fail, Parked, G.Apply, Slipped, RowEnds;
    var (status, reason, retry) := Verdict(o);
    ParkedFail(s, Gate(s, G.CallShrug(s.at.auth.probe)), status, reason, retry);
  }

  // ---------------------------------------------------------------- the row tells all

  /** What the text of a finished row says about trying its source again. */
  function Policy(status: L.JobStatus, reason: string): Retry
  {
    match status
    case TransportFailed => Transient
    case TimedOut => Transient
    case SinkFailed => if reason == "sink_failed" then Transient else NoRetry
    case NeedsBrowser => if Flaky(Reported(true, reason)) then Transient else NoRetry
    case NeedsInteraction =>
      if reason == "rate_limited" then RateLimited
      else if Flaky(Reported(false, reason)) then Transient else NoRetry
    case _ => NoRetry
  }

  /** What becomes of the source of a row that ends so. */
  predicate Disposed(s: Sys, t: Sys, fp: string, status: L.JobStatus, reason: string)
  {
    if status == L.Imported || (status == L.Cancelled && reason == "already_imported") then
      InState(t.mem, fp, Imported)
    else if status == L.Cancelled then
      if s.flags.stopping then reason == "shutdown_cancelled" && t.mem == s.mem
      else reason == "operator_cancelled" && TriedAgain(s, t, fp, 60.0, false)
    else
      match Policy(status, reason)
      case NoRetry => InState(t.mem, fp, Terminal)
      case RateLimited => TriedAgain(s, t, fp, 0.0, false)
      case Transient => Slipped(s, t, fp)
  }

  /** The row is pending still; or it has ended, and its source is disposed of as it says. */
  predicate Told(s: Sys, t: Sys, id: nat)
  {
    || L.IsPending(t.book.jobs, id)
    || (&& id < |t.book.jobs| && t.book.jobs[id].end.Done?
        && var row := t.book.jobs[id]; Disposed(s, t, row.source, row.end.status, row.end.reason))
  }

  lemma SameTold(s: Sys, t: Sys, id: nat)
    requires L.IsPending(s.book.jobs, id) && t.book == s.book
    ensures Told(s, t, id)
  {
  }

  lemma FinishTold(
    s: Sys, t: Sys, job: Job, status: L.JobStatus, reason: string, receipt: Option<string>, now: int, id: nat)
    requires L.IsPending(s.book.jobs, id) && NamedJob(s.book.jobs, job)
    requires t.book == L.Finish(s.book, job.id, status, reason, receipt, now)
    requires Disposed(s, t, job.fp, status, reason)
    ensures Told(s, t, id)
  {
    hide Disposed;
  }

  lemma FailTold(s: Sys, t: Sys, u: Sys, job: Job, status: L.JobStatus, reason: string, id: nat)
    requires L.IsPending(s.book.jobs, id) && NamedJob(s.book.jobs, job) && !status.Imported? && !status.Cancelled?
    requires t.mem == s.mem && t.book == s.book && t.clock == s.clock
    requires var (r, due) := Fail(t, job, status, reason, Policy(status, reason));
             && u.mem == r.mem && u.book == r.book
             && (due.Some? ==> u.at.prep == PPark(job.fp, due.value) || u.at.auth == APark(job.fp, due.value)
                               || u.at.comp == CPark(job.fp, due.value))
    ensures Told(s, u, id)
  {
    hide L.Finish, Fail, Policy, L.IsPending, NamedJob, Told;
    FailBook(t, job, status, reason, Policy(status, reason));
    FailMemory(t, job, status, reason, Policy(status, reason));
    assert Disposed(s, u, job.fp, status, reason);
    FinishTold(s, u, job, status, reason, None, s.clock.Floor, id);
  }

  lemma TellsPrep(s: Sys, e: PrepEvent, id: nat)
    requires L.IsPending(s.book.jobs, id) && Named(s.book.jobs, s.at)
    ensures Told(s, PrepStep(s, e), id)
  {
    hide L.IsPending, L.Finish, L.StartJob, Fail, Told, NamedJob, NamedQueue;
    var p, t := s.at.prep, PrepStep(s, e);
    if e.FlowInvalid? && p.PFlow? {
      OwnFail(s, p.job, L.SourceInvalid, "device_flow_invalid", NoRetry);
      FailTold(s, s, t, p.job, L.SourceInvalid, "device_flow_invalid", id);
    } else if e.FlowFailed? && p.PFlow? {
      FailTold(s, s, t, p.job, L.TransportFailed, "device_flow_failed", id);
    } else if e.TakeSource? && p.PWant? && s.at.sourceQ != [] {
      StartPends(s.book, s.at.sourceQ[0], id);
      PendingTold(s, t, id);
    } else if e.PrepCancelled? && s.flags.stopping && (p.PFlow? || p.PPut?) {
      FinishTold(s, t, p.job, L.Cancelled, "shutdown_cancelled", None, s.clock.Floor, id);
    } else {
      SameTold(s, t, id);
    }
  }

  lemma PendingTold(s: Sys, t: Sys, id: nat)
    requires L.IsPending(t.book.jobs, id)
    ensures Told(s, t, id)
  {
  }

  lemma ParkedTold(s: Sys, t: Sys, status: L.JobStatus, reason: string, id: nat)
    requires L.IsPending(s.book.jobs, id) && HoldsJob(s.at.auth) && NamedJob(s.book.jobs, s.at.auth.job)
    requires t.mem == s.mem && t.book == s.book && t.clock == s.clock && !status.Imported? && !status.Cancelled?
    ensures Told(s, Parked(Fail(t, s.at.auth.job, status, reason, Policy(status, reason)), s.at.auth.job.fp), id)
  {
    hide L.IsPending, Fail, Told, NamedJob, Policy;
    var job := s.at.auth.job;
    FailTold(s, t, Parked(Fail(t, job, status, reason, Policy(status, reason)), job.fp), job, status, reason, id);
  }

  lemma VerdictPolicy(o: Outcome)
    requires !o.Authorized?
    ensures var (status, reason, retry) := Verdict(o);
            retry == Policy(status, reason) && !status.Imported? && !status.Cancelled?
  {
  }

  lemma TellsConfirm(s: Sys, o: Outcome, id: nat)
    requires L.IsPending(s.book.jobs, id) && s.at.auth.AConfirm? && NamedJob(s.book.jobs, s.at.auth.job)
    ensures Told(s, ConfirmStep(s, s.at.auth.job, s.at.auth.probe, o), id)
  {
    hide L.IsPending, Fail, Told, NamedJob, Policy, Verdict, Parked, G.Apply, G.Limit, P.Succeeded, P.Limited;
    var job, probe := s.at.auth.job, s.at.auth.probe;
    if o.Authorized? {
      SameTold(s, ConfirmStep(s, job, probe, o), id);
    } else {
      var (status, reason, retry) := Verdict(o);
      VerdictPolicy(o);
      ParkedTold(s, Gate(s, G.CallLimit(probe)), status, reason, id);
      ParkedTold(s, Gate(s, G.CallLimit(probe)).(pacer := P.Limited(s.pacer)), status, reason, id);
      ParkedTold(s, Gate(s, G.CallShrug(probe)), status, reason, id);
    }
  }

  lemma TellsCancel(s: Sys, t: Sys, id: nat)
    requires L.IsPending(s.book.jobs, id) && HoldsJob(s.at.auth) && NamedJob(s.book.jobs, s.at.auth.job)
    requires t == s.(gate := t.gate)
    ensures Told(s, AuthCancel(t), id)
  {
    hide L.IsPending, L.Finish, Told, NamedJob, G.Apply;
    FinishTold(s, AuthCancel(t), s.at.auth.job, L.Cancelled, CancelReason(s), None, s.clock.Floor, id);
  }

  lemma TellsImported(s: Sys, probe: Option<nat>, id: nat)
    requires L.IsPending(s.book.jobs, id) && HoldsJob(s.at.auth) && NamedJob(s.book.jobs, s.at.auth.job)
    ensures Told(s, AlreadyImported(s, s.at.auth.job, probe), id)
  {
    hide L.IsPending, L.Finish, Told, NamedJob, G.Apply;
    FinishTold(s, AlreadyImported(s, s.at.auth.job, probe), s.at.auth.job, L.Cancelled, "already_imported", None,
      s.clock.Floor, id);
  }

  lemma TellsPermit(s: Sys, id: nat)
    requires L.IsPending(s.book.jobs, id) && s.at.auth.AGate? && NamedJob(s.book.jobs, s.at.auth.job)
    ensures Told(s, PermitStep(s), id)
  {
    hide L.IsPending, Told, NamedJob, G.Apply, G.Ask, AuthCancel;
    if G.Ask(s.gate.g, !s.flags.paused, s.clock).1.Refused? {
      TellsCancel(s, Gate(s, G.CallAsk(!s.flags.paused)), id);
    } else {
      SameTold(s, PermitStep(s), id);
    }
  }

  lemma TellsAuth(s: Sys, e: AuthEvent, id: nat)
    requires L.IsPending(s.book.jobs, id) && (HoldsJob(s.at.auth) ==> NamedJob(s.book.jobs, s.at.auth.job))
    ensures Told(s, AuthStep(s, e), id)
  {
    hide L.IsPending, Told, NamedJob, Fail, G.Apply, L.HasImported, L.MarkStarted, P.Delay, ConfirmStep, PermitStep,
      AuthCancel, AlreadyImported, Parked;
    var a, t := s.at.auth, AuthStep(s, e);
    SameTold(s, s, id);
    if HoldsJob(a) {
      TellsCancel(s, s, id);
      TellsImported(s, ProbeOf(a), id);
    }
    if e.Permit? && a.AGate? {
      TellsPermit(s, id);
    } else if e.Confirmed? && a.AConfirm? {
      TellsConfirm(s, e.o, id);
    } else if e.RefreshInvalid? && a.AFlow? {
      ParkedTold(s, Gate(s, G.CallShrug(a.probe)), L.SourceInvalid, "device_flow_invalid", id);
    } else if e.RefreshFailed? && a.AFlow? {
      ParkedTold(s, Gate(s, G.CallShrug(a.probe)), L.TransportFailed, "device_flow_refresh_failed", id);
    } else if e.Start? && a.AFlow? {
      MarkPends(s.book, a.job.id, id);
      if t.book == L.MarkStarted(s.book, a.job.id) {
        PendingTold(s, t, id);
      }
    } else if t.book == s.book {
      SameTold(s, t, id);
    }
  }

  lemma CompTold(s: Sys, status: L.JobStatus, reason: string, id: nat)
    requires L.IsPending(s.book.jobs, id) && CompHolds(s.at.comp) && NamedJob(s.book.jobs, s.at.comp.job)
    requires !status.Imported? && !status.Cancelled?
    ensures Told(s, CompParked(Fail(s, s.at.comp.job, status, reason, Policy(status, reason)), s.at.comp.job.fp), id)
  {
    hide L.IsPending, Fail, Told, NamedJob, Policy;
    var job := s.at.comp.job;
    FailTold(s, s, CompParked(Fail(s, job, status, reason, Policy(status, reason)), job.fp), job, status, reason, id);
  }

  lemma TellsComp(s: Sys, e: CompEvent, id: nat)
    requires L.IsPending(s.book.jobs, id) && (CompHolds(s.at.comp) ==> NamedJob(s.book.jobs, s.at.comp.job))
    ensures Told(s, CompStep(s, e), id)
  {
    hide L.IsPending, Told, NamedJob, Fail, CompParked, L.Finish;
    var c, t := s.at.comp, CompStep(s, e);
    if CompHolds(c) && (e.PollRefused? || e.PollFailed? || e.SinkMissing? || e.StoreFailed?) {
      SameTold(s, s, id);
      CompTold(s, L.TransportFailed, if e.PollFailed? then e.reason else "", id);
      CompTold(s, L.SinkFailed, "sink_unconfigured", id);
      CompTold(s, L.SinkFailed, "sink_failed", id);
      if e.PollRefused? {
        CompTold(s, RefusalOf(e.why).0, RefusalOf(e.why).1, id);
      }
    } else if e.Commit? && c.CStored? && !s.flags.compDoomed {
      FinishTold(s, t, c.job, L.Imported, "imported", Some(c.receipt), s.clock.Floor, id);
    } else if e.CompCancelled? && c.CPoll? && (s.flags.compDoomed || s.flags.stopping) {
      FinishTold(s, t, c.job, L.Cancelled, CancelReason(s), None, s.clock.Floor, id);
    } else {
      SameTold(s, t, id);
    }
  }

  lemma TellsControl(s: Sys, e: ControlEvent, id: nat)
    requires L.IsPending(s.book.jobs, id) && !e.Boot? && !e.Settle?
    ensures L.IsPending(ControlStep(s, e).book.jobs, id)
  {
    hide L.Finish, L.StartJob, G.Apply, L.IsPending;
    if e.ImportElsewhere? {
      var b := L.StartJob(s.book, e.fp);
      StartPends(s.book, e.fp, id);
      FinishPends(b, |s.book.jobs|, L.Imported, "imported", Some(e.receipt), s.clock.Floor, id);
      PastTheEnd(s.book.jobs, id);
    }
  }

  /** The row tells all: whichever task ends a pending row, and on whatever way, the status and the reason in
      the row decide what becomes of its source: imported; tried again at once, after a minute, or as a
      transient failure is; terminal; or left as it is by the shutdown. */
  lemma RowTellsAll(s: Sys, e: Event, id: nat)
    requires Reachable(s) && L.IsPending(s.book.jobs, id) && !L.IsPending(Step(s, e).book.jobs, id)
    requires !(e.EControl? && (e.control.Boot? || e.control.Settle?))
    ensures var (t, row) := (Step(s, e), s.book.jobs[id]);
            && id < |t.book.jobs| && t.book.jobs[id].source == row.source && t.book.jobs[id].end.Done?
            && Disposed(s, t, row.source, t.book.jobs[id].end.status, t.book.jobs[id].end.reason)
  {
    ReachableInv(s);
    RowsOverStep(s, e);
    InvNames(s);
    hide Inv, SourceStep, PrepStep, AuthStep, CompStep, ControlStep, Disposed, Reachable;
    match e
    case ESource(x) => SourceLeavesRows(s, x);
    case EPrep(x) => TellsPrep(s, x, id);
    case EAuth(x) => TellsAuth(s, x, id);
    case EComp(x) => TellsComp(s, x, id);
    case EControl(x) => TellsControl(s, x, id);
  }

  lemma SourceLeavesRows(s: Sys, e: SourceEvent)
    ensures SourceStep(s, e).book == s.book
  {
    hide IsFirst, Drop;
  }

  lemma InvNames(s: Sys)
    requires Inv(s)
    ensures Named(s.book.jobs, s.at)
  {
    hide Named;
  }
}
