/** The ledger under the pipeline: which calls each event makes, so that every run of the pipeline is a run of
    the ledger. */
module PipelineLedger {
  import opened Prelude
  import L = LedgerBook
  import G = RateGate
  import P = Pacing
  import opened Pipeline
  import opened PipelinePlaces
  import opened PipelineRows
  import opened PipelineImports
  import opened PipelineHistory
  import opened PipelineTheorems

  // ---------------------------------------------------------------- the ledger's part of a step

  /** The row of a job ends so, now, with no receipt. */
  function Ends(s: Sys, id: nat, status: L.JobStatus, reason: string): seq<L.Op>
  {
    [L.OpFinish(id, status, reason, None, s.clock.Floor)]
  }

  function Cancels(s: Sys, id: nat): seq<L.Op>
  {
    Ends(s, id, L.Cancelled, if s.flags.stopping then "shutdown_cancelled" else "operator_cancelled")
  }

  /** The calls of the prepare worker: an attempt starts when a source is taken, and ends at once when its device
      flow cannot be had or the worker is cancelled. */
  function PrepCalls(s: Sys, e: PrepEvent): seq<L.Op>
  {
    var p := s.at.prep;
    if e.TakeSource? && p.PWant? && s.at.sourceQ != [] then [L.OpStart(s.at.sourceQ[0])]
    else if e.FlowInvalid? && p.PFlow? then Ends(s, p.job.id, L.SourceInvalid, "device_flow_invalid")
    else if e.FlowFailed? && p.PFlow? then Ends(s, p.job.id, L.TransportFailed, "device_flow_failed")
    else if e.PrepCancelled? && s.flags.stopping && (p.PFlow? || p.PPut?) then Cancels(s, p.job.id)
    else []
  }

  /** What the row of an authorization that is not granted says. */
  function Said(o: Outcome): (L.JobStatus, string)
  {
    match o
    case Authorized => (L.NeedsInteraction, "")
    case TimedOut => (L.TimedOut, "confirmation_timeout")
    case TransportError => (L.TransportFailed, "authorization_transport_failed")
    case BrowserError => (L.NeedsInteraction, "browser_error")
    case Reported(needsBrowser, reason) =>
      (if reason == "confirmation_timeout" then L.TimedOut
       else if needsBrowser && reason != "rate_limited" then L.NeedsBrowser else L.NeedsInteraction,
       reason)
  }

  /** The calls of the authorization task: the row is marked when the confirmation starts, and ends when the
      source turns out to be imported, when the flow cannot be refreshed, when the authorization is not granted
      and when the task is cancelled, by the operator, the shutdown or the closed gate. */
  function AuthCalls(s: Sys, e: AuthEvent): seq<L.Op>
  {
    var a := s.at.auth;
    if !HoldsJob(a) then []
    else
      var id := a.job.id;
      if e.AuthCancelled? then
        if s.flags.stopping && a.ANew? then []
        else if s.flags.stopping || (s.flags.authDoomed && Cancellable(a)) then Cancels(s, id)
        else []
      else if s.flags.authDoomed then []
      else if e.Permit? && a.AGate? then if s.gate.g.closed then Cancels(s, id) else []
      else if e.RefreshInvalid? && a.AFlow? then Ends(s, id, L.SourceInvalid, "device_flow_invalid")
      else if e.RefreshFailed? && a.AFlow? then Ends(s, id, L.TransportFailed, "device_flow_refresh_failed")
      else if e.Confirmed? && a.AConfirm? && !e.o.Authorized? then Ends(s, id, Said(e.o).0, Said(e.o).1)
      else if !s.flags.paused && ((e.Paced? && a.APace? && s.clock >= a.wake) || (e.Start? && a.AFlow?)) then
        if L.HasImported(s.book.jobs, a.job.fp) then Ends(s, id, L.Cancelled, "already_imported")
        else if e.Start? then [L.OpBegin(id)]
        else []
      else []
  }

  /** The calls of the completion task: its row ends when the poll or the store fails, when the task is cancelled
      while polling, and, as imported and with the sink's receipt, with the commit. */
  function CompCalls(s: Sys, e: CompEvent): seq<L.Op>
  {
    var c := s.at.comp;
    if !CompHolds(c) then []
    else
      var id := c.job.id;
      if e.CompCancelled? then if c.CPoll? && (s.flags.compDoomed || s.flags.stopping) then Cancels(s, id) else []
      else if s.flags.compDoomed then []
      else if c.CPoll? then
        match e
        case PollRefused(OauthDenied) => Ends(s, id, L.OauthDenied, "oauth_denied")
        case PollRefused(OauthExpired) => Ends(s, id, L.OauthExpired, "oauth_expired")
        case PollRefused(OauthRejected) => Ends(s, id, L.OauthRejected, "oauth_rejected")
        case PollFailed(reason) => Ends(s, id, L.TransportFailed, reason)
        case SinkMissing => Ends(s, id, L.SinkFailed, "sink_unconfigured")
        case _ => []
      else if c.CStore? && e.StoreFailed? then Ends(s, id, L.SinkFailed, "sink_failed")
      else if c.CStored? && e.Commit? then
        [L.OpFinish(id, L.Imported, "imported", Some(c.receipt), s.clock.Floor)]
      else []
  }

  /** The buffered attempts end one after the other. */
  function EndAll(s: Sys, jobs: seq<Job>): seq<L.Op>
    decreases |jobs|
  {
    if jobs == [] then [] else Ends(s, jobs[0].id, L.Cancelled, "shutdown_cancelled") + EndAll(s, jobs[1..])
  }

  /** A shutdown that settles ends the buffered attempts and then every other pending row; a start opens the
      ledger and ends every pending row; another writer imports a row of its own. */
  function ControlCalls(s: Sys, e: ControlEvent): seq<L.Op>
  {
    match e
    case Settle =>
      if s.flags.stopping && !s.flags.interrupted && s.gate.g.closed && Gathered(s.at) then
        EndAll(s, s.at.preparedQ) + EndAll(s, s.at.completionQ)
        + [L.OpRecoverPending("shutdown_cancelled", s.clock.Floor)]
      else []
    case Boot(_, _, start) => [L.OpReopen, L.OpRecoverPending("recovered_pending", start.Floor)]
    case ImportElsewhere(fp, receipt) =>
      [L.OpStart(fp), L.OpFinish(|s.book.jobs|, L.Imported, "imported", Some(receipt), s.clock.Floor)]
    case _ => []
  }

  function LedgerCalls(s: Sys, e: Event): seq<L.Op>
  {
    match e
    case EControl(x) => ControlCalls(s, x)
    case ESource(_) => []
    case EPrep(x) => if s.flags.settled then [] else PrepCalls(s, x)
    case EAuth(x) => if s.flags.settled then [] else AuthCalls(s, x)
    case EComp(x) => if s.flags.settled then [] else CompCalls(s, x)
  }

  lemma NoCall(b: L.Book)
    ensures L.Run(b, []) == b
  {
  }

  lemma OneCall(b: L.Book, op: L.Op)
    ensures L.Run(b, [op]) == L.Apply(b, op)
  {
    hide L.Apply;
    assert [op][1..] == [];
    assert L.Run(L.Apply(b, op), []) == L.Apply(b, op);
  }

  lemma TwoCalls(b: L.Book, x: L.Op, y: L.Op)
    ensures L.Run(b, [x, y]) == L.Apply(L.Apply(b, x), y)
  {
    hide L.Apply;
    assert [x, y][1..] == [y];
    OneCall(L.Apply(b, x), y);
  }

  lemma {:induction false} CallsConcat(b: L.Book, xs: seq<L.Op>, ys: seq<L.Op>)
    ensures L.Run(b, xs + ys) == L.Run(L.Run(b, xs), ys)
    decreases |xs|
  {
    hide L.Apply;
    if xs == [] {
      assert xs + ys == ys;
    } else {
      assert (xs + ys)[1..] == xs[1..] + ys;
      CallsConcat(L.Apply(b, xs[0]), xs[1..], ys);
    }
  }

  lemma EndsIs(s: Sys, id: nat, status: L.JobStatus, reason: string)
    ensures L.Run(s.book, Ends(s, id, status, reason)) == FinishRow(s, id, status, reason).book
  {
    hide L.Finish;
    OneCall(s.book, L.OpFinish(id, status, reason, None, s.clock.Floor));
  }

  lemma FailIs(s: Sys, t: Sys, job: Job, status: L.JobStatus, reason: string, retry: Retry)
    requires t.book == s.book && t.clock == s.clock
    ensures Fail(t, job, status, reason, retry).0.book == L.Run(s.book, Ends(s, job.id, status, reason))
  {
    hide L.Finish, Fail, Ends;
    FailBook(t, job, status, reason, retry);
    EndsIs(s, job.id, status, reason);
  }

  lemma PrepIs(s: Sys, e: PrepEvent)
    ensures PrepStep(s, e).book == L.Run(s.book, PrepCalls(s, e))
  {
    hide L.Finish, L.StartJob, Fail, Ends, L.Run;
    var p := s.at.prep;
    NoCall(s.book);
    if s.at.sourceQ != [] {
      OneCall(s.book, L.OpStart(s.at.sourceQ[0]));
    }
    if p.PFlow? || p.PPut? {
      FailIs(s, s, p.job, L.SourceInvalid, "device_flow_invalid", NoRetry);
      FailIs(s, s, p.job, L.TransportFailed, "device_flow_failed", Transient);
      EndsIs(s, p.job.id, L.Cancelled, "shutdown_cancelled");
    }
  }

  lemma ParkedIs(s: Sys, t: Sys, job: Job, status: L.JobStatus, reason: string, retry: Retry)
    requires t.book == s.book && t.clock == s.clock
    ensures Parked(Fail(t, job, status, reason, retry), job.fp).book == L.Run(s.book, Ends(s, job.id, status, reason))
  {
    hide Fail, Ends, L.Run;
    FailIs(s, t, job, status, reason, retry);
  }

  lemma SaidIs(o: Outcome)
    requires !o.Authorized?
    ensures (Verdict(o).0, Verdict(o).1) == Said(o)
  {
  }

  lemma ConfirmIs(s: Sys, o: Outcome)
    requires s.at.auth.AConfirm? && !o.Authorized?
    ensures ConfirmStep(s, s.at.auth.job, s.at.auth.probe, o).book
            == L.Run(s.book, Ends(s, s.at.auth.job.id, Said(o).0, Said(o).1))
  {
    hide Fail, Ends, L.Run, Parked, Verdict, Said, G.Apply, G.Limit, P.Limited;
    var job, probe := s.at.auth.job, s.at.auth.probe;
    var (status, reason, retry) := Verdict(o);
    SaidIs(o);
    ParkedIs(s, Gate(s, G.CallLimit(probe)), job, status, reason, retry);
    ParkedIs(s, Gate(s, G.CallLimit(probe)).(pacer := P.Limited(s.pacer)), job, status, reason, retry);
    ParkedIs(s, Gate(s, G.CallShrug(probe)), job, status, reason, retry);
  }

  lemma CancelIs(s: Sys, t: Sys)
    requires HoldsJob(s.at.auth) && t == s.(gate := t.gate)
    ensures AuthCancel(t).book == L.Run(s.book, Cancels(s, s.at.auth.job.id))
  {
    hide L.Finish, Ends, L.Run, G.Apply;
    EndsIs(s, s.at.auth.job.id, L.Cancelled, CancelReason(s));
  }

  lemma ImportedIs(s: Sys, probe: Option<nat>)
    requires HoldsJob(s.at.auth)
    ensures AlreadyImported(s, s.at.auth.job, probe).book
            == L.Run(s.book, Ends(s, s.at.auth.job.id, L.Cancelled, "already_imported"))
  {
    hide L.Finish, Ends, L.Run, G.Apply;
    EndsIs(s, s.at.auth.job.id, L.Cancelled, "already_imported");
  }

  lemma PermitIs(s: Sys)
    requires s.at.auth.AGate?
    ensures PermitStep(s).book
            == if s.gate.g.closed then L.Run(s.book, Cancels(s, s.at.auth.job.id)) else s.book
  {
    hide G.Apply, AuthCancel, Cancels, L.Run;
    CancelIs(s, Gate(s, G.CallAsk(!s.flags.paused)));
  }

  lemma AuthIs(s: Sys, e: AuthEvent)
    ensures AuthStep(s, e).book == L.Run(s.book, AuthCalls(s, e))
  {
    hide L.HasImported, Fail, G.Apply, P.Delay, AuthCancel, PermitStep, AlreadyImported, Parked, Said, Ends, Cancels,
      L.Run, L.MarkStarted, ConfirmStep;
    var a := s.at.auth;
    NoCall(s.book);
    if HoldsJob(a) {
      CancelIs(s, s);
      ImportedIs(s, ProbeOf(a));
      OneCall(s.book, L.OpBegin(a.job.id));
    }
    if e.Permit? && a.AGate? {
      PermitIs(s);
    } else if e.Confirmed? && a.AConfirm? {
      if e.o.Authorized? {
        GrantedLeavesBook(s);
      } else {
        ConfirmIs(s, e.o);
      }
    } else if a.AFlow? {
      ParkedIs(s, Gate(s, G.CallShrug(a.probe)), a.job, L.SourceInvalid, "device_flow_invalid", NoRetry);
      ParkedIs(s, Gate(s, G.CallShrug(a.probe)), a.job, L.TransportFailed, "device_flow_refresh_failed", Transient);
    }
  }

  lemma GrantedLeavesBook(s: Sys)
    requires s.at.auth.AConfirm?
    ensures ConfirmStep(s, s.at.auth.job, s.at.auth.probe, Authorized).book == s.book
  {
    hide G.Apply, P.Succeeded;
  }

  lemma CompIs(s: Sys, e: CompEvent)
    ensures CompStep(s, e).book == L.Run(s.book, CompCalls(s, e))
  {
    hide L.Finish, Fail, Ends, L.Run;
    var c := s.at.comp;
    NoCall(s.book);
    if CompHolds(c) {
      FailIs(s, s, c.job, L.TransportFailed, if e.PollFailed? then e.reason else "", Transient);
      FailIs(s, s, c.job, L.SinkFailed, "sink_unconfigured", NoRetry);
      FailIs(s, s, c.job, L.SinkFailed, "sink_failed", Transient);
      EndsIs(s, c.job.id, L.Cancelled, CancelReason(s));
      if e.PollRefused? {
        FailIs(s, s, c.job, RefusalOf(e.why).0, RefusalOf(e.why).1, NoRetry);
      }
      if c.CStored? {
        OneCall(s.book, L.OpFinish(c.job.id, L.Imported, "imported", Some(c.receipt), s.clock.Floor));
      }
    }
  }

  lemma {:induction false} EndAllIs(s: Sys, b: L.Book, jobs: seq<Job>)
    ensures L.Run(b, EndAll(s, jobs)) == FinishAll(b, jobs, s.clock.Floor)
    decreases |jobs|
  {
    hide L.Apply, L.Finish;
    if jobs != [] {
      var ops, now := Ends(s, jobs[0].id, L.Cancelled, "shutdown_cancelled"), s.clock.Floor;
      CallsConcat(b, ops, EndAll(s, jobs[1..]));
      OneCall(b, ops[0]);
      FinishCall(b, jobs[0].id, now);
      EndAllIs(s, L.Finish(b, jobs[0].id, L.Cancelled, "shutdown_cancelled", None, now), jobs[1..]);
    }
  }

  lemma FinishCall(b: L.Book, id: nat, now: int)
    ensures L.Apply(b, L.OpFinish(id, L.Cancelled, "shutdown_cancelled", None, now))
            == L.Finish(b, id, L.Cancelled, "shutdown_cancelled", None, now)
  {
    hide L.Finish;
  }

  lemma SettledIs(s: Sys)
    ensures Settled(s).book
            == L.Run(s.book, EndAll(s, s.at.preparedQ) + EndAll(s, s.at.completionQ)
                             + [L.OpRecoverPending("shutdown_cancelled", s.clock.Floor)])
  {
    hide EndAll, FinishAll, L.Run, L.RecoverPending;
    var now := s.clock.Floor;
    var xs, ys, last := EndAll(s, s.at.preparedQ), EndAll(s, s.at.completionQ),
                        L.OpRecoverPending("shutdown_cancelled", now);
    var b := FinishAll(s.book, s.at.preparedQ, now);
    EndAllIs(s, s.book, s.at.preparedQ);
    EndAllIs(s, b, s.at.completionQ);
    CallsConcat(s.book, xs, ys);
    CallsConcat(s.book, xs + ys, [last]);
    OneCall(FinishAll(b, s.at.completionQ, now), last);
  }

  lemma ControlIs(s: Sys, e: ControlEvent)
    ensures ControlStep(s, e).book == L.Run(s.book, ControlCalls(s, e))
  {
    hide L.Finish, L.StartJob, L.RecoverPending, L.Reopen, G.Apply, P.Make, ImportedStates, L.Run, EndAll, Settled;
    NoCall(s.book);
    match e
    case Settle => SettledIs(s);
    case Boot(_, _, start) => TwoCalls(s.book, L.OpReopen, L.OpRecoverPending("recovered_pending", start.Floor));
    case ImportElsewhere(fp, receipt) =>
      TwoCalls(s.book, L.OpStart(fp),
        L.OpFinish(|s.book.jobs|, L.Imported, "imported", Some(receipt), s.clock.Floor));
    case _ =>
  }

  /** Each event leaves the ledger as its calls do, with those statuses, reasons, receipts and times. */
  lemma LedgerFollows(s: Sys, e: Event)
    ensures Step(s, e).book == L.Run(s.book, LedgerCalls(s, e))
  {
    hide PrepStep, AuthStep, CompStep, ControlStep, PrepCalls, AuthCalls, CompCalls, ControlCalls, L.Run;
    NoCall(s.book);
    match e
    case ESource(x) => SourceBook(s, x);
    case EPrep(x) => PrepIs(s, x);
    case EAuth(x) => AuthIs(s, x);
    case EComp(x) => CompIs(s, x);
    case EControl(x) => ControlIs(s, x);
  }

  lemma SourceBook(s: Sys, e: SourceEvent)
    ensures SourceStep(s, e).book == s.book
  {
    hide IsFirst, Drop;
  }

  /** The calls of a whole run. */
  function LedgerRun(s: Sys, es: seq<Event>): seq<L.Op>
    decreases |es|
  {
    if es == [] then [] else LedgerCalls(s, es[0]) + LedgerRun(Step(s, es[0]), es[1..])
  }

  lemma {:induction false} FollowsFrom(s: Sys, es: seq<Event>)
    ensures Run(s, es).book == L.Run(s.book, LedgerRun(s, es))
    decreases |es|
  {
    hide Step, LedgerCalls, L.Apply;
    if es != [] {
      LedgerFollows(s, es[0]);
      FollowsFrom(Step(s, es[0]), es[1..]);
      CallsConcat(s.book, LedgerCalls(s, es[0]), LedgerRun(Step(s, es[0]), es[1..]));
    }
  }

  /** No call of the pipeline claims, marks or returns a credential. */
  predicate Ours(op: L.Op) { !op.OpClaim? && !op.OpMark? && !op.OpUnclaim? }

  /** The ledger of every reachable state is that of a sequence of the ledger's own calls, so whatever holds of
      those holds of the pipeline, over all restarts. */
  lemma LedgerOfRun(s: Sys) returns (ops: seq<L.Op>)
    requires Reachable(s)
    ensures s.book == L.Run(L.Blankbook, ops) && forall op | op in ops :: Ours(op)
  {
    hide Run, Launch, L.Run, LedgerRun;
    var base, interval, start, es :| Run(Launch(base, interval, start), es) == s;
    var first := Launch(base, interval, start);
    var opening := [L.OpReopen, L.OpRecoverPending("recovered_pending", start.Floor)];
    LaunchBook(base, interval, start);
    FollowsFrom(first, es);
    CallsConcat(L.Blankbook, opening, LedgerRun(first, es));
    OursRun(first, es);
    ops := opening + LedgerRun(first, es);
  }

  lemma LaunchBook(base: real, interval: real, start: real)
    ensures Launch(base, interval, start).book
            == L.Run(L.Blankbook, [L.OpReopen, L.OpRecoverPending("recovered_pending", start.Floor)])
  {
    hide L.Reopen, L.RecoverPending, P.Make, ImportedStates, L.Run;
    TwoCalls(L.Blankbook, L.OpReopen, L.OpRecoverPending("recovered_pending", start.Floor));
  }

  lemma {:induction false} EndAllOurs(s: Sys, jobs: seq<Job>)
    ensures forall op | op in EndAll(s, jobs) :: Ours(op)
    decreases |jobs|
  {
    if jobs != [] {
      EndAllOurs(s, jobs[1..]);
    }
  }

  lemma CallsOurs(s: Sys, e: Event)
    ensures forall op | op in LedgerCalls(s, e) :: Ours(op)
  {
    hide EndAll, Said, L.HasImported;
    EndAllOurs(s, s.at.preparedQ);
    EndAllOurs(s, s.at.completionQ);
  }

  lemma {:induction false} OursRun(s: Sys, es: seq<Event>)
    ensures forall op | op in LedgerRun(s, es) :: Ours(op)
    decreases |es|
  {
    hide Step, LedgerCalls, Ours;
    if es != [] {
      CallsOurs(s, es[0]);
      OursRun(Step(s, es[0]), es[1..]);
    }
  }
}
