/** The authentication pipeline as a step system (class `AuthPipeline` in
    xai_enroller/auth_pipeline.py): its workers, queues, retry heap, operator controls, shutdown and
    restarts over one ledger. A step is the code between two suspensions; an event that is not
    possible leaves the state as it is. Calls into foreign code are events with every outcome. */
module Pipeline {
  import opened Prelude
  import L = LedgerBook
  import G = RateGate
  import P = Pacing

  const SOURCE_QUEUE_CAPACITY := 64
  const PREPARED_QUEUE_CAPACITY := 1
  const COMPLETION_QUEUE_CAPACITY := 2
  const TRANSIENT_RETRY_DELAYS := [5.0, 15.0, 30.0]
  const CANCEL_RETRY_DELAY := 60.0

  datatype PState = Queued | Prepared | Active | RetryWaiting | Imported | Terminal

  /** A source with the id of its pending row. */
  datatype Job = Job(fp: string, id: nat)

  datatype Waiting = Waiting(due: real, order: nat, fp: string)

  /** Where the prepare worker is suspended; PPark: about to put a retry on the heap. */
  datatype Prep = PIdle | PWant | PFlow(job: Job) | PPut(job: Job) | PPark(fp: string, due: real) | PDead

  /** Where the authorization task is suspended. */
  datatype Auth =
    | AIdle | ANew(job: Job) | APace(job: Job, wake: real) | AGate(job: Job)
    | AFlow(job: Job, probe: Option<nat>) | AConfirm(job: Job, probe: Option<nat>)
    | APut(job: Job) | APark(fp: string, due: real) | ADead

  /** Where the completion task is suspended. CStore: the store runs, and the task waits behind a shield or,
      once `cancelled`, for the store itself. CStored: the sink has written, the ledger not yet; `bare` says
      that the task was waiting without the shield. */
  datatype Comp =
    | CIdle | CNew(job: Job) | CPoll(job: Job) | CStore(job: Job, cancelled: bool)
    | CStored(job: Job, receipt: string, bare: bool, cancelled: bool) | CPark(fp: string, due: real) | CDead

  /** Every place a source can be in. `admits` are the callers suspended in `admit`. */
  datatype Places = Places(
    admits: seq<string>, sourceQ: seq<string>, retryHand: Option<string>, heap: seq<Waiting>,
    prep: Prep, preparedQ: seq<Job>, auth: Auth, completionQ: seq<Job>, comp: Comp)

  datatype Memory = Memory(states: map<string, PState>, retries: map<string, nat>)

  /** `slot` is the prepare slot's event, `settled` says that `_shutdown` has returned, `interrupted` that it
      was cancelled itself and will not; a task is doomed from the operator's cancel until it is delivered. */
  datatype Flags = Flags(
    slot: bool, paused: bool, stopping: bool, settled: bool, interrupted: bool, authDoomed: bool, compDoomed: bool,
    order: nat)

  /** History: commits of this pipeline, of other writers, credentials written by the sink, commits cut
      by the death of the process and by a second cancellation, the stores that go on in a thread after such
      a cancellation, the receipts handed out for rows, and (of this process) transient failures. */
  datatype Past = Past(
    imports: seq<string>, outside: seq<string>, sunk: seq<string>, cut: seq<string>, severed: seq<string>,
    loose: seq<string>, receipts: map<nat, string>, slips: map<string, nat>)

  datatype Sys = Sys(
    at: Places, mem: Memory, flags: Flags, book: L.Book, gate: G.Watched, pacer: P.Pacer, clock: real, past: Past)

  function Get<K>(m: map<K, nat>, k: K): nat { if k in m then m[k] else 0 }

  predicate InState(mem: Memory, fp: string, k: PState) { fp in mem.states && mem.states[fp] == k }

  function SetState(s: Sys, fp: string, k: PState): Sys { s.(mem := s.mem.(states := s.mem.states[fp := k])) }

  function FinishRow(s: Sys, id: nat, status: L.JobStatus, reason: string): Sys
  {
    s.(book := L.Finish(s.book, id, status, reason, None, s.clock.Floor))
  }

  function CancelReason(s: Sys): string { if s.flags.stopping then "shutdown_cancelled" else "operator_cancelled" }

  // ---------------------------------------------------------------- failures and retries

  datatype Retry = NoRetry | Transient | RateLimited

  /** `_finish_failure` up to `_schedule_retry`'s lock: the new state, and when the retry is due. */
  function Fail(s: Sys, job: Job, status: L.JobStatus, reason: string, retry: Retry): (Sys, Option<real>)
  {
    var t := FinishRow(s, job.id, status, reason);
    match retry
    case NoRetry => (SetState(t, job.fp, Terminal), None)
    case RateLimited => (SetState(t, job.fp, RetryWaiting), Some(s.clock))
    case Transient =>
      var n := Get(s.mem.retries, job.fp);
      var u := t.(past := t.past.(slips := t.past.slips[job.fp := Get(t.past.slips, job.fp) + 1]));
      if n < |TRANSIENT_RETRY_DELAYS| then
        (SetState(u.(mem := u.mem.(retries := u.mem.retries[job.fp := n + 1])), job.fp, RetryWaiting),
         Some(s.clock + TRANSIENT_RETRY_DELAYS[n]))
      else (SetState(u, job.fp, Terminal), None)
  }

  /** Puts a retry on the heap. */
  function Push(s: Sys, fp: string, due: real): Sys
  {
    s.(at := s.at.(heap := s.at.heap + [Waiting(due, s.flags.order, fp)]),
       flags := s.flags.(order := s.flags.order + 1))
  }

  /** The entry that `heappop` returns. */
  predicate IsFirst(heap: seq<Waiting>, i: nat)
  {
    i < |heap| && forall j | 0 <= j < |heap| && j != i ::
      heap[i].due < heap[j].due || (heap[i].due == heap[j].due && heap[i].order < heap[j].order)
  }

  // ---------------------------------------------------------------- admission and retries

  datatype SourceEvent =
    | Admit(fp: string) | AdmitPut(i: nat) | AdmitCancelled(i: nat)
    | Pop(i: nat) | RetryPut | RetryCancelled

  function Drop<T>(q: seq<T>, i: nat): seq<T>
    requires i < |q|
  {
    q[..i] + q[i + 1..]
  }

  function SourceStep(s: Sys, e: SourceEvent): Sys
  {
    var at := s.at;
    match e
    case Admit(fp) =>
      if fp in s.mem.states then s
      else SetState(s, fp, Queued).(at := at.(admits := at.admits + [fp]))
    case AdmitPut(i) =>
      if i < |at.admits| && |at.sourceQ| < SOURCE_QUEUE_CAPACITY then
        s.(at := at.(admits := Drop(at.admits, i), sourceQ := at.sourceQ + [at.admits[i]]))
      else s
    case AdmitCancelled(i) =>
      if i < |at.admits| then
        var fp := at.admits[i];
        var t := s.(at := at.(admits := Drop(at.admits, i)));
        if InState(s.mem, fp, Queued) then t.(mem := t.mem.(states := t.mem.states - {fp})) else t
      else s
    case Pop(i) =>
      if !s.flags.stopping && at.retryHand.None? && IsFirst(at.heap, i) && at.heap[i].due <= s.clock then
        var fp := at.heap[i].fp;
        var t := s.(at := at.(heap := Drop(at.heap, i)));
        if InState(s.mem, fp, RetryWaiting) then SetState(t, fp, Queued).(at := t.at.(retryHand := Some(fp))) else t
      else s
    case RetryPut =>
      if at.retryHand.Some? && |at.sourceQ| < SOURCE_QUEUE_CAPACITY then
        s.(at := at.(retryHand := None, sourceQ := at.sourceQ + [at.retryHand.value]))
      else s
    case RetryCancelled =>
      if s.flags.stopping then s.(at := at.(retryHand := None)) else s
  }

  // ---------------------------------------------------------------- the prepare worker

  datatype PrepEvent =
    | TakeSlot | TakeSource | FlowOk | FlowInvalid | FlowFailed | PutPrepared | PrepParks | PrepCancelled

  /** The prepare worker goes round its loop, giving the slot back. */
  function PrepRound(s: Sys): Sys { s.(at := s.at.(prep := PIdle), flags := s.flags.(slot := true)) }

  function PrepStep(s: Sys, e: PrepEvent): Sys
  {
    var at := s.at;
    match e
    case TakeSlot =>
      if at.prep.PIdle? && s.flags.slot then s.(at := at.(prep := PWant), flags := s.flags.(slot := false)) else s
    case TakeSource =>
      if at.prep.PWant? && at.sourceQ != [] then
        var fp := at.sourceQ[0];
        s.(at := at.(sourceQ := at.sourceQ[1..], prep := PFlow(Job(fp, |s.book.jobs|))),
           book := L.StartJob(s.book, fp))
      else s
    case FlowOk =>
      if at.prep.PFlow? then SetState(s, at.prep.job.fp, Prepared).(at := at.(prep := PPut(at.prep.job))) else s
    case FlowInvalid =>
      if at.prep.PFlow? then PrepRound(Fail(s, at.prep.job, L.SourceInvalid, "device_flow_invalid", NoRetry).0)
      else s
    case FlowFailed =>
      if at.prep.PFlow? then
        var (t, due) := Fail(s, at.prep.job, L.TransportFailed, "device_flow_failed", Transient);
        if due.Some? then t.(at := t.at.(prep := PPark(at.prep.job.fp, due.value))) else PrepRound(t)
      else s
    case PutPrepared =>
      if at.prep.PPut? && |at.preparedQ| < PREPARED_QUEUE_CAPACITY then
        s.(at := at.(prep := PIdle, preparedQ := at.preparedQ + [at.prep.job]))
      else s
    case PrepParks => if at.prep.PPark? then PrepRound(Push(s, at.prep.fp, at.prep.due)) else s
    case PrepCancelled =>
      if !s.flags.stopping then s
      else
        var t := if at.prep.PFlow? || at.prep.PPut? then FinishRow(s, at.prep.job.id, L.Cancelled, "shutdown_cancelled")
                 else s;
        t.(at := t.at.(prep := PDead))
  }

  // ---------------------------------------------------------------- the authorization task

  /** What `executor.confirm` comes to. */
  datatype Outcome =
    | Authorized | Reported(needsBrowser: bool, reason: string) | TimedOut | TransportError | BrowserError

  datatype AuthEvent =
    | TakePrepared | Begin | Paced | Permit | RefreshInvalid | RefreshFailed | Start
    | Confirmed(o: Outcome) | PutCompletion | AuthParks | AuthCancelled

  function Gate(s: Sys, call: G.Call): Sys { s.(gate := G.Apply(s.gate, call, s.clock)) }

  /** Where a failed authorization leaves the task. */
  function Parked(r: (Sys, Option<real>), fp: string): Sys
  {
    r.0.(at := r.0.at.(auth := if r.1.Some? then APark(fp, r.1.value) else AIdle))
  }

  /** `_finish_if_already_imported`, when it is. */
  function AlreadyImported(s: Sys, job: Job, probe: Option<nat>): Sys
  {
    var t := SetState(FinishRow(s, job.id, L.Cancelled, "already_imported"), job.fp, Imported);
    var u := t.(mem := t.mem.(retries := t.mem.retries - {job.fp}), at := t.at.(auth := AIdle));
    Gate(u, G.CallShrug(probe))
  }

  /** The status, the reason and the retry that an outcome other than Authorized leads to. */
  function Verdict(o: Outcome): (L.JobStatus, string, Retry)
  {
    match o
    case Authorized => (L.NeedsInteraction, "", NoRetry)
    case Reported(needsBrowser, reason) =>
      if reason == "rate_limited" then (L.NeedsInteraction, reason, RateLimited)
      else
        (if reason == "confirmation_timeout" then L.TimedOut
         else if needsBrowser then L.NeedsBrowser else L.NeedsInteraction,
         reason,
         if reason in {"browser_error", "confirmation_timeout", "challenge_required", "unknown_page"}
         then Transient else NoRetry)
    case TimedOut => (L.TimedOut, "confirmation_timeout", Transient)
    case TransportError => (L.TransportFailed, "authorization_transport_failed", Transient)
    case BrowserError => (L.NeedsInteraction, "browser_error", Transient)
  }

  function ConfirmStep(s: Sys, job: Job, probe: Option<nat>, o: Outcome): Sys
  {
    if o.Authorized? then
      var t := Gate(s, G.CallClear(probe));
      t.(pacer := P.Succeeded(t.pacer), at := t.at.(auth := APut(job)))
    else
      var (status, reason, retry) := Verdict(o);
      if retry.RateLimited? then
        var applied := G.Limit(s.gate.g, probe, s.clock).1;
        var t := Gate(s, G.CallLimit(probe));
        var u := if applied then t.(pacer := P.Limited(t.pacer)) else t;
        Parked(Fail(u, job, status, reason, retry), job.fp)
      else Parked(Fail(Gate(s, G.CallShrug(probe)), job, status, reason, retry), job.fp)
  }

  predicate HoldsJob(a: Auth) { a.ANew? || a.APace? || a.AGate? || a.AFlow? || a.AConfirm? || a.APut? }

  function ProbeOf(a: Auth): Option<nat> { if a.AFlow? || a.AConfirm? then a.probe else None }

  /** Whether `_authorization_cancellable` is set while the task is suspended there. */
  predicate Cancellable(a: Auth) { a.APace? || a.AGate? || a.AFlow? || a.AConfirm? }

  /** The handler of a cancellation that reaches a started authorization task. */
  function AuthCancel(s: Sys): Sys
    requires HoldsJob(s.at.auth)
  {
    var job := s.at.auth.job;
    var t := FinishRow(Gate(s, G.CallShrug(ProbeOf(s.at.auth))), job.id, L.Cancelled, CancelReason(s));
    var u := t.(flags := t.flags.(authDoomed := false));
    if s.flags.stopping then u.(at := u.at.(auth := ADead))
    else SetState(u, job.fp, RetryWaiting).(at := u.at.(auth := APark(job.fp, s.clock + CANCEL_RETRY_DELAY)))
  }

  /** One turn of `wait_for_permission`. */
  function PermitStep(s: Sys): Sys
    requires s.at.auth.AGate?
  {
    var t := Gate(s, G.CallAsk(!s.flags.paused));
    var job := s.at.auth.job;
    match G.Ask(s.gate.g, !s.flags.paused, s.clock).1
    case Refused => AuthCancel(t)
    case Wait => t
    case Open => t.(at := t.at.(auth := AFlow(job, None)))
    case Probe(token) => t.(at := t.at.(auth := AFlow(job, Some(token))))
  }

  function AuthStep(s: Sys, e: AuthEvent): Sys
  {
    var at, a := s.at, s.at.auth;
    if e.AuthCancelled? then
      if s.flags.stopping && !Cancellable(a) && !a.APut? then s.(at := at.(auth := ADead))
      else if (s.flags.authDoomed && Cancellable(a)) || (s.flags.stopping && HoldsJob(a)) then AuthCancel(s)
      else s
    else if s.flags.authDoomed then s
    else
      match e
      case TakePrepared =>
        if a.AIdle? && at.preparedQ != [] then
          s.(at := at.(auth := ANew(at.preparedQ[0]), preparedQ := at.preparedQ[1..]), flags := s.flags.(slot := true))
        else s
      case Begin =>
        if a.ANew? then s.(at := at.(auth := APace(a.job, s.clock + P.Delay(s.pacer, s.clock)))) else s
      case Paced =>
        if a.APace? && s.clock >= a.wake && !s.flags.paused then
          if L.HasImported(s.book.jobs, a.job.fp) then AlreadyImported(s, a.job, None)
          else s.(at := at.(auth := AGate(a.job)))
        else s
      case Permit => if a.AGate? then PermitStep(s) else s
      case RefreshInvalid =>
        if a.AFlow? then
          Parked(Fail(Gate(s, G.CallShrug(a.probe)), a.job, L.SourceInvalid, "device_flow_invalid", NoRetry), a.job.fp)
        else s
      case RefreshFailed =>
        if a.AFlow? then
          Parked(Fail(Gate(s, G.CallShrug(a.probe)), a.job, L.TransportFailed, "device_flow_refresh_failed", Transient),
                 a.job.fp)
        else s
      case Start =>
        if a.AFlow? && !s.flags.paused then
          if L.HasImported(s.book.jobs, a.job.fp) then AlreadyImported(s, a.job, a.probe)
          else
            SetState(s, a.job.fp, Active).(
              pacer := P.Started(s.pacer, s.clock), book := L.MarkStarted(s.book, a.job.id),
              at := at.(auth := AConfirm(a.job, a.probe)))
        else s
      case Confirmed(o) => if a.AConfirm? then ConfirmStep(s, a.job, a.probe, o) else s
      case PutCompletion =>
        if a.APut? && |at.completionQ| < COMPLETION_QUEUE_CAPACITY then
          s.(at := at.(auth := AIdle, completionQ := at.completionQ + [a.job]))
        else s
      case AuthParks =>
        if a.APark? then
          var t := Push(s, a.fp, a.due);
          t.(at := t.at.(auth := AIdle))
        else s
      case AuthCancelled => s
  }

  // ---------------------------------------------------------------- the completion task

  datatype Refusal = OauthDenied | OauthExpired | OauthRejected

  datatype CompEvent =
    | TakeCompletion | BeginPoll | Polled | PollRefused(why: Refusal) | PollFailed(reason: string) | SinkMissing
    | StoreCancelled | StoreFailed | Sunk(receipt: string) | Commit | CompParks | CompCancelled

  function CompParked(r: (Sys, Option<real>), fp: string): Sys
  {
    r.0.(at := r.0.at.(comp := if r.1.Some? then CPark(fp, r.1.value) else CIdle))
  }

  function RefusalOf(why: Refusal): (L.JobStatus, string)
  {
    match why
    case OauthDenied => (L.OauthDenied, "oauth_denied")
    case OauthExpired => (L.OauthExpired, "oauth_expired")
    case OauthRejected => (L.OauthRejected, "oauth_rejected")
  }

  function CommitStep(s: Sys, job: Job, receipt: string, cancelled: bool): Sys
  {
    var t := SetState(
      s.(book := L.Finish(s.book, job.id, L.Imported, "imported", Some(receipt), s.clock.Floor)), job.fp, Imported);
    t.(mem := t.mem.(retries := t.mem.retries - {job.fp}),
       past := t.past.(imports := t.past.imports + [job.fp]),
       at := t.at.(comp := if cancelled && s.flags.stopping then CDead else CIdle))
  }

  /** Whether a cancellation delivered here reaches the unshielded wait for the store. */
  predicate Severs(c: Comp) { (c.CStore? && c.cancelled) || (c.CStored? && c.bare) }

  /** The task dies between sink and ledger, its row left pending. A store that has not written yet goes on
      in a thread without its task. Such a cancellation comes from the shutdown, which is cancelled too. */
  function Sever(s: Sys): Sys
    requires Severs(s.at.comp)
  {
    var fp := s.at.comp.job.fp;
    s.(at := s.at.(comp := CDead), flags := s.flags.(interrupted := true),
       past := if s.at.comp.CStore? then s.past.(loose := s.past.loose + [fp])
               else s.past.(severed := s.past.severed + [fp]))
  }

  function CompStep(s: Sys, e: CompEvent): Sys
  {
    var at, c := s.at, s.at.comp;
    if e.CompCancelled? then
      if c.CPoll? && (s.flags.compDoomed || s.flags.stopping) then
        var t := FinishRow(s, c.job.id, L.Cancelled, CancelReason(s));
        var u := t.(flags := t.flags.(compDoomed := false));
        if s.flags.stopping then u.(at := at.(comp := CDead))
        else SetState(u, c.job.fp, RetryWaiting).(at := at.(comp := CPark(c.job.fp, s.clock + CANCEL_RETRY_DELAY)))
      else if s.flags.stopping && !c.CStore? && !c.CStored? then s.(at := at.(comp := CDead))
      else s
    else if s.flags.compDoomed then s
    else
      match e
      case TakeCompletion =>
        if c.CIdle? && at.completionQ != [] then
          s.(at := at.(comp := CNew(at.completionQ[0]), completionQ := at.completionQ[1..]))
        else s
      case BeginPoll => if c.CNew? then s.(at := at.(comp := CPoll(c.job))) else s
      case Polled => if c.CPoll? then s.(at := at.(comp := CStore(c.job, false))) else s
      case PollRefused(why) =>
        if c.CPoll? then CompParked(Fail(s, c.job, RefusalOf(why).0, RefusalOf(why).1, NoRetry), c.job.fp) else s
      case PollFailed(reason) =>
        if c.CPoll? then CompParked(Fail(s, c.job, L.TransportFailed, reason, Transient), c.job.fp) else s
      case SinkMissing =>
        if c.CPoll? then CompParked(Fail(s, c.job, L.SinkFailed, "sink_unconfigured", NoRetry), c.job.fp) else s
      case StoreCancelled =>
        if !s.flags.stopping then s
        else if Severs(c) then Sever(s)
        else if c.CStore? then s.(at := at.(comp := CStore(c.job, true)))
        else if c.CStored? then s.(at := at.(comp := CStored(c.job, c.receipt, c.bare, true)))
        else s
      case StoreFailed =>
        if c.CStore? then CompParked(Fail(s, c.job, L.SinkFailed, "sink_failed", Transient), c.job.fp) else s
      case Sunk(receipt) =>
        if c.CStore? then
          s.(at := at.(comp := CStored(c.job, receipt, c.cancelled, c.cancelled)),
             past := s.past.(sunk := s.past.sunk + [c.job.fp], receipts := s.past.receipts[c.job.id := receipt]))
        else s
      case Commit => if c.CStored? then CommitStep(s, c.job, c.receipt, c.cancelled) else s
      case CompParks =>
        if c.CPark? then
          var t := Push(s, c.fp, c.due);
          t.(at := t.at.(comp := CIdle))
        else s
      case CompCancelled => s
  }

  // ---------------------------------------------------------------- control

  datatype ControlEvent =
    | Tick(d: real) | Pause | Resume | CancelActive | Stop | CloseGate | Interrupt | Settle
    | Boot(base: real, interval: real, start: real) | ImportElsewhere(fp: string, receipt: string) | LateStore(i: nat)

  /** `cancel_active`: whom it cancels, if anyone. */
  function Cancelled(s: Sys): (Sys, bool)
  {
    if Cancellable(s.at.auth) && !s.flags.authDoomed then (s.(flags := s.flags.(authDoomed := true)), true)
    else if s.at.comp.CPoll? && !s.flags.compDoomed then (s.(flags := s.flags.(compDoomed := true)), true)
    else (s, false)
  }

  function FinishAll(book: L.Book, jobs: seq<Job>, now: int): L.Book
    decreases |jobs|
  {
    if jobs == [] then book
    else FinishAll(L.Finish(book, jobs[0].id, L.Cancelled, "shutdown_cancelled", None, now), jobs[1..], now)
  }

  /** Whether every task has come to its end. */
  predicate Gathered(at: Places)
  {
    at.prep.PDead? && at.auth.ADead? && at.comp.CDead? && at.admits == [] && at.retryHand.None?
  }

  /** `_settle_buffered_attempts` and the ledger's recovery. */
  function Settled(s: Sys): Sys
  {
    var now := s.clock.Floor;
    var book := FinishAll(FinishAll(s.book, s.at.preparedQ, now), s.at.completionQ, now);
    s.(at := s.at.(sourceQ := [], heap := [], preparedQ := [], completionQ := []),
       book := L.RecoverPending(book, "shutdown_cancelled", now), flags := s.flags.(settled := true))
  }

  /** Every source with an imported row is known as imported. */
  function ImportedStates(jobs: seq<L.Row>): (m: map<string, PState>)
    ensures forall fp :: fp in m <==> L.HasImported(jobs, fp)
    ensures forall fp | fp in m :: m[fp] == Imported
    decreases |jobs|
  {
    if jobs == [] then map[]
    else
      var front, last := jobs[..|jobs| - 1], jobs[|jobs| - 1];
      var m := ImportedStates(front);
      OneMoreImport(front, last);
      assert front + [last] == jobs;
      if L.WasImported(last) then m[last.source := Imported] else m
  }

  lemma OneMoreImport(jobs: seq<L.Row>, row: L.Row)
    ensures forall fp :: L.HasImported(jobs + [row], fp) <==>
              L.HasImported(jobs, fp) || (L.WasImported(row) && row.source == fp)
  {
    var all := jobs + [row];
    assert all[|jobs|] == row;
    forall fp | L.HasImported(jobs, fp)
      ensures L.HasImported(all, fp)
    {
      var i :| 0 <= i < |jobs| && jobs[i].source == fp && L.WasImported(jobs[i]);
      assert all[i] == jobs[i];
    }
  }

  const Nowhere := Places([], [], None, [], PIdle, [], AIdle, [], CIdle)

  /** A new process on a ledger, whatever the last one was doing; `base` and `interval` are its settings for
      the cooldown and the pace. */
  function Booted(book: L.Book, past: Past, base: real, interval: real, start: real): Sys
  {
    var b := L.RecoverPending(L.Reopen(book), "recovered_pending", start.Floor);
    Sys(Nowhere, Memory(ImportedStates(b.jobs), map[]), Flags(true, false, false, false, false, false, false, 0), b,
        G.Watched(G.Fresh(base), 0, start), P.Make(interval, None, start), start, past.(loose := [], slips := map[]))
  }

  function CutBy(s: Sys): Past
  {
    if s.at.comp.CStored? then s.past.(cut := s.past.cut + [s.at.comp.job.fp]) else s.past
  }

  function ControlStep(s: Sys, e: ControlEvent): Sys
  {
    match e
    case Tick(d) => if d >= 0.0 then s.(clock := s.clock + d) else s
    case Pause => s.(flags := s.flags.(paused := true))
    case Resume => s.(flags := s.flags.(paused := false))
    case CancelActive => Cancelled(s).0
    case Stop => s.(flags := s.flags.(stopping := true, paused := false))
    case CloseGate => if s.flags.stopping then Gate(s, G.CallClose) else s
    case Interrupt => if s.flags.stopping then s.(flags := s.flags.(interrupted := true)) else s
    case Settle =>
      if s.flags.stopping && !s.flags.interrupted && s.gate.g.closed && Gathered(s.at) then Settled(s) else s
    case Boot(base, interval, start) => Booted(s.book, CutBy(s), base, interval, start)
    case ImportElsewhere(fp, receipt) =>
      var b := L.StartJob(s.book, fp);
      s.(book := L.Finish(b, |s.book.jobs|, L.Imported, "imported", Some(receipt), s.clock.Floor),
         past := s.past.(outside := s.past.outside + [fp], receipts := s.past.receipts[|s.book.jobs| := receipt]))
    case LateStore(i) =>
      if i < |s.past.loose| then
        var fp := s.past.loose[i];
        var p := s.past;
        s.(past := p.(loose := Drop(p.loose, i), sunk := p.sunk + [fp], severed := p.severed + [fp]))
      else s
  }

  // ---------------------------------------------------------------- runs

  datatype Event =
    | ESource(source: SourceEvent) | EPrep(prep: PrepEvent) | EAuth(auth: AuthEvent) | EComp(comp: CompEvent)
    | EControl(control: ControlEvent)

  function Step(s: Sys, e: Event): Sys
  {
    if s.flags.settled && !e.EControl? then s
    else
    match e
    case ESource(x) => SourceStep(s, x)
    case EPrep(x) => PrepStep(s, x)
    case EAuth(x) => AuthStep(s, x)
    case EComp(x) => CompStep(s, x)
    case EControl(x) => ControlStep(s, x)
  }

  function Run(s: Sys, es: seq<Event>): Sys
    decreases |es|
  {
    if es == [] then s else Run(Step(s, es[0]), es[1..])
  }

  /** The first process on a new ledger. */
  function Launch(base: real, interval: real, start: real): Sys
  {
    Booted(L.Blankbook, Past([], [], [], [], [], [], map[], map[]), base, interval, start)
  }
}
