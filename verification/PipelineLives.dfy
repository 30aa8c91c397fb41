/** When the pipeline's tasks move and where to, and what the operator's switches do. */
module PipelineLives {
  import opened Prelude
  import L = LedgerBook
  import G = RateGate
  import P = Pacing
  import opened Pipeline
  import opened PipelinePlaces
  import opened PipelineGate
  import opened PipelineTheorems
  import opened PipelineMoves

  // ---------------------------------------------------------------- the operator

  /** Which switches the event turns, and what it does to the clock. */
  predicate Switched(s: Sys, e: Event, t: Sys)
  {
    var (f, g) := (s.flags, t.flags);
    && (g.paused <==> e == EControl(Pause) || (f.paused && e != EControl(Resume) && e != EControl(Stop)))
    && (g.stopping <==> f.stopping || e == EControl(Stop))
    && (g.interrupted ==> f.interrupted || (f.stopping && (e == EControl(Interrupt) || e == EComp(StoreCancelled))))
    && (f.interrupted || (f.stopping && e == EControl(Interrupt)) ==> g.interrupted)
    && (g.settled <==> f.settled || (e == EControl(Settle) && f.stopping && !f.interrupted && s.gate.g.closed
                                     && Gathered(s.at)))
    && t.clock == if e.EControl? && e.control.Tick? then s.clock + MaxR(0.0, e.control.d) else s.clock
  }

  /** The service is paused by the operator, until it is resumed or stopped; stopping, it stays so; only time
      makes the clock go on; and the shutdown has returned once every task has ended behind a closed gate and
      the shutdown itself has not been cancelled. */
  lemma SwitchesHold(s: Sys, e: Event)
    requires !(e.EControl? && e.control.Boot?)
    ensures Switched(s, e, Step(s, e))
  {
    hide SourceStep, PrepStep, AuthStep, CompStep, ControlStep, Switched, SameSwitches, SwitchedBy;
    if s.flags.settled && !e.EControl? {
      SwitchNone(s, e);
    } else {
      match e
      case ESource(x) =>
        SwitchSource(s, x);
        SwitchQuiet(s, e, Step(s, e));
      case EPrep(x) =>
        SwitchPrep(s, x);
        SwitchQuiet(s, e, Step(s, e));
      case EAuth(x) =>
        SwitchAuth(s, x);
        SwitchQuiet(s, e, Step(s, e));
      case EComp(x) =>
        SwitchComp(s, x);
        SwitchBySever(s, x, CompStep(s, x));
      case EControl(x) => SwitchControl(s, x);
    }
  }

  lemma SwitchNone(s: Sys, e: Event)
    requires !e.EControl?
    ensures Switched(s, e, s)
  {
  }

  lemma SwitchQuiet(s: Sys, e: Event, t: Sys)
    requires !e.EControl? && SameSwitches(s, t)
    ensures Switched(s, e, t)
  {
  }

  lemma SwitchBySever(s: Sys, e: CompEvent, t: Sys)
    requires SwitchedBy(s, e, t)
    ensures Switched(s, EComp(e), t)
  {
  }

  lemma SwitchControl(s: Sys, e: ControlEvent)
    requires !e.Boot?
    ensures Switched(s, EControl(e), ControlStep(s, e))
  {
    hide L.Finish, L.StartJob, Settled, Gathered, G.Apply, Booted, Cancelled;
    SettledSwitches(s);
  }

  /** What the tasks leave of the switches. */
  predicate SameSwitches(s: Sys, t: Sys) { SameButInterrupt(s, t) && t.flags.interrupted == s.flags.interrupted }

  predicate SameButInterrupt(s: Sys, t: Sys)
  {
    && t.flags.paused == s.flags.paused && t.flags.stopping == s.flags.stopping && t.flags.settled == s.flags.settled
    && t.clock == s.clock
  }

  lemma SettledSwitches(s: Sys)
    ensures Settled(s).flags == s.flags.(settled := true) && Settled(s).clock == s.clock
    ensures SameSwitches(s, Cancelled(s).0)
  {
    hide FinishAll, L.RecoverPending;
  }

  lemma SwitchSource(s: Sys, e: SourceEvent)
    ensures SameSwitches(s, SourceStep(s, e))
  {
    hide IsFirst, Drop;
  }

  lemma SwitchPrep(s: Sys, e: PrepEvent)
    ensures SameSwitches(s, PrepStep(s, e))
  {
    hide L.Finish, L.StartJob, Fail;
    if s.at.prep.PFlow? {
      OwnFail(s, s.at.prep.job, L.SourceInvalid, "device_flow_invalid", NoRetry);
      OwnFail(s, s.at.prep.job, L.TransportFailed, "device_flow_failed", Transient);
    }
  }

  lemma SwitchParked(s: Sys, t: Sys, job: Job, status: L.JobStatus, reason: string, retry: Retry)
    requires SameSwitches(s, t)
    ensures SameSwitches(s, Parked(Fail(t, job, status, reason, retry), job.fp))
  {
    hide Fail;
    OwnFail(t, job, status, reason, retry);
  }

  lemma SwitchConfirm(s: Sys, o: Outcome)
    requires s.at.auth.AConfirm?
    ensures SameSwitches(s, ConfirmStep(s, s.at.auth.job, s.at.auth.probe, o))
  {
    hide Fail, Parked, G.Apply, G.Limit, P.Succeeded, P.Limited;
    var job, probe := s.at.auth.job, s.at.auth.probe;
    var (status, reason, retry) := Verdict(o);
    SwitchParked(s, Gate(s, G.CallLimit(probe)), job, status, reason, retry);
    SwitchParked(s, Gate(s, G.CallLimit(probe)).(pacer := P.Limited(s.pacer)), job, status, reason, retry);
    SwitchParked(s, Gate(s, G.CallShrug(probe)), job, status, reason, retry);
  }

  lemma SwitchEnd(s: Sys)
    requires HoldsJob(s.at.auth)
    ensures SameSwitches(s, AuthCancel(s)) && SameSwitches(s, AlreadyImported(s, s.at.auth.job, ProbeOf(s.at.auth)))
    ensures s.at.auth.AGate? ==> SameSwitches(s, PermitStep(s))
  {
    hide L.Finish, G.Apply, G.Ask;
  }

  lemma SwitchAuth(s: Sys, e: AuthEvent)
    ensures SameSwitches(s, AuthStep(s, e))
  {
    hide Fail, G.Apply, L.HasImported, L.MarkStarted, P.Delay, ConfirmStep, PermitStep, AuthCancel, AlreadyImported,
      Parked;
    var a := s.at.auth;
    if HoldsJob(a) {
      SwitchEnd(s);
    }
    if e.Confirmed? && a.AConfirm? {
      SwitchConfirm(s, e.o);
    } else if a.AFlow? {
      SwitchParked(s, Gate(s, G.CallShrug(a.probe)), a.job, L.SourceInvalid, "device_flow_invalid", NoRetry);
      SwitchParked(s, Gate(s, G.CallShrug(a.probe)), a.job, L.TransportFailed, "device_flow_refresh_failed", Transient);
    }
  }

  lemma SwitchFails(s: Sys, e: CompEvent, status: L.JobStatus, reason: string, retry: Retry)
    requires CompHolds(s.at.comp)
    ensures SwitchedBy(s, e, CompParked(Fail(s, s.at.comp.job, status, reason, retry), s.at.comp.job.fp))
  {
    hide Fail;
    OwnFail(s, s.at.comp.job, status, reason, retry);
  }

  /** The event makes the task fail, with its row. */
  predicate CompFails(c: Comp, e: CompEvent)
  {
    ((e.PollRefused? || e.PollFailed? || e.SinkMissing?) && c.CPoll?) || (e.StoreFailed? && c.CStore?)
  }

  predicate SwitchedBy(s: Sys, e: CompEvent, t: Sys)
  {
    && SameButInterrupt(s, t)
    && (s.flags.interrupted ==> t.flags.interrupted)
    && (t.flags.interrupted ==> s.flags.interrupted || (s.flags.stopping && e.StoreCancelled?))
  }

  lemma SwitchComp(s: Sys, e: CompEvent)
    ensures SwitchedBy(s, e, CompStep(s, e))
  {
    hide CompStep, SwitchedBy;
    if CompFails(s.at.comp, e) {
      SwitchFailed(s, e);
    } else if e.CompCancelled? || e.StoreCancelled? {
      SwitchCancels(s, e);
    } else {
      SwitchGoesOn(s, e);
    }
  }

  lemma SwitchCancels(s: Sys, e: CompEvent)
    requires e.CompCancelled? || e.StoreCancelled?
    ensures SwitchedBy(s, e, CompStep(s, e))
  {
    hide L.Finish;
  }

  lemma SwitchGoesOn(s: Sys, e: CompEvent)
    requires !CompFails(s.at.comp, e) && !e.CompCancelled? && !e.StoreCancelled?
    ensures SwitchedBy(s, e, CompStep(s, e))
  {
    hide L.Finish, Fail, CompParked;
  }

  lemma SwitchFailed(s: Sys, e: CompEvent)
    requires CompFails(s.at.comp, e)
    ensures SwitchedBy(s, e, CompStep(s, e))
  {
    hide CompParked, Fail, RefusalOf, SameSwitches;
    SwitchIdle(s, e);
    if !s.flags.compDoomed {
      match e
      case PollRefused(why) => SwitchFails(s, e, RefusalOf(why).0, RefusalOf(why).1, NoRetry);
      case PollFailed(reason) => SwitchFails(s, e, L.TransportFailed, reason, Transient);
      case SinkMissing => SwitchFails(s, e, L.SinkFailed, "sink_unconfigured", NoRetry);
      case _ => SwitchFails(s, e, L.SinkFailed, "sink_failed", Transient);
    }
  }

  lemma SwitchIdle(s: Sys, e: CompEvent)
    ensures SwitchedBy(s, e, s)
  {
  }

  // ---------------------------------------------------------------- the prepare worker

  /** When an event of the worker moves it: a put waits exactly while the queue is full. */
  predicate PrepReady(s: Sys, e: PrepEvent)
  {
    match e
    case TakeSlot => s.at.prep.PIdle? && s.flags.slot
    case TakeSource => s.at.prep.PWant? && s.at.sourceQ != []
    case FlowOk => s.at.prep.PFlow?
    case FlowInvalid => s.at.prep.PFlow?
    case FlowFailed => s.at.prep.PFlow?
    case PutPrepared => s.at.prep.PPut? && s.at.preparedQ == []
    case PrepParks => s.at.prep.PPark?
    case PrepCancelled => s.flags.stopping && !s.at.prep.PDead?
  }

  predicate PrepTurn(e: PrepEvent, p: Prep, q: Prep)
  {
    match q
    case PIdle => (e.PutPrepared? && p.PPut?) || (e.PrepParks? && p.PPark?)
                  || ((e.FlowInvalid? || e.FlowFailed?) && p.PFlow?)
    case PWant => e.TakeSlot? && p.PIdle?
    case PFlow(_) => e.TakeSource? && p.PWant?
    case PPut(job) => e.FlowOk? && p == PFlow(job)
    case PPark(fp, _) => e.FlowFailed? && p.PFlow? && p.job.fp == fp
    case PDead => e.PrepCancelled?
  }

  predicate PrepTurns(s: Sys, e: PrepEvent, t: Sys)
  {
    var p := s.at.prep;
    && (t != s <==> PrepReady(s, e)) && (t != s ==> t.at.prep != p && PrepTurn(e, p, t.at.prep))
    && (t.flags.slot <==> (s.flags.slot && !(p.PIdle? && e.TakeSlot?))
                          || (t.at.prep.PIdle? && (p.PFlow? || p.PPark?)))
  }

  /** The prepare worker moves exactly when its event is possible, and then to the next of its stages; it takes
      the slot for each round, and gives it back when it goes round without a prepared job. */
  lemma PrepInOrder(s: Sys, e: PrepEvent)
    requires Reachable(s) && !s.flags.settled
    ensures PrepTurns(s, e, Step(s, EPrep(e)))
  {
    ReachableInv(s);
    PrepFacts(s);
    hide Inv, Reachable, PrepStep, PrepTurns;
    PrepStages(s, e);
  }

  lemma PrepStages(s: Sys, e: PrepEvent)
    requires s.at.prep.PPut? ==> s.at.preparedQ == []
    ensures PrepTurns(s, e, PrepStep(s, e))
  {
    hide L.Finish, L.StartJob, Fail;
    if s.at.prep.PFlow? {
      OwnFail(s, s.at.prep.job, L.SourceInvalid, "device_flow_invalid", NoRetry);
      OwnFail(s, s.at.prep.job, L.TransportFailed, "device_flow_failed", Transient);
    }
  }

  lemma PrepFacts(s: Sys)
    requires Inv(s)
    ensures s.at.prep.PPut? ==> s.at.preparedQ == []
  {
  }

  // ---------------------------------------------------------------- the authorization task

  predicate AuthReady(s: Sys, e: AuthEvent)
  {
    var (a, g) := (s.at.auth, s.gate.g);
    if e.AuthCancelled? then s.flags.authDoomed || (s.flags.stopping && !a.ADead?)
    else
      && !s.flags.authDoomed
      && match e
         case TakePrepared => a.AIdle? && s.at.preparedQ != []
         case Begin => a.ANew?
         case Paced => a.APace? && s.clock >= a.wake && !s.flags.paused
         case Permit =>
           a.AGate? && (g.closed || (!s.flags.paused && (g.trippedAt.None? || s.clock >= g.nextProbeAt)))
         case RefreshInvalid => a.AFlow?
         case RefreshFailed => a.AFlow?
         case Start => a.AFlow? && !s.flags.paused
         case Confirmed(_) => a.AConfirm?
         case PutCompletion => a.APut? && |s.at.completionQ| < 2
         case AuthParks => a.APark?
         case AuthCancelled => false
  }

  predicate AuthTurn(e: AuthEvent, a: Auth, b: Auth)
  {
    match b
    case AIdle =>
      || (e.PutCompletion? && a.APut?) || (e.AuthParks? && a.APark?)
      || ((e.RefreshInvalid? || e.RefreshFailed?) && a.AFlow?)
      || (e.Confirmed? && !e.o.Authorized? && a.AConfirm?) || (e.Paced? && a.APace?) || (e.Start? && a.AFlow?)
    case ANew(_) => e.TakePrepared? && a.AIdle?
    case APace(job, _) => e.Begin? && a == ANew(job)
    case AGate(job) => e.Paced? && a.APace? && a.job == job
    case AFlow(job, _) => e.Permit? && a == AGate(job)
    case AConfirm(job, probe) => e.Start? && a == AFlow(job, probe)
    case APut(job) => e == Confirmed(Authorized) && a.AConfirm? && a.job == job
    case APark(fp, _) =>
      && HoldsJob(a) && a.job.fp == fp
      && ((e.RefreshFailed? && a.AFlow?) || (e.Confirmed? && !e.o.Authorized? && a.AConfirm?) || e.AuthCancelled?)
    case ADead => e.AuthCancelled? || (e.Permit? && a.AGate?)
  }

  predicate AuthTurns(s: Sys, e: AuthEvent, t: Sys)
  {
    && (t.at.auth != s.at.auth <==> AuthReady(s, e))
    && (t.at.auth != s.at.auth ==> AuthTurn(e, s.at.auth, t.at.auth))
    && (t.at.auth.ADead? ==> s.at.auth.ADead? || s.flags.stopping)
    && (t.flags.authDoomed <==> s.flags.authDoomed && !e.AuthCancelled?)
  }

  /** The authorization task moves exactly when its event is possible, and then to the next of its stages; it is
      doomed until the cancellation reaches it, and ends only in a shutdown. */
  lemma AuthInOrder(s: Sys, e: AuthEvent)
    requires Reachable(s) && !s.flags.settled
    ensures AuthTurns(s, e, Step(s, EAuth(e)))
  {
    ReachableInv(s);
    AuthFacts(s);
    hide Inv, Reachable, AuthStep, AuthTurns;
    AuthStages(s, e);
  }

  lemma AuthStages(s: Sys, e: AuthEvent)
    requires s.flags.authDoomed ==> Cancellable(s.at.auth)
    requires s.at.auth.AGate? ==> s.gate.g.probe.None?
    requires s.gate.g.closed ==> s.flags.stopping
    ensures AuthTurns(s, e, AuthStep(s, e))
  {
    hide AuthTurns;
    var a := s.at.auth;
    if e.AuthCancelled? {
      hide AuthStep;
      CancelStage(s);
    } else if s.flags.authDoomed {
      DoomedStage(s, e);
    } else if e.Permit? && a.AGate? {
      hide PermitStep;
      PermitStage(s);
    } else if e.Confirmed? && a.AConfirm? {
      hide ConfirmStep;
      ConfirmStage(s, e.o);
    } else if a.AFlow? {
      hide AuthStep;
      FlowStage(s, e);
    } else {
      hide AuthStep;
      PlainStage(s, e);
    }
  }

  lemma DoomedStage(s: Sys, e: AuthEvent)
    requires !e.AuthCancelled? && s.flags.authDoomed
    ensures AuthTurns(s, e, s)
  {
  }

  lemma CancelStage(s: Sys)
    requires s.flags.authDoomed ==> Cancellable(s.at.auth)
    ensures AuthTurns(s, AuthCancelled, AuthStep(s, AuthCancelled))
  {
    hide AuthCancel;
    if HoldsJob(s.at.auth) {
      EndStages(s);
    }
  }

  lemma FlowStage(s: Sys, e: AuthEvent)
    requires !e.AuthCancelled? && !s.flags.authDoomed && s.at.auth.AFlow?
    ensures AuthTurns(s, e, AuthStep(s, e))
  {
    hide Fail, G.Apply, L.HasImported, L.MarkStarted, AlreadyImported, Parked;
    var a := s.at.auth;
    EndStages(s);
    ParkedStage(s, Gate(s, G.CallShrug(a.probe)), a.job, L.SourceInvalid, "device_flow_invalid", NoRetry);
    ParkedStage(s, Gate(s, G.CallShrug(a.probe)), a.job, L.TransportFailed, "device_flow_refresh_failed", Transient);
  }

  lemma PlainStage(s: Sys, e: AuthEvent)
    requires !e.AuthCancelled? && !s.flags.authDoomed && !s.at.auth.AFlow?
    requires !(e.Permit? && s.at.auth.AGate?) && !(e.Confirmed? && s.at.auth.AConfirm?)
    ensures AuthTurns(s, e, AuthStep(s, e))
  {
    hide G.Apply, L.HasImported, P.Delay, AlreadyImported;
    if HoldsJob(s.at.auth) {
      EndStages(s);
    }
  }

  lemma AuthFacts(s: Sys)
    requires Inv(s)
    ensures s.flags.authDoomed ==> Cancellable(s.at.auth)
    ensures s.at.auth.AGate? ==> s.gate.g.probe.None?
    ensures s.gate.g.closed ==> s.flags.stopping
  {
  }

  lemma EndStages(s: Sys)
    requires HoldsJob(s.at.auth)
    ensures var t := AuthCancel(s);
            && !t.flags.authDoomed
            && if s.flags.stopping then t.at.auth.ADead? else t.at.auth.APark? && t.at.auth.fp == s.at.auth.job.fp
    ensures var t := AlreadyImported(s, s.at.auth.job, ProbeOf(s.at.auth));
            t.at.auth.AIdle? && t.flags == s.flags
  {
    hide L.Finish, G.Apply;
  }

  lemma PermitStage(s: Sys)
    requires s.at.auth.AGate? && s.gate.g.probe.None? && !s.flags.authDoomed
    requires s.gate.g.closed ==> s.flags.stopping
    ensures AuthTurns(s, Permit, PermitStep(s))
  {
    hide L.Finish;
  }

  lemma ParkedStage(s: Sys, t: Sys, job: Job, status: L.JobStatus, reason: string, retry: Retry)
    requires t.flags == s.flags
    ensures var u := Parked(Fail(t, job, status, reason, retry), job.fp);
            && u.flags == s.flags && (u.at.auth.AIdle? || (u.at.auth.APark? && u.at.auth.fp == job.fp))
            && (retry.NoRetry? ==> u.at.auth.AIdle?)
  {
    hide Fail;
    OwnFail(t, job, status, reason, retry);
  }

  lemma ConfirmStage(s: Sys, o: Outcome)
    requires s.at.auth.AConfirm? && !s.flags.authDoomed
    ensures AuthTurns(s, Confirmed(o), ConfirmStep(s, s.at.auth.job, s.at.auth.probe, o))
  {
    hide Fail, Parked, G.Apply, G.Limit, P.Succeeded, P.Limited;
    var job, probe := s.at.auth.job, s.at.auth.probe;
    var (status, reason, retry) := Verdict(o);
    ParkedStage(s, Gate(s, G.CallLimit(probe)), job, status, reason, retry);
    ParkedStage(s, Gate(s, G.CallLimit(probe)).(pacer := P.Limited(s.pacer)), job, status, reason, retry);
    ParkedStage(s, Gate(s, G.CallShrug(probe)), job, status, reason, retry);
  }

  // ---------------------------------------------------------------- the completion task

  predicate CompReady(s: Sys, e: CompEvent)
  {
    var c := s.at.comp;
    if e.CompCancelled? then s.flags.compDoomed || (s.flags.stopping && !StoreOn(s) && !c.CDead?)
    else
      && !s.flags.compDoomed
      && match e
         case TakeCompletion => c.CIdle? && s.at.completionQ != []
         case BeginPoll => c.CNew?
         case Polled => c.CPoll?
         case PollRefused(_) => c.CPoll?
         case PollFailed(_) => c.CPoll?
         case SinkMissing => c.CPoll?
         case StoreCancelled => s.flags.stopping && (c.CStore? || (c.CStored? && (c.bare || !c.cancelled)))
         case StoreFailed => c.CStore?
         case Sunk(_) => c.CStore?
         case Commit => c.CStored?
         case CompParks => c.CPark?
         case CompCancelled => false
  }

  predicate CompTurn(s: Sys, e: CompEvent, c: Comp, d: Comp)
  {
    match d
    case CIdle =>
      || (e.CompParks? && c.CPark?) || (e.Commit? && c.CStored? && !(c.cancelled && s.flags.stopping))
      || ((e.PollRefused? || e.PollFailed? || e.SinkMissing?) && c.CPoll?) || (e.StoreFailed? && c.CStore?)
    case CNew(_) => e.TakeCompletion? && c.CIdle?
    case CPoll(job) => e.BeginPoll? && c == CNew(job)
    case CStore(job, cancelled) =>
      if cancelled then e.StoreCancelled? && c == CStore(job, false) else e.Polled? && c == CPoll(job)
    case CStored(job, receipt, bare, cancelled) =>
      || (e == Sunk(receipt) && c == CStore(job, cancelled) && bare == cancelled)
      || (e.StoreCancelled? && c == CStored(job, receipt, bare, false) && cancelled && !bare)
    case CPark(fp, _) =>
      && CompHolds(c) && c.job.fp == fp
      && ((e.PollFailed? && c.CPoll?) || (e.StoreFailed? && c.CStore?) || (e.CompCancelled? && c.CPoll?))
    case CDead => e.CompCancelled? || (e.StoreCancelled? && Severs(c)) || (e.Commit? && c.CStored? && c.cancelled)
  }

  predicate CompTurns(s: Sys, e: CompEvent, t: Sys)
  {
    && (t.at.comp != s.at.comp <==> CompReady(s, e))
    && (t.at.comp != s.at.comp ==> CompTurn(s, e, s.at.comp, t.at.comp))
    && (t.at.comp.CDead? ==> s.at.comp.CDead? || s.flags.stopping)
    && (t.flags.compDoomed <==> s.flags.compDoomed && !e.CompCancelled?)
  }

  /** The completion task moves exactly when its event is possible, and then to the next of its stages; a
      cancellation during the store is noted once, and ends the task after the commit. */
  lemma CompInOrder(s: Sys, e: CompEvent)
    requires Reachable(s) && !s.flags.settled
    ensures CompTurns(s, e, Step(s, EComp(e)))
  {
    ReachableInv(s);
    CompFacts(s);
    hide Inv, Reachable, CompStep, CompTurns;
    CompStages(s, e);
  }

  lemma CompStages(s: Sys, e: CompEvent)
    requires s.flags.compDoomed ==> s.at.comp.CPoll?
    ensures CompTurns(s, e, CompStep(s, e))
  {
    hide L.Finish, CompParked, Fail;
    if CompFails(s.at.comp, e) && !s.flags.compDoomed {
      hide CompTurns;
      FailStage(s, e);
    } else if e.StoreCancelled? || e.CompCancelled? {
      hide CompStep;
      CompCancelStage(s, e);
    }
  }

  lemma CompCancelStage(s: Sys, e: CompEvent)
    requires s.flags.compDoomed ==> s.at.comp.CPoll?
    requires e.StoreCancelled? || e.CompCancelled?
    ensures CompTurns(s, e, CompStep(s, e))
  {
    hide L.Finish;
  }

  lemma ParkedComp(s: Sys, job: Job, status: L.JobStatus, reason: string, retry: Retry)
    ensures var u := CompParked(Fail(s, job, status, reason, retry), job.fp);
            && u.flags == s.flags && (u.at.comp.CIdle? || (u.at.comp.CPark? && u.at.comp.fp == job.fp))
            && (retry.NoRetry? ==> u.at.comp.CIdle?)
  {
    hide Fail;
    OwnFail(s, job, status, reason, retry);
  }

  lemma FailStage(s: Sys, e: CompEvent)
    requires !s.flags.compDoomed && CompFails(s.at.comp, e)
    ensures CompTurns(s, e, CompStep(s, e))
  {
    hide CompParked, Fail, RefusalOf;
    var job := s.at.comp.job;
    match e
    case PollRefused(why) => ParkedComp(s, job, RefusalOf(why).0, RefusalOf(why).1, NoRetry);
    case PollFailed(reason) => ParkedComp(s, job, L.TransportFailed, reason, Transient);
    case SinkMissing => ParkedComp(s, job, L.SinkFailed, "sink_unconfigured", NoRetry);
    case _ => ParkedComp(s, job, L.SinkFailed, "sink_failed", Transient);
  }

  lemma CompFacts(s: Sys)
    requires Inv(s)
    ensures s.flags.compDoomed ==> s.at.comp.CPoll?
  {
  }

  // ---------------------------------------------------------------- what is forgotten

  /** A source that becomes imported has no retry count any more, and the counts of all others are as before. */
  lemma ImportForgets(s: Sys, e: Event, fp: string, other: string)
    requires Reachable(s) && !(e.EControl? && e.control.Boot?)
    requires InState(Step(s, e).mem, fp, Imported) && !InState(s.mem, fp, Imported)
    ensures Get(Step(s, e).mem.retries, fp) == 0
    ensures other != fp ==> Get(Step(s, e).mem.retries, other) == Get(s.mem.retries, other)
  {
    StatesMoveAlong(s, e, fp);
    hide Reachable, L.Finish, G.Apply, Fail, L.HasImported;
  }
}
