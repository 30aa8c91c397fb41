/** The authorization task against the rate gate and the pacer, and the bounded queues. */
module PipelineGate {
  import opened Prelude
  import L = LedgerBook
  import G = RateGate
  import P = Pacing
  import opened Pipeline
  import opened PipelinePlaces

  // ---------------------------------------------------------------- the gate

  /** A task with permission: it holds the gate's current probe, unless the gate is closed, or it was let
      through an open gate that is open still. */
  ghost predicate Permitted(a: Auth, w: G.Watched, clock: real)
  {
    a.AFlow? || a.AConfirm? ==>
      if a.probe.None? then w.g.trippedAt.None?
      else (w.g.closed || w.g.probe == a.probe) && (w.g.trippedAt.Some? ==> clock >= w.g.nextProbeAt)
  }

  ghost predicate Gated(s: Sys)
  {
    && G.Sound(s.gate)
    && (s.gate.g.closed ==> s.flags.stopping)
    && (s.gate.g.probe.Some? ==> ProbeOf(s.at.auth) == s.gate.g.probe)
    && Permitted(s.at.auth, s.gate, s.clock)
  }

  /** The call is the report of an outcome with this probe. */
  predicate Reports(call: G.Call, probe: Option<nat>)
  {
    call == G.CallLimit(probe) || call == G.CallClear(probe) || call == G.CallShrug(probe)
  }

  /** An outcome reported by the task with permission leaves no probe current. */
  lemma ReportRetires(w: G.Watched, a: Auth, call: G.Call, clock: real)
    requires G.Sound(w) && Permitted(a, w, clock) && Reports(call, ProbeOf(a))
    requires w.g.probe.Some? ==> ProbeOf(a) == w.g.probe
    ensures var v := G.Apply(w, call, clock);
            G.Sound(v) && v.g.probe.None? && v.g.closed == w.g.closed && v.g.base == w.g.base
  {
    G.SoundStep(w, call, clock);
    hide G.Cooled, G.Deserved;
  }

  /** The task reports and has no permission afterwards. */
  lemma GatedAfterReport(s: Sys, t: Sys, call: G.Call)
    requires Gated(s) && Reports(call, ProbeOf(s.at.auth))
    requires t.gate == G.Apply(s.gate, call, s.clock) && t.clock == s.clock && t.flags.stopping == s.flags.stopping
    requires ProbeOf(t.at.auth) == None && !t.at.auth.AFlow? && !t.at.auth.AConfirm?
    ensures Gated(t)
  {
    ReportRetires(s.gate, s.at.auth, call, s.clock);
    hide G.Sound, G.Apply;
  }

  lemma GatedSame(s: Sys, t: Sys)
    requires Gated(s) && t.gate == s.gate && t.clock >= s.clock && (s.flags.stopping ==> t.flags.stopping)
    requires ProbeOf(t.at.auth) == ProbeOf(s.at.auth)
    requires t.at.auth.AFlow? || t.at.auth.AConfirm? ==> s.at.auth.AFlow? || s.at.auth.AConfirm?
    ensures Gated(t)
  {
    hide G.Sound;
  }

  lemma GatedParked(s: Sys, t: Sys, call: G.Call, status: L.JobStatus, reason: string, retry: Retry)
    requires Gated(s) && HoldsJob(s.at.auth) && Reports(call, ProbeOf(s.at.auth))
    requires t.gate == G.Apply(s.gate, call, s.clock) && t.clock == s.clock && t.flags == s.flags && t.at == s.at
    ensures Gated(Parked(Fail(t, s.at.auth.job, status, reason, retry), s.at.auth.job.fp))
  {
    hide Fail, Gated, G.Apply;
    OwnFail(t, s.at.auth.job, status, reason, retry);
    GatedAfterReport(s, Parked(Fail(t, s.at.auth.job, status, reason, retry), s.at.auth.job.fp), call);
  }

  lemma GatedConfirm(s: Sys, o: Outcome)
    requires Gated(s) && s.at.auth.AConfirm?
    ensures Gated(ConfirmStep(s, s.at.auth.job, s.at.auth.probe, o))
  {
    hide Fail, Gated, Verdict, Parked, G.Apply, G.Limit, P.Succeeded, P.Limited;
    var job, probe := s.at.auth.job, s.at.auth.probe;
    if o.Authorized? {
      GatedAfterReport(s, ConfirmStep(s, job, probe, o), G.CallClear(probe));
    } else {
      var (status, reason, retry) := Verdict(o);
      GatedParked(s, Gate(s, G.CallLimit(probe)), G.CallLimit(probe), status, reason, retry);
      GatedParked(s, Gate(s, G.CallLimit(probe)).(pacer := P.Limited(s.pacer)), G.CallLimit(probe), status, reason,
        retry);
      GatedParked(s, Gate(s, G.CallShrug(probe)), G.CallShrug(probe), status, reason, retry);
    }
  }

  lemma GatedCancel(s: Sys)
    requires Gated(s) && HoldsJob(s.at.auth)
    ensures Gated(AuthCancel(s))
  {
    hide Gated, G.Apply, L.Finish;
    GatedAfterReport(s, AuthCancel(s), G.CallShrug(ProbeOf(s.at.auth)));
  }

  lemma GatedImported(s: Sys)
    requires Gated(s) && HoldsJob(s.at.auth)
    ensures Gated(AlreadyImported(s, s.at.auth.job, ProbeOf(s.at.auth)))
  {
    hide Gated, G.Apply, L.Finish;
    GatedAfterReport(s, AlreadyImported(s, s.at.auth.job, ProbeOf(s.at.auth)), G.CallShrug(ProbeOf(s.at.auth)));
  }

  /** One turn at the gate: a grant makes the task the holder of the current probe, at a time not before
      the next probe is due; an open gate lets it through with none. */
  lemma GatedPermit(s: Sys)
    requires Gated(s) && s.at.auth.AGate?
    ensures Gated(PermitStep(s))
  {
    var t := Gate(s, G.CallAsk(!s.flags.paused));
    G.SoundStep(s.gate, G.CallAsk(!s.flags.paused), s.clock);
    hide G.Sound, G.Deserved;
    match G.Ask(s.gate.g, !s.flags.paused, s.clock).1
    case Refused =>
      assert t.gate == s.gate && Gated(t);
      hide AuthCancel;
      GatedCancel(t);
    case Wait =>
    case Open => AskIsSound(s);
    case Probe(token) =>
  }

  lemma AskIsSound(s: Sys)
    requires G.Sound(s.gate) && s.gate.g.trippedAt.None?
    ensures s.gate.g.probe.None?
  {
    hide G.Deserved;
  }

  lemma GatedAuth(s: Sys, e: AuthEvent)
    requires Gated(s)
    ensures Gated(AuthStep(s, e))
  {
    hide Gated, Fail, G.Apply, L.HasImported, L.MarkStarted, P.Delay, ConfirmStep, PermitStep, AuthCancel,
      AlreadyImported, Parked;
    var a, t := s.at.auth, AuthStep(s, e);
    if HoldsJob(a) {
      GatedCancel(s);
      GatedImported(s);
    }
    if e.Permit? && a.AGate? {
      GatedPermit(s);
    } else if e.Confirmed? && a.AConfirm? {
      GatedConfirm(s, e.o);
    } else if e.RefreshInvalid? && a.AFlow? {
      var call := G.CallShrug(a.probe);
      GatedParked(s, Gate(s, call), call, L.SourceInvalid, "device_flow_invalid", NoRetry);
    } else if e.RefreshFailed? && a.AFlow? {
      var call := G.CallShrug(a.probe);
      GatedParked(s, Gate(s, call), call, L.TransportFailed, "device_flow_refresh_failed", Transient);
    } else if e.AuthCancelled? {
      if !HoldsJob(a) || a.ANew? || !(s.flags.authDoomed || s.flags.stopping) {
        GatedSame(s, t);
      }
    } else if !((e.Paced? || e.Start?) && HoldsJob(a) && L.HasImported(s.book.jobs, a.job.fp)) {
      GatedSame(s, t);
    }
  }

  lemma GatedOthers(s: Sys, e: Event)
    requires Gated(s) && (e.ESource? || e.EPrep? || e.EComp?)
    ensures Gated(Step(s, e))
  {
    hide Gated, SourceStep, PrepStep, CompStep;
    LeavesGate(s, e);
    GatedSame(s, Step(s, e));
  }

  predicate SameGate(s: Sys, t: Sys)
  {
    && t.gate == s.gate && t.pacer == s.pacer && t.clock == s.clock && t.at.auth == s.at.auth
    && t.flags.stopping == s.flags.stopping
  }

  lemma LeavesGatePrep(s: Sys, e: PrepEvent)
    ensures SameGate(s, PrepStep(s, e))
  {
    hide L.Finish, L.StartJob, Fail;
    if s.at.prep.PFlow? {
      OwnFail(s, s.at.prep.job, L.SourceInvalid, "device_flow_invalid", NoRetry);
      OwnFail(s, s.at.prep.job, L.TransportFailed, "device_flow_failed", Transient);
    }
  }

  lemma LeavesGateComp(s: Sys, e: CompEvent)
    ensures SameGate(s, CompStep(s, e))
  {
    hide L.Finish, Fail;
    var c := s.at.comp;
    if CompHolds(c) {
      OwnFail(s, c.job, L.TransportFailed, if e.PollFailed? then e.reason else "", Transient);
      OwnFail(s, c.job, L.SinkFailed, "sink_unconfigured", NoRetry);
      OwnFail(s, c.job, L.SinkFailed, "sink_failed", Transient);
      if e.PollRefused? {
        OwnFail(s, c.job, RefusalOf(e.why).0, RefusalOf(e.why).1, NoRetry);
      }
    }
  }

  lemma LeavesGateSource(s: Sys, e: SourceEvent)
    ensures SameGate(s, SourceStep(s, e))
  {
    hide IsFirst, Drop;
  }

  /** The other workers touch neither the gate, the pacer, the clock nor the authorization task. */
  lemma LeavesGate(s: Sys, e: Event)
    requires e.ESource? || e.EPrep? || e.EComp?
    ensures SameGate(s, Step(s, e))
  {
    hide SourceStep, PrepStep, CompStep;
    match e
    case ESource(x) => LeavesGateSource(s, x);
    case EPrep(x) => LeavesGatePrep(s, x);
    case EComp(x) => LeavesGateComp(s, x);
    case _ =>
  }

  lemma GatedControl(s: Sys, e: ControlEvent)
    requires Gated(s)
    ensures Gated(ControlStep(s, e))
  {
    hide L.Finish, L.StartJob, L.RecoverPending, L.Reopen, FinishAll, P.Make, ImportedStates;
    match e
    case CloseGate => G.SoundStep(s.gate, G.CallClose, s.clock);
    case Boot(_, _, _) =>
    case _ =>
      hide Gated, Booted, Settled, G.Apply;
      GatedSame(s, ControlStep(s, e));
  }

  lemma GatedStep(s: Sys, e: Event)
    requires Gated(s)
    ensures Gated(Step(s, e))
  {
    hide Gated, SourceStep, PrepStep, AuthStep, CompStep, ControlStep;
    match e
    case EAuth(x) => GatedAuth(s, x);
    case EControl(x) => GatedControl(s, x);
    case _ => GatedOthers(s, e);
  }

  // ---------------------------------------------------------------- the pacer

  /** The live interval is in range; and a task that has waited for it has waited long enough. */
  predicate OnPace(s: Sys)
  {
    && P.InRange(s.pacer)
    && (s.pacer.lastStart.Some? ==> s.pacer.lastStart.value <= s.clock)
    && (s.at.auth.APace? && s.pacer.lastStart.Some? ==> s.at.auth.wake >= s.pacer.lastStart.value + s.pacer.seconds)
    && ((s.at.auth.AGate? || s.at.auth.AFlow?) && s.pacer.lastStart.Some? ==>
          s.clock >= s.pacer.lastStart.value + s.pacer.seconds)
  }

  lemma PacedSame(s: Sys, t: Sys)
    requires OnPace(s) && t.pacer == s.pacer && t.clock >= s.clock
    requires t.at.auth == s.at.auth || (!t.at.auth.APace? && !t.at.auth.AGate? && !t.at.auth.AFlow?)
             || ((s.at.auth.AGate? || s.at.auth.AFlow?) && (t.at.auth.AGate? || t.at.auth.AFlow?))
    ensures OnPace(t)
  {
  }

  lemma PacedParked(s: Sys, t: Sys, status: L.JobStatus, reason: string, retry: Retry)
    requires OnPace(s) && HoldsJob(s.at.auth)
    requires (t.pacer == s.pacer || t.pacer == P.Limited(s.pacer)) && t.clock == s.clock && t.at == s.at
    ensures OnPace(Parked(Fail(t, s.at.auth.job, status, reason, retry), s.at.auth.job.fp))
  {
    hide Fail;
    OwnFail(t, s.at.auth.job, status, reason, retry);
  }

  lemma PacedConfirm(s: Sys, o: Outcome)
    requires OnPace(s) && s.at.auth.AConfirm?
    ensures OnPace(ConfirmStep(s, s.at.auth.job, s.at.auth.probe, o))
  {
    hide Fail, Verdict, Parked, G.Apply, G.Limit;
    var probe := s.at.auth.probe;
    if !o.Authorized? {
      hide OnPace, P.Limited;
      var (status, reason, retry) := Verdict(o);
      PacedParked(s, Gate(s, G.CallLimit(probe)), status, reason, retry);
      PacedParked(s, Gate(s, G.CallLimit(probe)).(pacer := P.Limited(s.pacer)), status, reason, retry);
      PacedParked(s, Gate(s, G.CallShrug(probe)), status, reason, retry);
    }
  }

  lemma PacedPermit(s: Sys)
    requires OnPace(s) && s.at.auth.AGate?
    ensures OnPace(PermitStep(s))
  {
    hide OnPace, P.InRange, G.Apply, G.Ask, L.Finish;
    PacedSame(s, PermitStep(s));
  }

  lemma PacedMoves(s: Sys, e: AuthEvent)
    requires OnPace(s) && (e.Begin? || e.Paced? || e.Start?)
    ensures OnPace(AuthStep(s, e))
  {
    hide L.Finish, L.HasImported, L.MarkStarted, G.Apply;
  }

  lemma PacedAuth(s: Sys, e: AuthEvent)
    requires OnPace(s)
    ensures OnPace(AuthStep(s, e))
  {
    hide OnPace, Fail, G.Apply, ConfirmStep, PermitStep, Parked, L.Finish;
    var a := s.at.auth;
    if e.Begin? || e.Paced? || e.Start? {
      PacedMoves(s, e);
    } else if e.Permit? && a.AGate? {
      PacedPermit(s);
    } else if e.Confirmed? && a.AConfirm? {
      PacedConfirm(s, e.o);
    } else if e.RefreshInvalid? && a.AFlow? {
      PacedParked(s, Gate(s, G.CallShrug(a.probe)), L.SourceInvalid, "device_flow_invalid", NoRetry);
    } else if e.RefreshFailed? && a.AFlow? {
      PacedParked(s, Gate(s, G.CallShrug(a.probe)), L.TransportFailed, "device_flow_refresh_failed", Transient);
    } else {
      PacedSame(s, AuthStep(s, e));
    }
  }

  lemma PacedControl(s: Sys, e: ControlEvent)
    requires OnPace(s)
    ensures OnPace(ControlStep(s, e))
  {
    hide L.Finish, L.StartJob, L.RecoverPending, L.Reopen, FinishAll, ImportedStates, G.Apply;
    if !e.Boot? {
      hide OnPace, Booted, Settled;
      PacedSame(s, ControlStep(s, e));
    }
  }

  lemma PacedStep(s: Sys, e: Event)
    requires OnPace(s)
    ensures OnPace(Step(s, e))
  {
    hide OnPace, SourceStep, PrepStep, AuthStep, CompStep, ControlStep;
    match e
    case EAuth(x) => PacedAuth(s, x);
    case EControl(x) => PacedControl(s, x);
    case _ =>
      LeavesGate(s, e);
      PacedSame(s, Step(s, e));
  }
}
