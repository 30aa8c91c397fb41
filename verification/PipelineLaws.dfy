/** What each event of the pipeline does to the pacer and to the rate gate. */
module PipelineLaws {
  import opened Prelude
  import L = LedgerBook
  import G = RateGate
  import P = Pacing
  import opened Pipeline
  import opened PipelinePlaces
  import opened PipelineHistory
  import opened PipelineGate
  import opened PipelineTheorems

  // ---------------------------------------------------------------- what an event reports

  /** The event brings the outcome of the confirmation under way. */
  predicate Answers(s: Sys, e: Event)
  {
    e.EAuth? && e.auth.Confirmed? && s.at.auth.AConfirm? && !s.flags.authDoomed && !s.flags.settled
  }

  predicate GrantedNow(s: Sys, e: Event) { Answers(s, e) && e.auth.o.Authorized? }

  /** The outcome is a rate limit that counts: the gate is clear, or the task has its current probe. */
  predicate LimitedNow(s: Sys, e: Event)
  {
    && Answers(s, e) && e.auth.o.Reported? && e.auth.o.reason == "rate_limited"
    && (s.gate.g.trippedAt.None? || HasProbe(s))
  }

  /** The authorization task has the gate's current probe. */
  predicate HasProbe(s: Sys) { s.gate.g.probe.Some? && ProbeOf(s.at.auth) == s.gate.g.probe }

  predicate Starts(s: Sys, e: Event) { Step(s, e).at.auth.AConfirm? && !s.at.auth.AConfirm? }

  // ---------------------------------------------------------------- the pacer

  /** The interval and its streak: raised by a rate limit that counts, by the factor and at least to the floor,
      as far as the maximum allows; one more success counted by an authorization, or the interval shortened with
      the fourth; left alone by everything else. Only a start of a confirmation moves the time of the last one. */
  lemma PaceMoves(s: Sys, e: Event)
    requires !(e.EControl? && e.control.Boot?)
    ensures var (p, q) := (s.pacer, Step(s, e).pacer);
            && q.base == p.base && q.max == p.max
            && q.lastStart == (if Starts(s, e) then Some(s.clock) else p.lastStart)
            && if LimitedNow(s, e) then
                 && q.seconds == MinR(p.max, MaxR(1.55 * p.seconds, MaxR(p.base, 18.0))) && q.streak == 0
               else if GrantedNow(s, e) && p.streak >= 3 && p.seconds > p.base then
                 var lower := MaxR(p.base, 0.88 * p.seconds);
                 q.seconds == (if lower <= p.base + 0.05 then p.base else lower) && q.streak == 0
               else if GrantedNow(s, e) then q.seconds == p.seconds && q.streak == p.streak + 1
               else q.seconds == p.seconds && q.streak == p.streak
  {
    hide SourceStep, PrepStep, AuthStep, CompStep, L.Finish, L.StartJob, L.RecoverPending, FinishAll, G.Apply;
    match e
    case EAuth(x) =>
      if !s.flags.settled {
        PaceOfAuth(s, x);
      }
    case EControl(x) =>
    case _ => LeavesGate(s, e);
  }

  /** What the task's step does to the pacer. */
  predicate Paces(s: Sys, e: AuthEvent, q: P.Pacer)
  {
    if e.Confirmed? && s.at.auth.AConfirm? && !s.flags.authDoomed then
      q == if e.o.Authorized? then P.Succeeded(s.pacer)
           else if LimitedNow(s, EAuth(e)) then P.Limited(s.pacer) else s.pacer
    else if AuthStep(s, e).at.auth.AConfirm? && !s.at.auth.AConfirm? then q == s.pacer.(lastStart := Some(s.clock))
    else q == s.pacer
  }

  lemma PaceOfAuth(s: Sys, e: AuthEvent)
    requires !s.flags.settled
    ensures Paces(s, e, AuthStep(s, e).pacer)
    ensures Answers(s, EAuth(e)) ==> !AuthStep(s, e).at.auth.AConfirm?
  {
    hide L.Finish, L.HasImported, L.MarkStarted, Fail, G.Apply, P.Delay, ConfirmStep, Parked, P.Succeeded, P.Limited;
    var a := s.at.auth;
    if e.Confirmed? && a.AConfirm? {
      PaceOfOutcome(s, e.o);
    } else if a.AFlow? {
      PaceParked(Gate(s, G.CallShrug(a.probe)), a.job, L.SourceInvalid, "device_flow_invalid", NoRetry);
      PaceParked(Gate(s, G.CallShrug(a.probe)), a.job, L.TransportFailed, "device_flow_refresh_failed", Transient);
    }
  }

  lemma PaceParked(t: Sys, job: Job, status: L.JobStatus, reason: string, retry: Retry)
    ensures var u := Parked(Fail(t, job, status, reason, retry), job.fp);
            u.pacer == t.pacer && (u.at.auth.APark? || u.at.auth.AIdle?)
  {
    hide Fail;
    OwnFail(t, job, status, reason, retry);
  }

  lemma PaceOfOutcome(s: Sys, o: Outcome)
    requires s.at.auth.AConfirm?
    ensures var t := ConfirmStep(s, s.at.auth.job, s.at.auth.probe, o);
            && !t.at.auth.AConfirm?
            && t.pacer == if o.Authorized? then P.Succeeded(s.pacer)
                          else if o.Reported? && o.reason == "rate_limited"
                                  && (s.gate.g.trippedAt.None? || HasProbe(s)) then P.Limited(s.pacer)
                          else s.pacer
  {
    hide Fail, Parked, G.Apply, G.Cooled, P.Succeeded, P.Limited;
    var job, probe := s.at.auth.job, s.at.auth.probe;
    var (status, reason, retry) := Verdict(o);
    PaceParked(Gate(s, G.CallLimit(probe)), job, status, reason, retry);
    PaceParked(Gate(s, G.CallLimit(probe)).(pacer := P.Limited(s.pacer)), job, status, reason, retry);
    PaceParked(Gate(s, G.CallShrug(probe)), job, status, reason, retry);
  }

  /** A new process paces from its setting, as if it had just started a confirmation, up to eight times that or 90
      seconds. */
  lemma PaceAtBoot(book: L.Book, past: Past, base: real, interval: real, start: real)
    ensures var p := Booted(book, past, base, interval, start).pacer;
            && p.seconds == p.base == MaxR(0.0, interval) && p.max == MaxR(8.0 * p.base, 90.0) && p.streak == 0
            && p.lastStart == if interval > 0.0 then Some(start) else None
  {
    hide L.Reopen, L.RecoverPending, ImportedStates;
  }

  /** The task waits until one interval after the last start, and no longer: from then on, unless paused, it goes
      on to the gate, or gives its job up if the source has been imported meanwhile. */
  lemma PaceWait(s: Sys)
    requires !s.flags.settled && !s.flags.authDoomed
    ensures s.at.auth.ANew? ==>
              Step(s, EAuth(Begin)).at.auth ==
              APace(s.at.auth.job, if s.pacer.lastStart.Some? && s.pacer.seconds > 0.0
                                   then MaxR(s.clock, s.pacer.lastStart.value + s.pacer.seconds) else s.clock)
    ensures s.at.auth.APace? && (s.clock < s.at.auth.wake || s.flags.paused) ==>
              Step(s, EAuth(AuthEvent.Paced)) == s
    ensures s.at.auth.APace? && s.clock >= s.at.auth.wake && !s.flags.paused ==>
              Step(s, EAuth(AuthEvent.Paced)).at.auth ==
              if L.HasImported(s.book.jobs, s.at.auth.job.fp) then AIdle else AGate(s.at.auth.job)
  {
    hide L.HasImported, L.Finish, G.Apply;
  }

  // ---------------------------------------------------------------- the gate

  /** The call of the gate that a step of the authorization task makes, if any: it asks for permission; it tells
      how the confirmation came out; and on every other way out it gives its permission up. */
  function GateCall(s: Sys, e: AuthEvent): Option<G.Call>
  {
    var a := s.at.auth;
    if !HoldsJob(a) then None
    else if e.AuthCancelled? then
      if (s.flags.stopping && !a.ANew?) || (s.flags.authDoomed && Cancellable(a)) then Some(G.CallShrug(ProbeOf(a)))
      else None
    else if s.flags.authDoomed then None
    else if e.Permit? && a.AGate? then Some(G.CallAsk(!s.flags.paused))
    else if e.Confirmed? && a.AConfirm? then
      Some(if e.o.Authorized? then G.CallClear(a.probe)
           else if e.o.Reported? && e.o.reason == "rate_limited" then G.CallLimit(a.probe)
           else G.CallShrug(a.probe))
    else if (e.RefreshInvalid? || e.RefreshFailed?) && a.AFlow? then Some(G.CallShrug(a.probe))
    else if e.Start? && a.AFlow? && !s.flags.paused && L.HasImported(s.book.jobs, a.job.fp) then
      Some(G.CallShrug(a.probe))
    else None
  }

  predicate Outside(a: Auth) { !a.AFlow? && !a.AConfirm? }

  /** The state is what the call, if any, leaves; after a report the task has no permission. */
  predicate Called(s: Sys, call: Option<G.Call>, t: Sys)
  {
    && t.gate == (if call.Some? then G.Apply(s.gate, call.value, s.clock) else s.gate)
    && (call.Some? && !call.value.CallAsk? ==> Outside(t.at.auth))
    && (call.None? ==> ProbeOf(t.at.auth) == ProbeOf(s.at.auth))
  }

  lemma GateParked(s: Sys, t: Sys, call: G.Call, job: Job, status: L.JobStatus, reason: string, retry: Retry)
    requires t.gate == G.Apply(s.gate, call, s.clock)
    ensures Called(s, Some(call), Parked(Fail(t, job, status, reason, retry), job.fp))
  {
    hide Fail, G.Apply;
    OwnFail(t, job, status, reason, retry);
  }

  lemma GateOfOutcome(s: Sys, o: Outcome)
    requires s.at.auth.AConfirm? && !s.flags.authDoomed
    ensures Called(s, GateCall(s, Confirmed(o)), ConfirmStep(s, s.at.auth.job, s.at.auth.probe, o))
  {
    hide Fail, Parked, G.Apply, G.Limit, P.Succeeded, P.Limited, Called;
    var job, probe := s.at.auth.job, s.at.auth.probe;
    var (status, reason, retry) := Verdict(o);
    if o.Authorized? {
      GateOfGrant(s);
    } else {
      GateParked(s, Gate(s, G.CallLimit(probe)), G.CallLimit(probe), job, status, reason, retry);
      GateParked(s, Gate(s, G.CallLimit(probe)).(pacer := P.Limited(s.pacer)), G.CallLimit(probe), job, status, reason,
        retry);
      GateParked(s, Gate(s, G.CallShrug(probe)), G.CallShrug(probe), job, status, reason, retry);
    }
  }

  lemma GateOfGrant(s: Sys)
    requires s.at.auth.AConfirm?
    ensures Called(s, Some(G.CallClear(s.at.auth.probe)),
                   ConfirmStep(s, s.at.auth.job, s.at.auth.probe, Authorized))
  {
    hide G.Apply, P.Succeeded;
  }

  lemma GateOfEnd(s: Sys)
    requires HoldsJob(s.at.auth)
    ensures Called(s, Some(G.CallShrug(ProbeOf(s.at.auth))), AuthCancel(s))
    ensures Called(s, Some(G.CallShrug(ProbeOf(s.at.auth))), AlreadyImported(s, s.at.auth.job, ProbeOf(s.at.auth)))
    ensures Outside(s.at.auth) ==> G.Apply(s.gate, G.CallShrug(ProbeOf(s.at.auth)), s.clock) == s.gate
  {
    hide L.Finish;
  }

  lemma GateOfPermit(s: Sys)
    requires s.at.auth.AGate?
    ensures Called(s, Some(G.CallAsk(!s.flags.paused)), PermitStep(s))
  {
    hide L.Finish;
  }

  lemma GateOfAuth(s: Sys, e: AuthEvent)
    ensures Called(s, GateCall(s, e), AuthStep(s, e))
  {
    hide Fail, G.Apply, L.HasImported, L.MarkStarted, P.Delay, ConfirmStep, PermitStep, AuthCancel, AlreadyImported,
      Parked;
    var a := s.at.auth;
    if HoldsJob(a) {
      GateOfEnd(s);
    }
    if e.Permit? && a.AGate? {
      GateOfPermit(s);
    } else if e.Confirmed? && a.AConfirm? && !s.flags.authDoomed {
      GateOfOutcome(s, e.o);
    } else if a.AFlow? {
      var call := G.CallShrug(a.probe);
      GateParked(s, Gate(s, call), call, a.job, L.SourceInvalid, "device_flow_invalid", NoRetry);
      GateParked(s, Gate(s, call), call, a.job, L.TransportFailed, "device_flow_refresh_failed", Transient);
    }
  }

  /** The task had the gate's current probe and is past its confirmation. */
  predicate GivesUp(s: Sys, e: Event) { HasProbe(s) && Outside(Step(s, e).at.auth) && e.EAuth? }

  /** The task asks at a tripped gate whose cooldown is over. */
  predicate MayProbe(s: Sys, e: Event)
  {
    && e == EAuth(Permit) && s.at.auth.AGate? && !s.flags.authDoomed && !s.flags.settled && !s.flags.paused
    && !s.gate.g.closed && s.gate.g.trippedAt.Some? && s.clock >= s.gate.g.nextProbeAt
  }

  /** The trips of the gate: counted by a rate limit that counts, with the cooldown that they now deserve; ended
      by an authorization with the current probe; put off by the cooldown in force when the task with the current
      probe gets out in any other way. A probe is granted when the cooldown is over, and is given up with the
      permission. Nothing else changes any of them. */
  ghost predicate GateMoved(s: Sys, e: Event, t: Sys)
  {
    var (w, v) := (s.gate, t.gate);
    && v.g.base == w.g.base
    && (v.g.closed <==> w.g.closed || (e == EControl(CloseGate) && s.flags.stopping))
    && (v.g.probe == if LimitedNow(s, e) || GivesUp(s, e) || v.g.closed then None
                     else if MayProbe(s, e) then Some(w.g.next) else w.g.probe)
    && if LimitedNow(s, e) then
         && v.g.trippedAt == Some(if w.g.trippedAt.Some? then w.g.trippedAt.value else s.clock)
         && v.streak == w.streak + 1 && v.bad == s.clock
         && v.g.nextProbeAt == s.clock + G.Deserved(w.g.base, w.streak + 1)
       else if GrantedNow(s, e) && HasProbe(s) then
         v.g.trippedAt.None? && v.streak == 0 && v.bad == w.bad
       else if GivesUp(s, e) then
         && v.g.trippedAt == w.g.trippedAt && v.streak == w.streak && v.bad == s.clock
         && v.g.nextProbeAt == s.clock + G.Deserved(w.g.base, w.streak)
       else
         && v.g.trippedAt == w.g.trippedAt && v.streak == w.streak && v.bad == w.bad
         && v.g.nextProbeAt == w.g.nextProbeAt
  }

  lemma GateMoves(s: Sys, e: Event)
    requires Reachable(s) && !(e.EControl? && e.control.Boot?)
    ensures GateMoved(s, e, Step(s, e))
  {
    ReachableInv(s);
    GateFacts(s);
    hide Inv, Reachable, Step, G.Sound, GateCall, Called, GateMoved;
    if e.EAuth? && !s.flags.settled {
      GateOfAuth(s, e.auth);
      GateMovedBy(s, e.auth);
    } else {
      GateQuiet(s, e);
    }
  }

  lemma GateQuiet(s: Sys, e: Event)
    requires !(e.EControl? && e.control.Boot?) && (e.EAuth? ==> s.flags.settled)
    requires s.gate.g.probe.Some? ==> !s.gate.g.closed
    ensures GateMoved(s, e, Step(s, e))
  {
    hide SourceStep, PrepStep, AuthStep, CompStep, L.Finish, L.StartJob, Settled, G.Deserved, Cancelled;
    match e
    case EAuth(x) =>
    case EControl(x) => CancelLeavesGate(s);
    case _ => LeavesGate(s, e);
  }

  lemma CancelLeavesGate(s: Sys)
    ensures Cancelled(s).0.gate == s.gate && Settled(s).gate == s.gate
  {
    hide FinishAll, L.RecoverPending;
  }

  lemma GateFacts(s: Sys)
    requires Inv(s)
    ensures G.Sound(s.gate) && (s.gate.g.probe.Some? ==> ProbeOf(s.at.auth) == s.gate.g.probe)
    ensures s.gate.g.probe.Some? ==> !s.gate.g.closed
  {
  }

  lemma GateMovedBy(s: Sys, e: AuthEvent)
    requires !s.flags.settled && G.Sound(s.gate) && (s.gate.g.probe.Some? ==> ProbeOf(s.at.auth) == s.gate.g.probe)
    requires s.gate.g.probe.Some? ==> !s.gate.g.closed
    requires Called(s, GateCall(s, e), AuthStep(s, e))
    ensures GateMoved(s, EAuth(e), Step(s, EAuth(e)))
  {
    hide AuthStep, G.Sound, G.Deserved, G.Apply, G.Ask, G.Limit, G.Clear, G.Shrug, L.HasImported;
    var call := GateCall(s, e);
    var token := ProbeOf(s.at.auth);
    G.AskRule(s.gate.g, !s.flags.paused, s.clock);
    G.LimitTrips(s.gate, token, s.clock);
    if s.gate.g.probe.Some? {
      G.ProberReports(s.gate, token, s.clock);
    }
    CallsUnfold(s.gate, token, s.clock, !s.flags.paused);
  }

  lemma CallsUnfold(w: G.Watched, token: Option<nat>, now: real, resumed: bool)
    requires G.Sound(w)
    ensures G.Apply(w, G.CallAsk(resumed), now) == w.(g := G.Ask(w.g, resumed, now).0)
    ensures w.g.probe.None? || token != w.g.probe ==>
              G.Apply(w, G.CallClear(token), now) == G.Apply(w, G.CallShrug(token), now) == w
    ensures forall c: G.Call :: !c.CallClose? ==>
              G.Apply(w, c, now).g.base == w.g.base && G.Apply(w, c, now).g.closed == w.g.closed
  {
    hide G.Cooled, G.Deserved;
  }

  /** What a task at the gate is told: it goes on once the gate is clear, or as the only prober once the cooldown
      is over; otherwise it stays, unless the gate is closed, which ends its attempt. */
  lemma PermitRule(s: Sys)
    requires Reachable(s) && s.at.auth.AGate? && !s.flags.authDoomed
    ensures var (t, g, job) := (Step(s, EAuth(Permit)), s.gate.g, s.at.auth.job);
            t.at.auth ==
            if g.closed then ADead
            else if s.flags.paused then s.at.auth
            else if g.trippedAt.None? then AFlow(job, None)
            else if s.clock >= g.nextProbeAt then AFlow(job, Some(g.next))
            else s.at.auth
  {
    ReachableInv(s);
    PermitFacts(s);
    hide Inv, Reachable, L.Finish;
  }

  lemma PermitFacts(s: Sys)
    requires Inv(s) && s.at.auth.AGate?
    ensures s.gate.g.probe.None? && !s.flags.settled && (s.gate.g.closed ==> s.flags.stopping)
  {
  }
}
