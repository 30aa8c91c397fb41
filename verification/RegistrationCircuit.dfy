/** The circuit breaker that pauses submissions after a rate limit
    (class `RegistrationRateLimitCircuit` in grok_register/register.py).

    A probe token is a fresh number, the monotonic clock a real.  The clock is read as `now`. */
module RegistrationCircuit {
  import opened Prelude

  /** What a caller may pass as its probe: nothing, `False`, or a token. */
  datatype Arg = NoArg | FalseArg | Token(id: nat)

  /** `next` counts the tokens handed out so far; every other field is the object's own. */
  datatype Circuit = Circuit(
    cooldown: real, recovery: real, interval: real,
    blockedUntil: real, trippedAt: Option<real>,
    probeActive: bool, probe: Option<nat>,
    recoveringUntil: real, nextSubmit: real, next: nat)
  {
    /** `probe_token is self._probe_token`. */
    predicate Is(arg: Arg)
    {
      match arg
      case NoArg => probe.None?
      case FalseArg => false
      case Token(t) => probe == Some(t)
    }

    predicate Recovering() { recoveringUntil != 0.0 }

    predicate Normal() { trippedAt.None? && !Recovering() }
  }

  function Initial(cooldown: real, recovery: real, interval: real): Circuit
  {
    Circuit(cooldown, recovery, interval, 0.0, None, false, None, 0.0, 0.0, 0)
  }

  /** Python's `int` of a real: towards zero. */
  function Truncate(x: real): int { if x < 0.0 then -((-x).Floor) else x.Floor }

  function RemainingSeconds(c: Circuit, now: real): int
  {
    Max(0, Truncate(c.blockedUntil - now + 0.999))
  }

  predicate IsOpen(c: Circuit, now: real) { RemainingSeconds(c, now) > 0 }

  function Trip(c: Circuit, now: real): Circuit
  {
    c.(trippedAt := if c.trippedAt.None? then Some(now) else c.trippedAt,
       recoveringUntil := 0.0, nextSubmit := 0.0,
       probeActive := false, probe := None,
       blockedUntil := MaxR(c.blockedUntil, now + c.cooldown))
  }

  /** What one turn of the loop in `wait` decides. */
  datatype Decision = Sleep(seconds: real) | Pass | Grant(token: nat)

  function Poll(c: Circuit, now: real): (r: (Circuit, Decision))
  {
    if IsOpen(c, now) then (c, Sleep(Min(RemainingSeconds(c, now), 5) as real))
    else if c.trippedAt.None? && !c.Recovering() then (c, Pass)
    else if c.trippedAt.None? && c.probeActive then (c, Sleep(0.2))
    else if c.trippedAt.None? && now >= c.recoveringUntil then
      (c.(recoveringUntil := 0.0, nextSubmit := 0.0), Pass)
    else if c.trippedAt.None? && c.nextSubmit - now > 0.0 then
      (c, Sleep(MinR(c.nextSubmit - now, 0.5)))
    else if !c.probeActive then
      (c.(probeActive := true, probe := Some(c.next), next := c.next + 1), Grant(c.next))
    else (c, Sleep(0.2))
  }

  predicate CanSubmit(c: Circuit, arg: Arg, now: real)
  {
    c.Normal() || (!arg.FalseArg? && c.Is(arg) && !IsOpen(c, now))
  }

  function CompleteRecovery(c: Circuit, arg: Arg, now: real): (r: (Circuit, bool))
  {
    if !c.Is(arg) || !c.Recovering() then (c, false)
    else (c.(probeActive := false, probe := None, nextSubmit := now + c.interval), true)
  }

  function ConsumeRecovery(c: Circuit, arg: Arg, now: real): (r: (Circuit, Option<real>))
  {
    if c.trippedAt.None? then (CompleteRecovery(c, arg, now).0, None)
    else if !arg.NoArg? && !c.Is(arg) then (c, None)
    else
      (c.(trippedAt := None, blockedUntil := 0.0, probeActive := false, probe := None,
          recoveringUntil := now + c.recovery, nextSubmit := now + c.interval),
       Some(now - c.trippedAt.value))
  }

  function ReleaseProbe(c: Circuit, arg: Arg): Circuit
  {
    if c.Is(arg) then c.(probeActive := false, probe := None) else c
  }

  function DeferProbe(c: Circuit, arg: Arg, now: real): Circuit
  {
    if !c.Is(arg) then c
    else
      var d := c.(probeActive := false, probe := None);
      if d.trippedAt.Some? then d.(blockedUntil := MaxR(d.blockedUntil, now + d.cooldown))
      else if d.Recovering() then d.(nextSubmit := now + d.interval)
      else d
  }

  // ---------------------------------------------------------------- every run of the circuit

  /** The calls a circuit can receive, from any number of workers. */
  datatype Call =
    | CallTrip
    | CallPoll
    | CallConsume(arg: Arg)
    | CallComplete(arg: Arg)
    | CallRelease(arg: Arg)
    | CallDefer(arg: Arg)

  /** The circuit, with the time of the latest setback (a trip, or a probe deferred while tripped)
      and of the latest submission settled in recovery. */
  datatype Watched = Watched(c: Circuit, setback: real, settled: real)

  function Apply(w: Watched, call: Call, now: real): Watched
  {
    var c := w.c;
    match call
    case CallTrip => Watched(Trip(c, now), now, w.settled)
    case CallPoll => w.(c := Poll(c, now).0)
    case CallConsume(arg) =>
      var (c', closed) := ConsumeRecovery(c, arg, now);
      var done := closed.Some? || (c.trippedAt.None? && CompleteRecovery(c, arg, now).1);
      w.(c := c', settled := if done then now else w.settled)
    case CallComplete(arg) =>
      var (c', done) := CompleteRecovery(c, arg, now);
      w.(c := c', settled := if done then now else w.settled)
    case CallRelease(arg) => w.(c := ReleaseProbe(c, arg))
    case CallDefer(arg) =>
      var c' := DeferProbe(c, arg, now);
      if !c.Is(arg) then w
      else if c.trippedAt.Some? then w.(c := c', setback := now)
      else if c.Recovering() then w.(c := c', settled := now)
      else w.(c := c')
  }

  function Run(w: Watched, calls: seq<(Call, real)>): Watched
    decreases |calls|
  {
    if calls == [] then w else Run(Apply(w, calls[0].0, calls[0].1), calls[1..])
  }

  ghost predicate Sound(w: Watched)
  {
    var c := w.c;
    && (c.probeActive <==> c.probe.Some?)
    && (c.probe.Some? ==> c.probe.value < c.next)
    && (c.probe.Some? ==> c.trippedAt.Some? || c.Recovering())
    && (c.trippedAt.Some? ==> !c.Recovering())
    && (c.Recovering() ==> c.nextSubmit == w.settled + c.interval)
    && (c.trippedAt.Some? ==> c.blockedUntil >= w.setback + c.cooldown)
  }

  /** A token that is not current now, and is not from the future, never becomes current. */
  ghost predicate Retired(c: Circuit, t: nat) { t < c.next && c.probe != Some(t) }

  predicate SameSettings(c: Circuit, d: Circuit)
  {
    c.cooldown == d.cooldown && c.recovery == d.recovery && c.interval == d.interval
  }

  lemma SoundStep(w: Watched, call: Call, now: real)
    requires Sound(w)
    ensures Sound(Apply(w, call, now))
    ensures forall t :: Retired(w.c, t) ==> Retired(Apply(w, call, now).c, t)
    ensures SameSettings(w.c, Apply(w, call, now).c)
  {
  }

  lemma {:induction false} SoundRun(w: Watched, calls: seq<(Call, real)>)
    requires Sound(w)
    ensures Sound(Run(w, calls))
    ensures forall t :: Retired(w.c, t) ==> Retired(Run(w, calls).c, t)
    ensures SameSettings(w.c, Run(w, calls).c)
    decreases |calls|
  {
    if calls != [] {
      SoundStep(w, calls[0].0, calls[0].1);
      SoundRun(Apply(w, calls[0].0, calls[0].1), calls[1..]);
    }
  }

  /** The states of a circuit, over every run from the initial one. */
  lemma CircuitStates(cooldown: real, recovery: real, interval: real, calls: seq<(Call, real)>)
    ensures var c := Run(Watched(Initial(cooldown, recovery, interval), 0.0, 0.0), calls).c;
            && (c.probeActive <==> c.probe.Some?)
            && (c.probe.Some? ==> c.trippedAt.Some? || c.Recovering())
            && !(c.trippedAt.Some? && c.Recovering())
  {
    SoundRun(Watched(Initial(cooldown, recovery, interval), 0.0, 0.0), calls);
  }

  /** A token is handed out only while none is current, never while the circuit is open; while
      tripped not before one cooldown (less the millisecond that rounding gives away) after the
      latest setback; in recovery not before one interval after the latest settled submission. */
  lemma GrantSpacing(c0: Circuit, calls: seq<(Call, real)>, now: real)
    requires c0 == Initial(c0.cooldown, c0.recovery, c0.interval)
    ensures var w := Run(Watched(c0, 0.0, 0.0), calls);
            var (c', decision) := Poll(w.c, now);
            decision.Grant? ==>
              && w.c.probe.None? && c'.probe == Some(decision.token) && !IsOpen(w.c, now)
              && (w.c.trippedAt.Some? ==> now > w.setback + c0.cooldown - 0.001)
              && (w.c.trippedAt.None? ==> w.c.Recovering() && now >= w.settled + c0.interval)
  {
    SoundRun(Watched(c0, 0.0, 0.0), calls);
  }

  /** Once retired, by a trip or otherwise, a token opens nothing any more, whatever happens. */
  lemma RetiredForGood(w: Watched, calls: seq<(Call, real)>, t: nat, now: real)
    requires Sound(w) && Retired(w.c, t)
    ensures var c := Run(w, calls).c; CanSubmit(c, Token(t), now) ==> c.Normal()
  {
    SoundRun(w, calls);
  }

  lemma TripRetires(w: Watched, t: nat, now: real)
    requires Sound(w) && t < w.c.next
    ensures Retired(Apply(w, CallTrip, now).c, t) && !Apply(w, CallTrip, now).c.Normal()
    ensures w.c.cooldown >= 0.001 ==> IsOpen(Apply(w, CallTrip, now).c, now)
  {
  }

  /** Outside the normal state `can_submit` lets nobody through while open, and otherwise the one
      current token, or a caller that passes `None` while no token is current. */
  lemma SubmitRule(c: Circuit, arg: Arg, now: real)
    requires !c.Normal()
    ensures IsOpen(c, now) ==> !CanSubmit(c, arg, now)
    ensures !IsOpen(c, now) ==>
              (CanSubmit(c, arg, now) <==>
                if c.probe.Some? then arg == Token(c.probe.value) else arg == NoArg)
  {
  }

  // ---------------------------------------------------------------- what each call does

  /** The circuit is open until a millisecond before its blocking time, whatever the rounding. */
  lemma OpenIff(c: Circuit, now: real)
    ensures IsOpen(c, now) <==> now <= c.blockedUntil - 0.001
  {
  }

  /** A trip opens the circuit for a cooldown from now, keeps a longer block, ends a recovery and leaves no
      token current; the time of the first trip stays. */
  lemma TripLaw(c: Circuit, now: real, later: real)
    ensures var d := Trip(c, now);
            && (IsOpen(d, later) <==> IsOpen(c, later) || later <= now + c.cooldown - 0.001)
            && d.trippedAt == Some(if c.trippedAt.Some? then c.trippedAt.value else now)
            && !d.Recovering() && d.nextSubmit == 0.0 && d.probe.None? && !d.probeActive && d.next == c.next
            && SameSettings(c, d)
  {
    OpenIff(c, later);
    OpenIff(Trip(c, now), later);
  }

  /** A turn of the waiting loop passes a worker without a token in the normal state, and when a recovery is
      over and no token is out; it grants a fresh token when none is out while tripped, and, in recovery, once
      the next submission is due; otherwise the worker sleeps. */
  lemma PollRule(w: Watched, now: real)
    requires Sound(w)
    ensures var c := w.c;
            var (d, decision) := Poll(c, now);
            var over := c.Recovering() && c.probe.None? && now >= c.recoveringUntil;
            && (decision.Pass? <==> !IsOpen(c, now) && (c.Normal() || over))
            && (decision.Grant? <==> !IsOpen(c, now) && c.probe.None? && !over
                                     && (c.trippedAt.Some? || (c.Recovering() && now >= c.nextSubmit)))
            && (decision.Pass? ==> d.Normal() && SameSettings(c, d) && d.next == c.next
                                   && d.blockedUntil == c.blockedUntil)
            && (decision.Grant? ==> decision.token == c.next
                                    && d == c.(probeActive := true, probe := Some(c.next), next := c.next + 1))
            && (decision.Sleep? ==> d == c && 0.0 < decision.seconds <= 5.0)
  {
  }

  /** A report with `False`, or with a token that is not current, changes nothing. */
  lemma StaleIgnored(c: Circuit, arg: Arg, now: real)
    requires arg.FalseArg? || (arg.Token? && c.probe != Some(arg.id))
    ensures ConsumeRecovery(c, arg, now) == (c, None) && CompleteRecovery(c, arg, now) == (c, false)
    ensures ReleaseProbe(c, arg) == c && DeferProbe(c, arg, now) == c
  {
  }

  /** With `None` anybody closes a trip, as its holder would; in a recovery `None` counts as a submission only
      while no token is out. */
  lemma NoneCloses(w: Watched, t: nat, now: real)
    requires Sound(w)
    ensures w.c.trippedAt.Some? ==>
              ConsumeRecovery(w.c, NoArg, now) == ConsumeRecovery(w.c.(probe := Some(t)), Token(t), now)
    ensures w.c.trippedAt.None? && w.c.probe.Some? ==> ConsumeRecovery(w.c, NoArg, now) == (w.c, None)
    ensures w.c.Recovering() && w.c.probe.None? ==>
              ConsumeRecovery(w.c, NoArg, now) == (w.c.(nextSubmit := now + w.c.interval), None)
  {
  }

  /** What the reports of the holder of the current token do: a success closes a trip and starts a recovery of
      the set length, its first submission one interval later, or settles one submission of a recovery; a
      failure blocks for another cooldown, or puts off the next submission of a recovery; a release costs
      nothing. In each case the token is current no more. */
  lemma HolderReports(w: Watched, t: nat, now: real)
    requires Sound(w) && w.c.probe == Some(t)
    ensures var (c, (d, elapsed)) := (w.c, ConsumeRecovery(w.c, Token(t), now));
            && d.probe.None? && !d.probeActive && d.trippedAt.None? && d.next == c.next && SameSettings(c, d)
            && d.nextSubmit == now + c.interval
            && (c.trippedAt.Some? ==> elapsed == Some(now - c.trippedAt.value) && d.blockedUntil == 0.0
                                      && d.recoveringUntil == now + c.recovery)
            && (c.trippedAt.None? ==> elapsed.None? && d.blockedUntil == c.blockedUntil
                                      && d.recoveringUntil == c.recoveringUntil)
    ensures var (c, d) := (w.c, DeferProbe(w.c, Token(t), now));
            && d.probe.None? && !d.probeActive && d.trippedAt == c.trippedAt && d.next == c.next && SameSettings(c, d)
            && d.recoveringUntil == c.recoveringUntil
            && d.blockedUntil == (if c.trippedAt.Some? then MaxR(c.blockedUntil, now + c.cooldown) else c.blockedUntil)
            && d.nextSubmit == (if c.trippedAt.Some? then c.nextSubmit else now + c.interval)
    ensures ReleaseProbe(w.c, Token(t)) == w.c.(probeActive := false, probe := None)
  {
  }

  /** Both cases of a report with a token, as seen by the watch. */
  lemma StaleOrHeld(w: Watched, arg: Arg, now: real)
    requires Sound(w) && arg.Token?
    ensures var (c, d) := (w.c, Apply(w, CallConsume(arg), now).c);
            if c.probe != Some(arg.id) then d == c
            else if c.trippedAt.Some? then
              d == c.(trippedAt := None, blockedUntil := 0.0, probeActive := false, probe := None,
                      recoveringUntil := now + c.recovery, nextSubmit := now + c.interval)
            else c.Recovering() && d == c.(probeActive := false, probe := None, nextSubmit := now + c.interval)
    ensures var (c, d) := (w.c, Apply(w, CallDefer(arg), now).c);
            if c.probe != Some(arg.id) then d == c
            else if c.trippedAt.Some? then
              d == c.(blockedUntil := MaxR(c.blockedUntil, now + c.cooldown), probeActive := false, probe := None)
            else c.Recovering() && d == c.(probeActive := false, probe := None, nextSubmit := now + c.interval)
    ensures var (c, d) := (w.c, Apply(w, CallRelease(arg), now).c);
            d == if c.probe != Some(arg.id) then c else c.(probeActive := false, probe := None)
  {
    if w.c.probe == Some(arg.id) {
      HolderReports(w, arg.id, now);
    } else {
      StaleIgnored(w.c, arg, now);
    }
  }

  // ---------------------------------------------------------------- a recovery

  /** The recovery that ends at `until` is under way. */
  predicate InRecovery(c: Circuit, until: real)
  {
    c.trippedAt.None? && c.recoveringUntil == until != 0.0 && c.blockedUntil == 0.0
  }

  lemma {:induction false} RecoveryLasts(w: Watched, calls: seq<(Call, real)>, until: real)
    requires InRecovery(w.c, until)
    requires forall x | x in calls :: !x.0.CallTrip? && x.1 < until
    ensures InRecovery(Run(w, calls).c, until)
    decreases |calls|
  {
    if calls != [] {
      RecoveryLasts(Apply(w, calls[0].0, calls[0].1), calls[1..], until);
    }
  }

  /** After the holder of the current token has closed a trip at `t`, the circuit recovers until `t + recovery`,
      whatever calls come before that time, unless one is a trip. Until then no worker passes without a token,
      one token is out at a time, and each is granted at least one interval after the latest settled submission,
      the closing one to begin with; only its holder may submit. From then on a worker's turn with no token out
      finds the circuit normal and passes. */
  lemma RecoveryPhase(w: Watched, id: nat, t: real, calls: seq<(Call, real)>, now: real)
    requires Sound(w) && w.c.trippedAt.Some? && w.c.probe == Some(id) && t + w.c.recovery != 0.0
    requires forall x | x in calls :: !x.0.CallTrip? && x.1 < t + w.c.recovery
    ensures var first := Apply(w, CallConsume(Token(id)), t);
            var v := Run(first, calls);
            var (d, decision) := Poll(v.c, now);
            && first.settled == t && first.c.probe.None?
            && v.c.trippedAt.None? && v.c.recoveringUntil == t + w.c.recovery
            && (now < t + w.c.recovery ==>
                  && !decision.Pass?
                  && (decision.Grant? <==> now > -0.001 && v.c.probe.None? && now >= v.settled + w.c.interval)
                  && forall k: nat :: CanSubmit(v.c, Token(k), now) ==> v.c.probe == Some(k))
            && (now >= t + w.c.recovery && v.c.probe.None? && now > -0.001 ==> decision.Pass? && d.Normal())
  {
    var first := Apply(w, CallConsume(Token(id)), t);
    SoundStep(w, CallConsume(Token(id)), t);
    RecoveryLasts(first, calls, t + w.c.recovery);
    SoundRun(first, calls);
    PollRule(Run(first, calls), now);
  }
}
