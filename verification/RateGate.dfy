/** The process-wide cooldown with a single confirmation probe
    (class `GlobalRateLimitGate` in xai_enroller/auth_pipeline.py). */
module RateGate {
  import opened Prelude

  const MAX_COOLDOWN := 300.0
  const GROWTH := 1.5

  function Power(x: real, n: nat): real { if n == 0 then 1.0 else x * Power(x, n - 1) }

  function Capped(base: real, growth: real): real { MinR(MAX_COOLDOWN, base * growth) }

  /** The cooldown `growths` growths above the base, capped. */
  function Cooled(base: real, growths: nat): real { Capped(base, Power(GROWTH, growths)) }

  /** `next` counts the probe tokens made so far; every other field is the object's own. */
  datatype RateGate = RateGate(
    base: real, trippedAt: Option<real>, nextProbeAt: real, probe: Option<nat>, closed: bool,
    cooldown: real, trips: nat, next: nat)
  {
    predicate IsCurrent(token: Option<nat>) { token.Some? && token == probe }
  }

  function Fresh(base: real): RateGate { RateGate(base, None, 0.0, None, false, base, 0, 0) }

  datatype Permission = Refused | Wait | Open | Probe(token: nat)

  /** One turn of the loop in `wait_for_permission`; `resumed` says that the service is not paused. */
  function Ask(g: RateGate, resumed: bool, now: real): (r: (RateGate, Permission))
  {
    if g.closed then (g, Refused)
    else if !resumed then (g, Wait)
    else if g.trippedAt.None? then (g, Open)
    else if g.probe.None? && now >= g.nextProbeAt then
      (g.(probe := Some(g.next), next := g.next + 1), Probe(g.next))
    else (g, Wait)
  }

  function Limit(g: RateGate, token: Option<nat>, now: real): (r: (RateGate, bool))
  {
    if g.trippedAt.Some? && !g.IsCurrent(token) then (g, false)
    else
      var trips := if g.trippedAt.None? then 1 else Max(1, g.trips) + 1;
      var cooldown := Cooled(g.base, Max(0, trips - 1));
      (g.(trippedAt := if g.trippedAt.None? then Some(now) else g.trippedAt, trips := trips,
          cooldown := cooldown, nextProbeAt := now + cooldown, probe := None),
       true)
  }

  function Clear(g: RateGate, token: Option<nat>, now: real): (r: (RateGate, Option<real>))
  {
    if g.trippedAt.None? || !g.IsCurrent(token) then (g, None)
    else
      (g.(trippedAt := None, nextProbeAt := 0.0, probe := None, trips := 0, cooldown := g.base),
       Some(MaxR(0.0, now - g.trippedAt.value)))
  }

  function Shrug(g: RateGate, token: Option<nat>, now: real): (r: (RateGate, bool))
  {
    if g.trippedAt.None? || !g.IsCurrent(token) then (g, false)
    else (g.(nextProbeAt := now + g.cooldown, probe := None), true)
  }

  function Close(g: RateGate): RateGate { g.(closed := true, probe := None) }

  // ---------------------------------------------------------------- every run

  datatype Call =
    | CallAsk(resumed: bool)
    | CallLimit(token: Option<nat>)
    | CallClear(token: Option<nat>)
    | CallShrug(token: Option<nat>)
    | CallClose

  /** The gate with the number of trips applied since it was last clear and the time of the latest
      limited or inconclusive outcome that counted. */
  datatype Watched = Watched(g: RateGate, streak: nat, bad: real)

  function Apply(w: Watched, call: Call, now: real): Watched
  {
    match call
    case CallAsk(resumed) => w.(g := Ask(w.g, resumed, now).0)
    case CallLimit(token) =>
      var (g, applied) := Limit(w.g, token, now);
      if applied then Watched(g, w.streak + 1, now) else w.(g := g)
    case CallClear(token) =>
      var (g, elapsed) := Clear(w.g, token, now);
      if elapsed.Some? then Watched(g, 0, w.bad) else w.(g := g)
    case CallShrug(token) =>
      var (g, applied) := Shrug(w.g, token, now);
      if applied then w.(g := g, bad := now) else w.(g := g)
    case CallClose => w.(g := Close(w.g))
  }

  function Run(w: Watched, calls: seq<(Call, real)>): Watched
    decreases |calls|
  {
    if calls == [] then w else Run(Apply(w, calls[0].0, calls[0].1), calls[1..])
  }

  /** The cooldown that `n` consecutive trips deserve. */
  function Deserved(base: real, n: nat): real
  {
    if n == 0 then base else Cooled(base, n - 1)
  }

  ghost predicate Sound(w: Watched)
  {
    var g := w.g;
    && g.trips == w.streak && (g.trippedAt.Some? <==> w.streak > 0)
    && g.cooldown == Deserved(g.base, w.streak)
    && (g.probe.Some? ==> g.trippedAt.Some? && g.probe.value < g.next && !g.closed)
    && (g.trippedAt.Some? ==> g.nextProbeAt == w.bad + g.cooldown)
  }

  lemma SoundStep(w: Watched, call: Call, now: real)
    requires Sound(w)
    ensures Sound(Apply(w, call, now)) && Apply(w, call, now).g.base == w.g.base
  {
    hide Cooled;
  }

  lemma {:induction false} SoundRun(w: Watched, calls: seq<(Call, real)>)
    requires Sound(w)
    ensures Sound(Run(w, calls)) && Run(w, calls).g.base == w.g.base
    decreases |calls|
  {
    if calls != [] {
      SoundStep(w, calls[0].0, calls[0].1);
      SoundRun(Apply(w, calls[0].0, calls[0].1), calls[1..]);
    }
  }

  /** After any run the cooldown is exactly what the consecutive trips since the last clearing
      deserve, and a probe granted while tripped starts no earlier than one such cooldown after the
      latest limited or inconclusive outcome. */
  lemma CooldownLaw(base: real, calls: seq<(Call, real)>, resumed: bool, now: real)
    ensures var w := Run(Watched(Fresh(base), 0, 0.0), calls);
            && w.g.cooldown == Deserved(base, w.streak)
            && (w.g.trippedAt.Some? <==> w.streak > 0)
            && (Ask(w.g, resumed, now).1.Probe? ==>
                  && w.g.trippedAt.Some? && w.g.probe.None? && resumed && !w.g.closed
                  && now >= w.bad + Deserved(base, w.streak))
            && (Ask(w.g, resumed, now).1.Open? ==> w.g.trippedAt.None?)
  {
    SoundRun(Watched(Fresh(base), 0, 0.0), calls);
  }

  lemma {:induction false} PowerGrows(n: nat)
    ensures Power(GROWTH, n) >= 1.0 && Power(GROWTH, n + 1) >= Power(GROWTH, n)
  {
    if n > 0 {
      PowerGrows(n - 1);
    }
  }

  lemma {:induction false} PowerUnbounded(n: nat)
    ensures Power(GROWTH, n) >= 1.0 + 0.5 * n as real
  {
    if n > 0 {
      PowerUnbounded(n - 1);
    }
  }

  /** Cooldowns never shrink while trips follow each other, they are capped, and a base above the cap
      is cut to it. */
  lemma CooldownGrows(base: real, n: nat)
    requires base >= 0.0 && n >= 1
    ensures Deserved(base, n) <= Deserved(base, n + 1) <= MAX_COOLDOWN
    ensures base >= MAX_COOLDOWN ==> Deserved(base, n) == MAX_COOLDOWN
    ensures base <= MAX_COOLDOWN ==> Deserved(base, 1) == base
  {
    PowerGrows(n - 1);
    var p, q := Power(GROWTH, n - 1), Power(GROWTH, n);
    assert base * p <= base * q && base <= base * p;
    assert base * Power(GROWTH, 0) == base;
  }

  /** With a positive base the cap is reached after finitely many trips, and kept. */
  lemma CapIsReached(base: real, n: nat)
    requires base > 0.0 && n as real >= 2.0 * MAX_COOLDOWN / base
    ensures Deserved(base, n + 1) == MAX_COOLDOWN
  {
    PowerUnbounded(n);
    var p := Power(GROWTH, n);
    assert base * (0.5 * n as real) >= MAX_COOLDOWN;
    assert base * p >= base * (0.5 * n as real);
  }

  /** While tripped, a result that does not carry the current probe changes nothing. */
  lemma LateResultsIgnored(g: RateGate, token: Option<nat>, now: real)
    requires g.trippedAt.Some? && !g.IsCurrent(token)
    ensures Limit(g, token, now) == (g, false)
    ensures Clear(g, token, now) == (g, None)
    ensures Shrug(g, token, now) == (g, false)
  {
  }

  /** Every outcome reported with the current probe retires it. */
  lemma OutcomesRetire(w: Watched, now: real)
    requires Sound(w) && w.g.probe.Some?
    ensures Limit(w.g, w.g.probe, now).0.probe.None? && Limit(w.g, w.g.probe, now).1
    ensures Clear(w.g, w.g.probe, now).0.probe.None?
    ensures Clear(w.g, w.g.probe, now).0.trippedAt.None?
    ensures Shrug(w.g, w.g.probe, now).0.probe.None? && Shrug(w.g, w.g.probe, now).1
    ensures Close(w.g).probe.None?
  {
  }

  /** Who is let through: nobody once the gate is closed or while the service is paused; everybody while it is
      not tripped; while it is, one prober at a time, as soon as the cooldown is over. */
  lemma AskRule(g: RateGate, resumed: bool, now: real)
    ensures var (h, p) := Ask(g, resumed, now);
            && (p.Refused? <==> g.closed)
            && (p.Open? <==> !g.closed && resumed && g.trippedAt.None?)
            && (p.Probe? <==> !g.closed && resumed && g.trippedAt.Some? && g.probe.None? && now >= g.nextProbeAt)
            && (p.Probe? ==> p.token == g.next && h == g.(probe := Some(g.next), next := g.next + 1))
            && (!p.Probe? ==> h == g)
  {
  }

  /** A rate limit trips a clear gate, and a tripped one again if it comes from the current prober; the next
      probe is then due one deserved cooldown later. The time of the first trip stays. */
  lemma LimitTrips(w: Watched, token: Option<nat>, now: real)
    requires Sound(w)
    ensures var v := Apply(w, CallLimit(token), now);
            var counts := w.g.trippedAt.None? || (token.Some? && token == w.g.probe);
            && (Limit(w.g, token, now).1 <==> counts)
            && (!counts ==> v == w)
            && (counts ==> && v.streak == w.streak + 1 && v.bad == now && v.g.probe.None? && v.g.closed == w.g.closed
                           && v.g.trippedAt == Some(if w.g.trippedAt.Some? then w.g.trippedAt.value else now)
                           && v.g.nextProbeAt == now + Deserved(w.g.base, w.streak + 1))
  {
    hide Cooled;
  }

  /** An authorization by the current prober clears the gate, and tells how long it was tripped; an inconclusive
      outcome of it puts the next probe off by the cooldown in force. */
  lemma ProberReports(w: Watched, token: Option<nat>, now: real)
    requires Sound(w) && w.g.probe.Some? && token == w.g.probe
    ensures var (v, elapsed) := (Apply(w, CallClear(token), now), Clear(w.g, token, now).1);
            && v.g.trippedAt.None? && v.g.probe.None? && v.streak == 0 && v.bad == w.bad && v.g.closed == w.g.closed
            && elapsed == Some(MaxR(0.0, now - w.g.trippedAt.value))
    ensures var v := Apply(w, CallShrug(token), now);
            && v.g == w.g.(probe := None, nextProbeAt := now + Deserved(w.g.base, w.streak))
            && v.streak == w.streak && v.bad == now
  {
    hide Cooled;
  }

  /** Once closed, the gate lets nobody through any more, whatever is called. */
  lemma {:induction false} ClosedForGood(w: Watched, calls: seq<(Call, real)>, resumed: bool, now: real)
    requires w.g.closed
    ensures Run(w, calls).g.closed && Ask(Run(w, calls).g, resumed, now).1.Refused?
    decreases |calls|
  {
    if calls != [] {
      hide Cooled;
      ClosedForGood(Apply(w, calls[0].0, calls[0].1), calls[1..], resumed, now);
    }
  }

  /** From a trip on, nobody is let through before the deserved cooldown is over, whatever is called meanwhile,
      and the first to ask after it may probe. */
  lemma {:induction false} TripHolds(w: Watched, calls: seq<(Call, real)>, resumed: bool, now: real)
    requires Sound(w) && w.g.trippedAt.Some? && w.g.probe.None?
    requires forall x | x in calls :: x.1 < w.g.nextProbeAt
    ensures var v := Run(w, calls);
            && v.g.trippedAt.Some? && v.g.probe.None? && v.g.nextProbeAt == w.g.nextProbeAt
            && (now < w.g.nextProbeAt ==> Ask(v.g, resumed, now).1.Wait? || Ask(v.g, resumed, now).1.Refused?)
            && (now >= w.g.nextProbeAt && resumed && !v.g.closed ==> Ask(v.g, resumed, now).1.Probe?)
    decreases |calls|
  {
    if calls != [] {
      hide Cooled;
      SoundStep(w, calls[0].0, calls[0].1);
      TripHolds(Apply(w, calls[0].0, calls[0].1), calls[1..], resumed, now);
    }
  }

  // ---------------------------------------------------------------- the object

  class GlobalRateLimitGate {
    const base: real
    var trippedAt: Option<real>
    var nextProbeAt: real
    var probeToken: Option<nat>
    var closed: bool
    var currentCooldown: real
    var cooldownSeconds: real
    var consecutiveTrips: nat
    var tokensMade: nat

    constructor (base: real)
      ensures View() == Fresh(base) && Valid()
    {
      this.base := base;
      trippedAt, nextProbeAt, probeToken, closed := None, 0.0, None, false;
      currentCooldown, cooldownSeconds := base, base;
      consecutiveTrips, tokensMade := 0, 0;
    }

    /** The class-level name kept for older callers shows the live cooldown. */
    predicate Valid()
      reads this
    {
      cooldownSeconds == currentCooldown
    }

    function View(): RateGate
      reads this
    {
      RateGate(base, trippedAt, nextProbeAt, probeToken, closed, currentCooldown, consecutiveTrips,
               tokensMade)
    }

    method PermissionTurn(resumed: bool, now: real) returns (p: Permission)
      modifies this`probeToken, this`tokensMade
      ensures (View(), p) == Ask(old(View()), resumed, now)
    {
      if closed {
        return Refused;
      }
      if !resumed {
        return Wait;
      }
      if trippedAt.None? {
        return Open;
      }
      if probeToken.None? && now >= nextProbeAt {
        probeToken := Some(tokensMade);
        tokensMade := tokensMade + 1;
        return Probe(tokensMade - 1);
      }
      return Wait;
    }

    method RateLimited(token: Option<nat>, now: real) returns (applied: bool)
      requires Valid()
      modifies this
      ensures Valid() && (View(), applied) == Limit(old(View()), token, now)
    {
      hide Capped, Power;
      if trippedAt.None? {
        trippedAt := Some(now);
        consecutiveTrips := 1;
      } else if token.None? || token != probeToken {
        return false;
      } else {
        consecutiveTrips := Max(1, consecutiveTrips) + 1;
      }
      var growth := Grow(Max(0, consecutiveTrips - 1));
      currentCooldown := Capped(base, growth);
      cooldownSeconds := currentCooldown;
      nextProbeAt := now + currentCooldown;
      probeToken := None;
      return true;
    }

    method Authorized(token: Option<nat>, now: real) returns (elapsed: Option<real>)
      requires Valid()
      modifies this
      ensures Valid() && (View(), elapsed) == Clear(old(View()), token, now)
    {
      if trippedAt.None? || token.None? || token != probeToken {
        return None;
      }
      elapsed := Some(MaxR(0.0, now - trippedAt.value));
      trippedAt := None;
      nextProbeAt := 0.0;
      probeToken := None;
      consecutiveTrips := 0;
      currentCooldown := base;
      cooldownSeconds := base;
    }

    method Inconclusive(token: Option<nat>, now: real) returns (applied: bool)
      modifies this`nextProbeAt, this`probeToken
      ensures (View(), applied) == Shrug(old(View()), token, now)
    {
      if trippedAt.None? || token.None? || token != probeToken {
        return false;
      }
      nextProbeAt := now + currentCooldown;
      probeToken := None;
      return true;
    }

    method CloseDown()
      modifies this`closed, this`probeToken
      ensures View() == Close(old(View()))
    {
      closed := true;
      probeToken := None;
    }
  }

  /** `COOLDOWN_GROWTH ** n`. */
  method Grow(n: nat) returns (p: real)
    ensures p == Power(GROWTH, n)
  {
    p := 1.0;
    for i := 0 to n
      invariant p == Power(GROWTH, i)
    {
      p := GROWTH * p;
    }
  }
}
