/** The minimum interval between authorization starts
    (class `MinimumStartInterval` in xai_enroller/auth_pipeline.py). */
module Pacing {
  import opened Prelude

  const FLOOR_SECONDS := 18.0
  const RAISE := 1.55
  const DECAY := 0.88
  const STREAK := 4
  const SNAP := 0.05

  datatype Pacer = Pacer(base: real, seconds: real, max: real, lastStart: Option<real>, streak: nat)

  function Make(seconds: real, max: Option<real>, now: real): Pacer
  {
    var base := MaxR(0.0, seconds);
    Pacer(base, base, if max.Some? then max.value else MaxR(base * 8.0, 90.0),
          if base > 0.0 then Some(now) else None, 0)
  }

  /** How long `wait` sleeps. */
  function Delay(p: Pacer, now: real): real
  {
    if p.lastStart.None? || p.seconds <= 0.0 then 0.0
    else MaxR(0.0, p.seconds - (now - p.lastStart.value))
  }

  function Started(p: Pacer, now: real): Pacer { p.(lastStart := Some(now)) }

  function Limited(p: Pacer): Pacer
  {
    p.(seconds := MinR(p.max, MaxR(p.seconds * RAISE, MaxR(p.base, FLOOR_SECONDS))), streak := 0)
  }

  function Succeeded(p: Pacer): Pacer
  {
    if p.streak + 1 < STREAK || p.seconds <= p.base then p.(streak := p.streak + 1)
    else
      var lower := MaxR(p.base, p.seconds * DECAY);
      p.(seconds := if lower <= p.base + SNAP then p.base else lower, streak := 0)
  }

  datatype Note = NoteStart(now: real) | NoteLimited | NoteSuccess

  function Apply(p: Pacer, n: Note): Pacer
  {
    match n
    case NoteStart(now) => Started(p, now)
    case NoteLimited => Limited(p)
    case NoteSuccess => Succeeded(p)
  }

  function Run(p: Pacer, ns: seq<Note>): Pacer
    decreases |ns|
  {
    if ns == [] then p else Run(Apply(p, ns[0]), ns[1..])
  }

  predicate InRange(p: Pacer) { 0.0 <= p.base <= p.seconds <= p.max }

  lemma {:induction false} StaysInRange(p: Pacer, ns: seq<Note>)
    requires InRange(p)
    ensures InRange(Run(p, ns)) && Run(p, ns).base == p.base && Run(p, ns).max == p.max
    decreases |ns|
  {
    if ns != [] {
      StaysInRange(Apply(p, ns[0]), ns[1..]);
    }
  }

  /** Whatever is noted, the live interval stays between the base and the maximum, if and only if the
      base is not above the maximum; it never is when the maximum is the default. */
  lemma IntervalBounded(seconds: real, max: Option<real>, now: real)
    ensures var p := Make(seconds, max, now);
            p.base <= p.max <==>
              forall ns :: p.base <= Run(p, ns).seconds && Run(p, ns).seconds <= p.max
    ensures max.None? ==> Make(seconds, max, now).base <= Make(seconds, max, now).max
  {
    var p := Make(seconds, max, now);
    if p.base <= p.max {
      forall ns
        ensures p.base <= Run(p, ns).seconds && Run(p, ns).seconds <= p.max
      {
        StaysInRange(p, ns);
      }
    } else {
      assert !(Run(p, []).seconds <= p.max);
    }
  }

  /** A rate limit never shortens the interval, and lengthens it by the growth factor and to at least the
      floor, as far as the maximum allows. */
  lemma LimitRaises(p: Pacer)
    requires InRange(p)
    ensures var q := Limited(p);
            && p.seconds <= q.seconds <= p.max && q.streak == 0
            && (q.seconds < p.max ==> q.seconds >= 1.55 * p.seconds && q.seconds >= 18.0)
            && (q.seconds <= 1.55 * p.seconds || q.seconds <= p.base || q.seconds <= 18.0)
            && q.base == p.base && q.max == p.max && q.lastStart == p.lastStart
            && (p.seconds > 0.0 && p.seconds < p.max ==> q.seconds > p.seconds)
  {
  }

  /** The first three successes in a row, and those at the base, are only counted; the fourth shortens the
      interval by 12 percent, to the base where that comes within a twentieth of a second of it. */
  lemma SuccessDecays(p: Pacer)
    requires InRange(p)
    ensures var q := Succeeded(p);
            && q.base == p.base && q.max == p.max && q.lastStart == p.lastStart
            && (p.streak < 3 || p.seconds == p.base ==> q.seconds == p.seconds && q.streak == p.streak + 1)
            && (p.streak >= 3 && p.seconds > p.base ==>
                  && q.streak == 0
                  && (0.88 * p.seconds > p.base + 0.05 ==> q.seconds == 0.88 * p.seconds)
                  && (0.88 * p.seconds <= p.base + 0.05 ==> q.seconds == p.base))
  {
  }

  /** A pacer starts at its base, which is not negative, as if a start had just been made; without a base there
      is nothing to wait for. */
  lemma FirstStart(seconds: real, max: Option<real>, now: real)
    ensures var p := Make(seconds, max, now);
            && p.seconds == p.base >= 0.0 && (seconds >= 0.0 ==> p.base == seconds) && p.streak == 0
            && (seconds <= 0.0 ==> p.base == 0.0)
            && (max.Some? ==> p.max == max.value) && (max.None? ==> p.max >= 90.0 && p.max >= 8.0 * p.base)
            && (max.None? ==> p.max <= 90.0 || p.max <= 8.0 * p.base)
            && Delay(p, now) == p.base
  {
  }

  // ---------------------------------------------------------------- back to the base

  function Successes(p: Pacer, n: nat): Pacer
    decreases n
  {
    if n == 0 then p else Successes(Succeeded(p), n - 1)
  }

  /** Decays that bring an excess over the base below the snap: each takes off at least 0.006. */
  function DecaysLeft(p: Pacer): nat
  {
    if p.seconds <= p.base then 0 else ((p.seconds - p.base) / 0.006).Floor + 1
  }

  /** Successes that certainly bring the interval back to the base. */
  function SuccessesLeft(p: Pacer): nat
  {
    if p.seconds <= p.base then 0 else STREAK * DecaysLeft(p) - Min(p.streak, STREAK - 1)
  }

  lemma DecayShrinks(p: Pacer)
    requires InRange(p) && p.seconds > p.base && p.streak + 1 >= STREAK
    ensures Succeeded(p).seconds == p.base || DecaysLeft(Succeeded(p)) < DecaysLeft(p)
  {
    var q := Succeeded(p);
    if q.seconds != p.base {
      assert p.seconds - q.seconds >= 0.12 * p.seconds >= 0.006;
      assert (q.seconds - p.base) / 0.006 <= (p.seconds - p.base) / 0.006 - 1.0;
    }
  }

  lemma OneSuccess(p: Pacer)
    requires InRange(p) && p.seconds > p.base
    ensures InRange(Succeeded(p)) && SuccessesLeft(Succeeded(p)) < SuccessesLeft(p)
  {
    if p.streak + 1 >= STREAK {
      DecayShrinks(p);
    }
  }

  /** From any interval in range, so many successes in a row return it to exactly the base, and
      further ones leave it there. */
  lemma {:induction false} ReturnsToBase(p: Pacer, n: nat)
    requires InRange(p) && n >= SuccessesLeft(p)
    ensures Successes(p, n).seconds == p.base && Successes(p, n).base == p.base
    decreases n
  {
    if n > 0 {
      if p.seconds > p.base {
        OneSuccess(p);
      }
      ReturnsToBase(Succeeded(p), n - 1);
    }
  }

  /** Whoever waits as told and then starts keeps the interval in force since the last start. */
  lemma WaitKeepsInterval(p: Pacer, asked: real, started: real)
    requires p.lastStart.Some? && started >= asked + Delay(p, asked)
    requires asked >= p.lastStart.value
    ensures started - p.lastStart.value >= p.seconds
  {
  }

  /** Nobody waits longer than that: a wait ends at once, or when the interval has just passed. */
  lemma WaitIsShort(p: Pacer, asked: real)
    ensures Delay(p, asked) == 0.0
            || (Delay(p, asked) > 0.0 && p.lastStart.Some? && asked + Delay(p, asked) == p.lastStart.value + p.seconds)
    ensures p.lastStart.None? || p.seconds <= 0.0 ==> Delay(p, asked) == 0.0
  {
  }

  // ---------------------------------------------------------------- the object

  class MinimumStartInterval {
    const baseSeconds: real
    const maxSeconds: real
    var seconds: real
    var lastStartedAt: Option<real>
    var successStreak: nat

    constructor (seconds: real, max: Option<real>, now: real)
      ensures View() == Make(seconds, max, now)
    {
      var base := MaxR(0.0, seconds);
      baseSeconds := base;
      this.seconds := base;
      maxSeconds := if max.Some? then max.value else MaxR(base * 8.0, 90.0);
      lastStartedAt := if base > 0.0 then Some(now) else None;
      successStreak := 0;
    }

    function View(): Pacer
      reads this
    {
      Pacer(baseSeconds, seconds, maxSeconds, lastStartedAt, successStreak)
    }

    /** The time `wait` asks to sleep. */
    method WaitTime(now: real) returns (delay: real)
      ensures delay == Delay(View(), now) && delay >= 0.0
    {
      if lastStartedAt.None? || seconds <= 0.0 {
        return 0.0;
      }
      delay := seconds - (now - lastStartedAt.value);
      if delay <= 0.0 {
        delay := 0.0;
      }
    }

    method MarkStarted(now: real)
      modifies this`lastStartedAt
      ensures View() == Started(old(View()), now)
    {
      lastStartedAt := Some(now);
    }

    method NoteRateLimited() returns (live: real)
      modifies this`seconds, this`successStreak
      ensures View() == Limited(old(View())) && live == View().seconds
    {
      var floor := MaxR(baseSeconds, FLOOR_SECONDS);
      var raised := MaxR(seconds * RAISE, floor);
      seconds := MinR(maxSeconds, raised);
      successStreak := 0;
      return seconds;
    }

    method NoteSuccessful() returns (live: real)
      modifies this`seconds, this`successStreak
      ensures View() == Succeeded(old(View())) && live == View().seconds
    {
      successStreak := successStreak + 1;
      if successStreak < STREAK || seconds <= baseSeconds {
        return seconds;
      }
      seconds := MaxR(baseSeconds, seconds * DECAY);
      if seconds <= baseSeconds + SNAP {
        seconds := baseSeconds;
      }
      successStreak := 0;
      return seconds;
    }
  }
}
