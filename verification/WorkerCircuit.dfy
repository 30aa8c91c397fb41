/** The circuit breaker inside the worker system: every run of the workers is a run of the circuit, and what
    each way out of a consumption does to it. */
module WorkerCircuit {
  import opened Prelude
  import opened Stock
  import opened Admission
  import R = RegistrationCircuit
  import opened Workers
  import opened WorkerTheorems

  // ---------------------------------------------------------------- the circuit's part of a run

  /** The holder of a token reports with it; a worker without one keeps silent. */
  function Report(k: R.Arg, call: R.Call): seq<R.Call> { if k.Token? then [call] else [] }

  /** The calls that a step makes: a turn of the waiting loop, and the release of what it grants if the pair has
      expired; a release if the pair expires before the consumption begins; after a success a consumption; on a
      rate limit a trip and a deferral; on every other end of the consumption, and on leaving, a deferral. */
  function CircuitCalls(s: Shared, a: Actor, st: Step): seq<R.Call>
  {
    match a
    case CLeave(k, _) => Report(k, R.CallDefer(k))
    case Hold(p, k, h) =>
      (match h
       case NotifyC => []
       case Breaker =>
         if !st.ev.Run? then []
         else
           [R.CallPoll] + if R.Poll(s.circuit, st.mono).1.Grant? && PairExpired(p, st.wall)
                          then [R.CallRelease(R.Token(s.circuit.next))] else []
       case Enter => if st.ev.Run? && PairExpired(p, st.wall) then Report(k, R.CallRelease(k)) else []
       case PhysicalC => if st.ev.Run? then [] else Report(k, R.CallDefer(k))
       case Verify =>
         if st.ev.Run? && !PairExpired(p, st.wall) && R.CanSubmit(s.circuit, k, st.mono) then []
         else Report(k, R.CallDefer(k))
       case Register =>
         if st.ev.Run? then []
         else if st.ev.Limited? then [R.CallTrip] + Report(k, R.CallDefer(k))
         else Report(k, R.CallDefer(k))
       case Persist => Report(k, if st.ev.Run? then R.CallConsume(k) else R.CallDefer(k)))
    case _ => []
  }

  /** The calls with the time of the step. */
  function Timed(calls: seq<R.Call>, now: real): seq<(R.Call, real)>
  {
    seq(|calls|, i requires 0 <= i < |calls| => (calls[i], now))
  }

  lemma UpToTwo(w: R.Watched, calls: seq<R.Call>, now: real)
    requires |calls| <= 2
    ensures R.Run(w, Timed(calls, now)) ==
            if calls == [] then w
            else if |calls| == 1 then R.Apply(w, calls[0], now)
            else R.Apply(R.Apply(w, calls[0], now), calls[1], now)
  {
    hide R.Apply;
    var timed := Timed(calls, now);
    if |calls| == 2 {
      var rest := timed[1..];
      assert rest[1..] == [];
      assert R.Run(w, timed) == R.Run(R.Apply(w, calls[0], now), rest);
      assert R.Run(R.Apply(w, calls[0], now), rest)
          == R.Run(R.Apply(R.Apply(w, calls[0], now), calls[1], now), []);
    } else if |calls| == 1 {
      assert timed[1..] == [];
    }
  }

  lemma CallsOfConsume(c: Cfg, s: Shared, a: Actor, st: Step, m: Move, w: R.Watched)
    requires a.Hold? && Consuming(a.h) && StepConsume(c, s, a.p, a.k, a.h, st) == Some(m) && w.c == s.circuit
    ensures |CircuitCalls(s, a, st)| <= 2
    ensures m.shared.circuit == R.Run(w, Timed(CircuitCalls(s, a, st), st.mono)).c
  {
    hide Timed, PairExpired, R.CanSubmit, R.Trip, R.ConsumeRecovery, R.CompleteRecovery, Store.Settled;
    UpToTwo(w, CircuitCalls(s, a, st), st.mono);
  }

  lemma CallsOfPass(c: Cfg, s: Shared, a: Actor, st: Step, m: Move, w: R.Watched)
    requires a.Hold? && !Consuming(a.h) && StepPass(c, s, a.p, a.k, a.h, st) == Some(m) && w.c == s.circuit
    ensures |CircuitCalls(s, a, st)| <= 2
    ensures m.shared.circuit == R.Run(w, Timed(CircuitCalls(s, a, st), st.mono)).c
  {
    hide Timed, PairExpired, R.IsOpen, R.RemainingSeconds, Store.Settled;
    UpToTwo(w, CircuitCalls(s, a, st), st.mono);
  }

  lemma CircuitStep(c: Cfg, s: Shared, a: Actor, st: Step, m: Move, w: R.Watched)
    requires Act(c, s, a, st) == Some(m) && w.c == s.circuit
    ensures m.shared.circuit == R.Run(w, Timed(CircuitCalls(s, a, st), st.mono)).c
  {
    hide StepPass, StepConsume, TryPop, Store.Cleaned, Store.Settled, Lobby.ReleaseOne, R.Poll, R.DeferProbe,
      PairExpired, Store.StoreT, Store.StoreQ, Timed, R.Apply, R.Run;
    match a {
      case Batch(_, _, b) =>
        UpToTwo(w, [], st.mono);
        match PhaseOf(b) {
          case Reserving =>
          case Queueing =>
          case Posting =>
          case HandingOver =>
        }
      case Hold(_, _, h) =>
        if Consuming(h) {
          CallsOfConsume(c, s, a, st, m, w);
        } else {
          CallsOfPass(c, s, a, st, m, w);
        }
      case CLeave(k, dying) => CallsOfLeave(c, s, a, st, m, w);
      case _ => UpToTwo(w, [], st.mono);
    }
  }

  lemma CallsOfLeave(c: Cfg, s: Shared, a: Actor, st: Step, m: Move, w: R.Watched)
    requires a.CLeave? && StepLeave(c, s, a.k, a.dying, st) == Some(m) && w.c == s.circuit
    ensures m.shared.circuit == R.Run(w, Timed(CircuitCalls(s, a, st), st.mono)).c
  {
    hide Timed;
    UpToTwo(w, CircuitCalls(s, a, st), st.mono);
  }

  /** The calls of a whole run, with their times. */
  function CircuitRun(c: Cfg, s: Sys, run: seq<Step>): seq<(R.Call, real)>
    requires Exec(c, s, run).Some?
    decreases |run|
  {
    if run == [] then []
    else
      Timed(CircuitCalls(s.shared, s.actors[run[0].i], run[0]), run[0].mono)
      + CircuitRun(c, Next(c, s, run[0]).value, run[1..])
  }

  lemma {:induction false} RunConcat(w: R.Watched, xs: seq<(R.Call, real)>, ys: seq<(R.Call, real)>)
    ensures R.Run(w, xs + ys) == R.Run(R.Run(w, xs), ys)
    decreases |xs|
  {
    hide R.Apply;
    if xs == [] {
      assert xs + ys == ys;
    } else {
      assert (xs + ys)[1..] == xs[1..] + ys;
      RunConcat(R.Apply(w, xs[0].0, xs[0].1), xs[1..], ys);
    }
  }

  lemma {:induction false} FollowsFrom(c: Cfg, s: Sys, run: seq<Step>, s': Sys, w: R.Watched)
    requires Exec(c, s, run) == Some(s') && w.c == s.shared.circuit
    ensures s'.shared.circuit == R.Run(w, CircuitRun(c, s, run)).c
    decreases |run|
  {
    hide Act, CircuitCalls, Timed, R.Apply;
    if run != [] {
      var st, n, a := run[0], Next(c, s, run[0]).value, s.actors[run[0].i];
      var calls := Timed(CircuitCalls(s.shared, a, st), st.mono);
      CircuitStep(c, s.shared, a, st, Act(c, s.shared, a, st).value, w);
      FollowsFrom(c, n, run[1..], s', R.Run(w, calls));
      RunConcat(w, calls, CircuitRun(c, n, run[1..]));
    }
  }

  /** The circuit after any run of the workers is the circuit after the calls of that run alone, so whatever
      holds of every sequence of calls holds of the workers. */
  lemma CircuitFollows(c: Cfg, l: Launch, run: seq<Step>, s: Sys)
    requires Exec(c, Begin(c, l), run) == Some(s)
    ensures s.shared.circuit ==
            R.Run(R.Watched(R.Initial(l.cooldown, l.recovery, l.interval), 0.0, 0.0), CircuitRun(c, Begin(c, l), run)).c
  {
    FollowsFrom(c, Begin(c, l), run, s, R.Watched(R.Initial(l.cooldown, l.recovery, l.interval), 0.0, 0.0));
  }

  lemma ReachableSound(c: Cfg, s: Sys) returns (w: R.Watched)
    requires Reachable(c, s)
    ensures w.c == s.shared.circuit && R.Sound(w)
  {
    hide Begin, R.Sound;
    var l, run :| Exec(c, Begin(c, l), run) == Some(s);
    var w0 := R.Watched(R.Initial(l.cooldown, l.recovery, l.interval), 0.0, 0.0);
    StartSound(w0, l);
    CircuitFollows(c, l, run, s);
    R.SoundRun(w0, CircuitRun(c, Begin(c, l), run));
    w := R.Run(w0, CircuitRun(c, Begin(c, l), run));
  }

  lemma StartSound(w: R.Watched, l: Launch)
    requires w == R.Watched(R.Initial(l.cooldown, l.recovery, l.interval), 0.0, 0.0)
    ensures R.Sound(w)
  {
  }

  // ---------------------------------------------------------------- the ways out of a consumption

  /** The actor answers for the current token. */
  predicate Holds(s: Shared, k: R.Arg) { k.Token? && s.circuit.probe == Some(k.id) }

  /** `d` is `c` without a current token, and with these times. */
  predicate Becomes(
    c: R.Circuit, d: R.Circuit, trippedAt: Option<real>, blocked: real, recovering: real, nextSubmit: real)
  {
    d == R.Circuit(c.cooldown, c.recovery, c.interval, blocked, trippedAt, false, None, recovering, nextSubmit, c.next)
  }

  /** The holder has failed: another cooldown while tripped, another interval in a recovery. */
  predicate PutOff(c: R.Circuit, d: R.Circuit, now: real)
  {
    if c.trippedAt.Some? then
      Becomes(c, d, c.trippedAt, MaxR(c.blockedUntil, now + c.cooldown), c.recoveringUntil, c.nextSubmit)
    else Becomes(c, d, None, c.blockedUntil, c.recoveringUntil, now + c.interval)
  }

  /** A consumption that has stored its account: the holder of the current token closes a trip, and the circuit
      recovers for the set time, the next submission one interval later; or settles a submission of the
      recovery. Without the current token nothing changes. */
  lemma SuccessRecovers(c: Cfg, s: Sys, st: Step, s': Sys)
    requires Reachable(c, s) && Next(c, s, st) == Some(s')
    requires s.actors[st.i].Hold? && s.actors[st.i].h.Persist? && st.ev.Run?
    ensures var (d, d') := (s.shared.circuit, s'.shared.circuit);
            if !Holds(s.shared, s.actors[st.i].k) then d' == d
            else if d.trippedAt.Some? then
              Becomes(d, d', None, 0.0, st.mono + d.recovery, st.mono + d.interval)
            else d.Recovering() && Becomes(d, d', None, d.blockedUntil, d.recoveringUntil, st.mono + d.interval)
  {
    var a := s.actors[st.i];
    hide Reachable, Next, R.Run, R.ConsumeRecovery;
    var w := CallsAre(c, s, st, s');
    if a.k.Token? {
      R.StaleOrHeld(w, a.k, st.mono);
    }
  }

  /** What the calls of the step come to. */
  lemma CallsAre(c: Cfg, s: Sys, st: Step, s': Sys) returns (w: R.Watched)
    requires Reachable(c, s) && Next(c, s, st) == Some(s')
    ensures w.c == s.shared.circuit && R.Sound(w)
    ensures var calls := CircuitCalls(s.shared, s.actors[st.i], st);
            && |calls| <= 2
            && s'.shared.circuit ==
               if calls == [] then w.c
               else if |calls| == 1 then R.Apply(w, calls[0], st.mono).c
               else R.Apply(R.Apply(w, calls[0], st.mono), calls[1], st.mono).c
  {
    hide Reachable, Act, R.Run, R.Apply, R.Sound, Timed;
    w := ReachableSound(c, s);
    var a := s.actors[st.i];
    CircuitStep(c, s.shared, a, st, Act(c, s.shared, a, st).value, w);
    UpToTwo(w, CircuitCalls(s.shared, a, st), st.mono);
  }

  /** A rate limit trips the circuit, whoever holds what: blocked for at least a cooldown from now, no recovery
      and no token. */
  lemma LimitTrips(c: Cfg, s: Sys, st: Step, s': Sys)
    requires Reachable(c, s) && Next(c, s, st) == Some(s') && st.ev.Limited?
    ensures s.actors[st.i].Hold? && s.actors[st.i].h.Register?
    ensures var (d, d') := (s.shared.circuit, s'.shared.circuit);
            Becomes(d, d', Some(if d.trippedAt.Some? then d.trippedAt.value else st.mono),
                    MaxR(d.blockedUntil, st.mono + d.cooldown), 0.0, 0.0)
  {
    LimitedAt(c, s, st, s');
    hide Reachable, Next, R.Run, R.Apply, R.Sound, Becomes;
    var w := CallsAre(c, s, st, s');
    TripIsLast(w, s.actors[st.i].k, st.mono);
  }

  /** The deferral that follows a trip finds no token current. */
  lemma TripIsLast(w: R.Watched, k: R.Arg, now: real)
    ensures var d := R.Apply(w, R.CallTrip, now).c;
            && Becomes(w.c, d, Some(if w.c.trippedAt.Some? then w.c.trippedAt.value else now),
                       MaxR(w.c.blockedUntil, now + w.c.cooldown), 0.0, 0.0)
            && (k.Token? ==> R.Apply(R.Apply(w, R.CallTrip, now), R.CallDefer(k), now).c == d)
  {
  }

  lemma LimitedAt(c: Cfg, s: Sys, st: Step, s': Sys)
    requires Next(c, s, st) == Some(s') && st.ev.Limited?
    ensures s.actors[st.i].Hold? && s.actors[st.i].h.Register?
  {
    hide TryT, TryQ, TryPop, Store.Cleaned, Store.Settled, Lobby.ReleaseOne, R.Poll, Retire, R.Trip, R.ConsumeRecovery,
      R.CanSubmit, PairExpired, GiveUp, Store.StoreT, Store.StoreQ;
    match s.actors[st.i] {
      case Batch(_, _, b) =>
        match PhaseOf(b) {
          case Reserving =>
          case Queueing =>
          case Posting =>
          case HandingOver =>
        }
      case _ =>
    }
  }

  /** Every other end of a begun consumption, and the worker's own last call, put the holder's token off; for
      everybody else nothing changes. */
  lemma FailureDefers(c: Cfg, s: Sys, st: Step, s': Sys)
    requires Reachable(c, s) && Next(c, s, st) == Some(s') && !st.ev.Limited?
    requires var a := s.actors[st.i];
             a.CLeave? || (a.Hold? && Consuming(a.h) && !s'.actors[st.i].Hold? && !(a.h.Persist? && st.ev.Run?))
    ensures var (d, d', k) := (s.shared.circuit, s'.shared.circuit, s.actors[st.i].k);
            if Holds(s.shared, k) then PutOff(d, d', st.mono) else d' == d
  {
    var a := s.actors[st.i];
    if a.Hold? {
      DefersIfOut(c, s, st, s');
    }
    hide Reachable, Next, R.Run;
    var w := CallsAre(c, s, st, s');
    if a.k.Token? {
      R.StaleOrHeld(w, a.k, st.mono);
    }
  }

  lemma DefersIfOut(c: Cfg, s: Sys, st: Step, s': Sys)
    requires Next(c, s, st) == Some(s') && !st.ev.Limited? && s.actors[st.i].Hold? && Consuming(s.actors[st.i].h)
    requires !s'.actors[st.i].Hold? && !(s.actors[st.i].h.Persist? && st.ev.Run?)
    ensures CircuitCalls(s.shared, s.actors[st.i], st) == Report(s.actors[st.i].k, R.CallDefer(s.actors[st.i].k))
  {
    hide Store.Settled, Retire, R.Trip, R.ConsumeRecovery, R.CanSubmit, PairExpired;
  }

  /** A pair that expires between the breaker and the consumption costs nothing: the token is let go, and no
      time changes. */
  lemma ExpiryReleases(c: Cfg, s: Sys, st: Step, s': Sys)
    requires Reachable(c, s) && Next(c, s, st) == Some(s') && st.ev.Run?
    requires s.actors[st.i].Hold? && s.actors[st.i].h.Enter? && PairExpired(s.actors[st.i].p, st.wall)
    ensures var (d, d') := (s.shared.circuit, s'.shared.circuit);
            if Holds(s.shared, s.actors[st.i].k)
            then Becomes(d, d', d.trippedAt, d.blockedUntil, d.recoveringUntil, d.nextSubmit) else d' == d
    ensures !s'.actors[st.i].Hold?
  {
    EnterLeaves(c, s, st, s');
    hide Reachable, Next, R.Run;
    var a := s.actors[st.i];
    var w := CallsAre(c, s, st, s');
    if a.k.Token? {
      R.StaleOrHeld(w, a.k, st.mono);
    }
  }

  lemma EnterLeaves(c: Cfg, s: Sys, st: Step, s': Sys)
    requires Next(c, s, st) == Some(s') && st.ev.Run?
    requires s.actors[st.i].Hold? && s.actors[st.i].h.Enter? && PairExpired(s.actors[st.i].p, st.wall)
    ensures !s'.actors[st.i].Hold?
  {
  }

  /** A turn at the breaker with a pair that has expired: what is granted is let go at once, so that nobody
      waits for it; the end of a recovery is noted all the same. */
  lemma ExpiredAtBreaker(c: Cfg, s: Sys, st: Step, s': Sys)
    requires Reachable(c, s) && Next(c, s, st) == Some(s') && st.ev.Run?
    requires s.actors[st.i].Hold? && s.actors[st.i].h.Breaker? && PairExpired(s.actors[st.i].p, st.wall)
    ensures var (d, d') := (s.shared.circuit, s'.shared.circuit);
            var decision := R.Poll(d, st.mono).1;
            && (decision.Sleep? ==> d' == d && s'.actors[st.i] == s.actors[st.i])
            && (decision.Pass? ==> d'.Normal() && !s'.actors[st.i].Hold?)
            && (decision.Grant? ==> d' == d.(next := d.next + 1) && !s'.actors[st.i].Hold?)
  {
    BreakerLeaves(c, s, st, s');
    hide Reachable, Next, R.Run, R.Poll;
    var w := CallsAre(c, s, st, s');
    R.PollRule(w, st.mono);
  }

  lemma BreakerLeaves(c: Cfg, s: Sys, st: Step, s': Sys)
    requires Next(c, s, st) == Some(s') && st.ev.Run?
    requires s.actors[st.i].Hold? && s.actors[st.i].h.Breaker? && PairExpired(s.actors[st.i].p, st.wall)
    ensures if R.Poll(s.shared.circuit, st.mono).1.Sleep? then s'.actors[st.i] == s.actors[st.i]
            else !s'.actors[st.i].Hold?
  {
    hide R.Poll, GiveUp, Store.Settled;
  }

  /** No other step touches the circuit. */
  lemma CircuitUntouched(c: Cfg, s: Sys, st: Step, s': Sys)
    requires Reachable(c, s) && Next(c, s, st) == Some(s') && s'.shared.circuit != s.shared.circuit
    ensures var a := s.actors[st.i];
            || (a.CLeave? && Holds(s.shared, a.k))
            || (a.Hold? && a.h.Breaker? && st.ev.Run?)
            || (a.Hold? && (a.h.Enter? || Consuming(a.h)) && (st.ev.Limited? || Holds(s.shared, a.k)))
  {
    var a := s.actors[st.i];
    hide Reachable, Next, R.Run, R.Poll, R.ConsumeRecovery, R.DeferProbe, R.ReleaseProbe;
    var w := CallsAre(c, s, st, s');
    if (a.Hold? || a.CLeave?) && a.k.Token? {
      R.StaleOrHeld(w, a.k, st.mono);
    }
  }
}
