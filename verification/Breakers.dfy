/** `RegistrationRateLimitCircuit` as the source has it, updated in place
    (grok_register/register.py).  Every method is passed what the clock reads. */
module Breakers {
  import opened Prelude
  import opened RegistrationCircuit

  class RegistrationRateLimitCircuit {
    const cooldown: real
    const recovery: real
    const interval: real
    var blockedUntil: real
    var trippedAt: Option<real>
    var probeActive: bool
    var probeToken: Option<nat>
    var recoveringUntil: real
    var nextRecoverySubmit: real
    var tokensMade: nat

    constructor (cooldown: real, recovery: real, interval: real)
      ensures View() == Initial(cooldown, recovery, interval)
    {
      this.cooldown, this.recovery, this.interval := cooldown, recovery, interval;
      blockedUntil, recoveringUntil, nextRecoverySubmit := 0.0, 0.0, 0.0;
      trippedAt, probeActive, probeToken, tokensMade := None, false, None, 0;
    }

    function View(): Circuit
      reads this
    {
      Circuit(cooldown, recovery, interval, blockedUntil, trippedAt, probeActive, probeToken,
              recoveringUntil, nextRecoverySubmit, tokensMade)
    }

    method TripNow(now: real) returns (startsNewWindow: bool)
      modifies this
      ensures View() == Trip(old(View()), now)
      ensures startsNewWindow <==> !IsOpen(old(View()), now)
    {
      startsNewWindow := !IsOpen(View(), now);
      if trippedAt.None? {
        trippedAt := Some(now);
      }
      recoveringUntil := 0.0;
      nextRecoverySubmit := 0.0;
      probeActive := false;
      probeToken := None;
      blockedUntil := MaxR(blockedUntil, now + cooldown);
    }

    /** One turn of the loop in `wait`. */
    method WaitTurn(now: real) returns (d: Decision)
      modifies this
      ensures (View(), d) == Poll(old(View()), now)
    {
      if IsOpen(View(), now) {
        return Sleep(Min(RemainingSeconds(View(), now), 5) as real);
      }
      if trippedAt.None? {
        if recoveringUntil == 0.0 {
          return Pass;
        }
        if probeActive {
          return Sleep(0.2);
        }
        if now >= recoveringUntil {
          recoveringUntil := 0.0;
          nextRecoverySubmit := 0.0;
          return Pass;
        }
        var recoveryWait := nextRecoverySubmit - now;
        if recoveryWait > 0.0 {
          return Sleep(MinR(recoveryWait, 0.5));
        }
      }
      if !probeActive {
        probeActive := true;
        probeToken := Some(tokensMade);
        tokensMade := tokensMade + 1;
        return Grant(tokensMade - 1);
      }
      return Sleep(0.2);
    }

    method Complete(token: Arg, now: real) returns (done: bool)
      modifies this
      ensures (View(), done) == CompleteRecovery(old(View()), token, now)
    {
      if !View().Is(token) || recoveringUntil == 0.0 {
        return false;
      }
      probeActive := false;
      probeToken := None;
      nextRecoverySubmit := now + interval;
      return true;
    }

    method Consume(token: Arg, now: real) returns (elapsed: Option<real>)
      modifies this
      ensures (View(), elapsed) == ConsumeRecovery(old(View()), token, now)
    {
      if trippedAt.None? {
        var _ := Complete(token, now);
        return None;
      }
      if !token.NoArg? && !View().Is(token) {
        return None;
      }
      elapsed := Some(now - trippedAt.value);
      trippedAt := None;
      blockedUntil := 0.0;
      probeActive := false;
      probeToken := None;
      recoveringUntil := now + recovery;
      nextRecoverySubmit := now + interval;
    }

    method Release(token: Arg)
      modifies this
      ensures View() == ReleaseProbe(old(View()), token)
    {
      if View().Is(token) {
        probeActive := false;
        probeToken := None;
      }
    }

    method Defer(token: Arg, now: real)
      modifies this
      ensures View() == DeferProbe(old(View()), token, now)
    {
      if !View().Is(token) {
        return;
      }
      probeActive := false;
      probeToken := None;
      if trippedAt.Some? {
        blockedUntil := MaxR(blockedUntil, now + cooldown);
      } else if recoveringUntil != 0.0 {
        nextRecoverySubmit := now + interval;
      }
    }
  }
}
