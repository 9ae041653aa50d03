/** The circuit breaker in front of publishing: it opens after a number of failures in a row, rejects every
    publish for a while, and then lets publishes through again on trial. */
module CircuitBreaker {

  datatype Mode = Closed | Open | HalfOpen

  datatype Config = Config(failureThreshold: int, resetTimeoutMs: int)

  datatype View = View(mode: Mode, failures: nat, openedAt: int, successes: nat)

  datatype Outcome = Rejected | NotConnected | Failed | Published

  const CLOSED := View(Closed, 0, 0, 0)

  predicate Passes(c: Config, v: View, now: int) {
    v.mode == Open ==> now - v.openedAt >= c.resetTimeoutMs
  }

  function AfterGuard(c: Config, v: View, now: int): View {
    if v.mode == Open && Passes(c, v, now) then v.(mode := HalfOpen, successes := 0) else v
  }

  function AfterSuccess(v: View): View {
    if v.mode == HalfOpen then View(Closed, 0, v.openedAt, v.successes + 1) else v.(failures := 0)
  }

  predicate Trips(c: Config, v: View) {
    v.mode == HalfOpen || (v.mode == Closed && v.failures + 1 >= c.failureThreshold)
  }

  function AfterFailure(c: Config, v: View, now: int): View {
    if Trips(c, v) then View(Open, v.failures + 1, now, v.successes) else v.(failures := v.failures + 1)
  }

  class Breaker {
    const config: Config
    var breakerState: Mode
    var consecutiveFailures: nat
    var breakerOpenedAt: int
    var halfOpenSuccesses: nat

    function Now(): View
      reads this
    {
      View(breakerState, consecutiveFailures, breakerOpenedAt, halfOpenSuccesses)
    }

    constructor (c: Config)
      ensures config == c && Now() == CLOSED
    {
      config := c;
      breakerState, consecutiveFailures, breakerOpenedAt, halfOpenSuccesses := Closed, 0, 0, 0;
    }

    method GuardCircuitBreaker(now: int) returns (passed: bool)
      modifies this
      ensures passed == Passes(config, old(Now()), now)
      ensures Now() == AfterGuard(config, old(Now()), now)
    {
      if breakerState == Open {
        if now - breakerOpenedAt >= config.resetTimeoutMs {
          breakerState := HalfOpen;
          halfOpenSuccesses := 0;
        } else {
          return false;
        }
      }
      passed := true;
    }

    method RecordSuccess()
      modifies this
      ensures Now() == AfterSuccess(old(Now()))
    {
      if breakerState == HalfOpen {
        halfOpenSuccesses := halfOpenSuccesses + 1;
        if halfOpenSuccesses >= 1 {
          breakerState := Closed;
          consecutiveFailures := 0;
        }
      } else {
        consecutiveFailures := 0;
      }
    }

    method RecordFailure(now: int)
      modifies this
      ensures Now() == AfterFailure(config, old(Now()), now)
      ensures consecutiveFailures == old(consecutiveFailures) + 1
      ensures breakerState == Open
        <==> old(breakerState) != Closed || consecutiveFailures >= config.failureThreshold
    {
      consecutiveFailures := consecutiveFailures + 1;
      if breakerState == HalfOpen || (breakerState == Closed && consecutiveFailures >= config.failureThreshold) {
        breakerState := Open;
        breakerOpenedAt := now;
      }
    }

    /** One publish that no other overlaps. A failure to connect is thrown before the recorded part. */
    method Publish(guardAt: int, connected: bool, confirmed: bool, doneAt: int) returns (r: Outcome)
      modifies this
      ensures var g := AfterGuard(config, old(Now()), guardAt);
        && (r == Rejected <==> !Passes(config, old(Now()), guardAt))
        && (r == NotConnected <==> Passes(config, old(Now()), guardAt) && !connected)
        && (r == Published ==> confirmed && Now() == AfterSuccess(g))
        && (r == Failed ==> !confirmed && Now() == AfterFailure(config, g, doneAt))
        && (r == Rejected || r == NotConnected ==> Now() == g)
    {
      var passed := GuardCircuitBreaker(guardAt);
      if !passed {
        return Rejected;
      }
      if !connected {
        return NotConnected;
      }
      if confirmed {
        RecordSuccess();
        r := Published;
      } else {
        RecordFailure(doneAt);
        r := Failed;
      }
    }
  }
}
