/** When the breaker opens, told by the history of a run alone. */
module BreakerOpenings {
  import opened CircuitBreaker
  import opened BreakerRuns

  /** The failure at place k has to open the breaker: no opening is waiting for a pass, and either some opening has not
      been recovered from, so that this was a trial, or the failures in a row have reached the threshold. */
  predicate Due(c: Config, log: seq<Event>, k: nat)
    requires k < |log|
  {
    !Pending(log[..k]) && (!Recovered(log[..k]) || Trailing(log[..k + 1]) >= c.failureThreshold)
  }

  predicate OpensAfter(log: seq<Event>, k: nat) {
    k + 1 < |log| && log[k + 1].Opened?
  }

  /** Openings stand directly after failures, at the same time, and exactly after those that are due. */
  predicate OpensWhenDue(c: Config, log: seq<Event>) {
    && (forall k: nat :: k < |log| && log[k].Opened? ==> k > 0 && log[k - 1] == Failure(log[k].at))
    && (forall k: nat :: k < |log| && log[k].Failure? ==> (OpensAfter(log, k) <==> Due(c, log, k)))
  }

  lemma SamePrefix(log: seq<Event>, more: seq<Event>, k: nat)
    requires k <= |log|
    ensures (log + more)[..k] == log[..k]
  {
  }

  /** A failure, with or without its opening. */
  lemma FailureSnoc(c: Config, log: seq<Event>, at: int, opens: bool)
    requires OpensWhenDue(c, log)
    requires opens <==> Due(c, log + [Failure(at)], |log|)
    ensures OpensWhenDue(c, log + ([Failure(at)] + if opens then [Opened(at)] else []))
  {
    var more := [Failure(at)] + if opens then [Opened(at)] else [];
    var after := log + more;
    forall k: nat | k < |after| && after[k].Failure? ensures OpensAfter(after, k) <==> Due(c, after, k) {
      SamePrefix(log, more, k);
      if k < |log| {
        SamePrefix(log, more, k + 1);
        assert OpensAfter(after, k) <==> OpensAfter(log, k);
      } else {
        assert k == |log|;
        SamePrefix(log, [Failure(at)], k);
        assert after[..k + 1] == (log + [Failure(at)])[..k + 1];
      }
    }
  }

  lemma OtherSnoc(c: Config, log: seq<Event>, e: Event)
    requires OpensWhenDue(c, log) && (e.Passed? || e.Succeeded?)
    ensures OpensWhenDue(c, log + [e])
  {
    var after := log + [e];
    forall k: nat | k < |after| && after[k].Failure? ensures OpensAfter(after, k) <==> Due(c, after, k) {
      SamePrefix(log, [e], k);
      SamePrefix(log, [e], k + 1);
      assert OpensAfter(after, k) <==> OpensAfter(log, k);
    }
  }

  predicate Told(c: Config, s: State) {
    && OpensWhenDue(c, s.log) && ModeIs(s.v.mode, s.log) && s.v.failures == Trailing(s.log)
  }

  /** What trips the breaker is what is due. */
  lemma TripsWhenDue(c: Config, s: State, at: int)
    requires Told(c, s)
    ensures Trips(c, s.v) <==> Due(c, s.log + [Failure(at)], |s.log|)
  {
    SamePrefix(s.log, [Failure(at)], |s.log|);
    assert s.log[..|s.log|] == s.log;
    assert (s.log + [Failure(at)])[..|s.log| + 1] == s.log + [Failure(at)];
    TrailingSnoc(s.log, Failure(at));
  }

  lemma StepTold(c: Config, s: State, a: Action)
    requires Told(c, s) && Enabled(s, a)
    ensures OpensWhenDue(c, Step(c, s, a).log)
  {
    if a.Guard? {
      OtherSnoc(c, s.log, Passed(a.at));
    } else if a.Done? && a.ok {
      OtherSnoc(c, s.log, Succeeded(a.at));
    } else if a.Done? {
      TripsWhenDue(c, s, a.at);
      FailureSnoc(c, s.log, a.at, Trips(c, s.v));
    }
  }

  lemma StepTrailing(c: Config, s: State, a: Action)
    requires s.v.failures == Trailing(s.log) && Enabled(s, a)
    ensures Step(c, s, a).v.failures == Trailing(Step(c, s, a).log)
  {
    if a.Guard? {
      TrailingSnoc(s.log, Passed(a.at));
    } else if a.Done? {
      TrailingSnoc(s.log, Succeeded(a.at));
      TrailingFailure(c, s.log, s.v, a.at);
    }
  }

  lemma {:induction false} RunTold(c: Config, s: State, acts: seq<Action>)
    requires Told(c, s) && CanRun(c, s, acts)
    ensures Told(c, Run(c, s, acts))
    decreases |acts|
  {
    if acts != [] {
      StepTold(c, s, acts[0]);
      StepMode(c, s, acts[0]);
      StepTrailing(c, s, acts[0]);
      RunTold(c, Step(c, s, acts[0]), acts[1..]);
    }
  }

  /** In every run, however publishes overlap, the breaker opens only at a recorded failure, and exactly at those that
      are due: no opening is waiting for a pass, and the failure either was recorded while an opening had not been
      recovered from, or has brought the failures since the last success to the threshold. */
  lemma OpensExactlyWhenDue(c: Config, acts: seq<Action>)
    requires CanRun(c, INITIAL, acts)
    ensures OpensWhenDue(c, Run(c, INITIAL, acts).log)
  {
    RunTold(c, INITIAL, acts);
  }

  predicate NoOpening(log: seq<Event>) {
    forall k :: 0 <= k < |log| ==> !log[k].Opened?
  }

  /** The failures in a row stay below the threshold. */
  predicate StaysBelow(c: Config, log: seq<Event>) {
    forall k: nat :: k <= |log| ==> Trailing(log[..k]) < c.failureThreshold
  }

  lemma NothingToRecover(log: seq<Event>, k: nat)
    requires k <= |log| && NoOpening(log[..k])
    ensures forall i: nat :: i <= k ==> Recovered(log[..i])
  {
    forall i: nat | i <= k ensures Recovered(log[..i]) {
      assert forall j :: 0 <= j < i ==> log[..i][j] == log[..k][j];
    }
  }

  lemma NotYetDue(c: Config, log: seq<Event>, k: nat)
    requires StaysBelow(c, log) && k < |log| && Recovered(log[..k])
    ensures !Due(c, log, k)
  {
  }

  lemma NotTheFirst(c: Config, log: seq<Event>, k: nat)
    requires OpensWhenDue(c, log) && StaysBelow(c, log) && k < |log| && NoOpening(log[..k])
    ensures !log[k].Opened?
  {
    NothingToRecover(log, k);
    if k > 0 {
      NotYetDue(c, log, k - 1);
      assert log[k - 1].Failure? ==> !OpensAfter(log, k - 1);
    }
  }

  /** No event is the first opening. */
  predicate NoneIsFirst(log: seq<Event>) {
    forall k: nat :: k < |log| && NoOpening(log[..k]) ==> !log[k].Opened?
  }

  lemma NoFirst(c: Config, log: seq<Event>)
    requires OpensWhenDue(c, log) && StaysBelow(c, log)
    ensures NoneIsFirst(log)
  {
    forall k: nat | k < |log| && NoOpening(log[..k]) ensures !log[k].Opened? {
      NotTheFirst(c, log, k);
    }
  }

  lemma {:induction false} NoOpeningYet(log: seq<Event>, n: nat)
    requires NoneIsFirst(log) && n <= |log|
    ensures NoOpening(log[..n])
  {
    if n > 0 {
      NoOpeningYet(log, n - 1);
      assert log[..n] == log[..n - 1] + [log[n - 1]];
    }
  }

  /** A run whose failures in a row stay below the threshold never opens the breaker, and every guard in it and after
      it passes. */
  lemma BelowThresholdNeverOpens(c: Config, acts: seq<Action>, now: int)
    requires CanRun(c, INITIAL, acts) && StaysBelow(c, Run(c, INITIAL, acts).log)
    ensures NoOpening(Run(c, INITIAL, acts).log)
    ensures Run(c, INITIAL, acts).v.mode == Closed && Passes(c, Run(c, INITIAL, acts).v, now)
  {
    RunTold(c, INITIAL, acts);
    var log := Run(c, INITIAL, acts).log;
    NoFirst(c, log);
    NoOpeningYet(log, |log|);
    assert log[..|log|] == log;
  }
}
