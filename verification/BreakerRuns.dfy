/** Runs of the circuit breaker in which publishes overlap: the guard, the connection, the channel attempt and
    the recorded outcome of a publish are separate steps. */
module BreakerRuns {
  import opened CircuitBreaker

  datatype Event = Opened(at: int) | Passed(at: int) | Succeeded(at: int) | Failure(at: int)

  /** `waiting` publishes have passed the guard and are connecting; `inFlight` have been handed to the
      channel. `log` records what happened, oldest first. */
  datatype State = State(v: View, now: int, waiting: nat, inFlight: nat, log: seq<Event>)

  datatype Action = Guard(at: int) | GiveUp(at: int) | Attempt(at: int) | Done(at: int, ok: bool)

  const INITIAL := State(CLOSED, 0, 0, 0, [])

  predicate Enabled(s: State, a: Action) {
    && a.at >= s.now
    && match a
       case Guard(_) => true
       case GiveUp(_) => s.waiting > 0
       case Attempt(_) => s.waiting > 0
       case Done(_, _) => s.inFlight > 0
  }

  function Step(c: Config, s: State, a: Action): State
    requires Enabled(s, a)
  {
    match a
    case Guard(now) =>
      if Passes(c, s.v, now) then State(AfterGuard(c, s.v, now), now, s.waiting + 1, s.inFlight, s.log + [Passed(now)])
      else s.(now := now)
    case GiveUp(now) => s.(now := now, waiting := s.waiting - 1)
    case Attempt(now) => s.(now := now, waiting := s.waiting - 1, inFlight := s.inFlight + 1)
    case Done(now, ok) =>
      if ok then State(AfterSuccess(s.v), now, s.waiting, s.inFlight - 1, s.log + [Succeeded(now)])
      else State(AfterFailure(c, s.v, now), now, s.waiting, s.inFlight - 1, s.log + FailureEvents(c, s.v, now))
  }

  function FailureEvents(c: Config, v: View, now: int): seq<Event> {
    [Failure(now)] + if Trips(c, v) then [Opened(now)] else []
  }

  predicate CanRun(c: Config, s: State, acts: seq<Action>)
    decreases |acts|
  {
    acts == [] || (Enabled(s, acts[0]) && CanRun(c, Step(c, s, acts[0]), acts[1..]))
  }

  function Run(c: Config, s: State, acts: seq<Action>): State
    requires CanRun(c, s, acts)
    decreases |acts|
  {
    if acts == [] then s else Run(c, Step(c, s, acts[0]), acts[1..])
  }

  // ---------------------------------------------------------------- invariants

  /** The failures recorded since the last recorded success. */
  function Trailing(log: seq<Event>): nat {
    if log == [] then 0
    else match log[|log| - 1]
      case Succeeded(_) => 0
      case Failure(_) => Trailing(log[..|log| - 1]) + 1
      case _ => Trailing(log[..|log| - 1])
  }

  lemma TrailingSnoc(log: seq<Event>, e: Event)
    ensures Trailing(log + [e]) == if e.Succeeded? then 0 else if e.Failure? then Trailing(log) + 1 else Trailing(log)
  {
    assert (log + [e])[..|log|] == log;
  }

  lemma TrailingFailure(c: Config, log: seq<Event>, v: View, at: int)
    ensures Trailing(log + FailureEvents(c, v, at)) == Trailing(log) + 1
  {
    TrailingSnoc(log, Failure(at));
    TrailingSnoc(log + [Failure(at)], Opened(at));
    assert log + ([Failure(at)] + [Opened(at)]) == log + [Failure(at)] + [Opened(at)];
    assert [Failure(at)] + [] == [Failure(at)];
  }

  /** Every opening in the log is over by the given time. */
  predicate Over(c: Config, log: seq<Event>, now: int) {
    forall i :: 0 <= i < |log| && log[i].Opened? ==> log[i].at + c.resetTimeoutMs <= now
  }

  /** After an opening, nothing passes and nothing opens again until the reset time is over. */
  predicate Quiet(c: Config, log: seq<Event>) {
    forall i, j :: 0 <= i < j < |log| && log[i].Opened? && (log[j].Passed? || log[j].Opened?)
      ==> log[i].at + c.resetTimeoutMs <= log[j].at
  }

  predicate Counts(c: Config, s: State) {
    && s.v.failures == Trailing(s.log)
    && (s.v.mode == Closed && c.failureThreshold >= 1 ==> s.v.failures < c.failureThreshold)
  }

  /** The breaker is open since the last opening, and otherwise every opening is over. */
  predicate Times(c: Config, s: State) {
    && Quiet(c, s.log)
    && (forall i :: 0 <= i < |s.log| && s.log[i].Opened? ==> s.log[i].at <= s.now)
    && (s.v.mode == Open ==> Opened(s.v.openedAt) in s.log && s.v.openedAt <= s.now)
    && (s.v.mode == Open ==> forall i :: 0 <= i < |s.log| && s.log[i].Opened? ==> s.log[i].at <= s.v.openedAt)
    && (s.v.mode != Open ==> Over(c, s.log, s.now))
  }

  predicate Inv(c: Config, s: State) {
    Counts(c, s) && Times(c, s)
  }

  lemma StepCounts(c: Config, s: State, a: Action)
    requires Counts(c, s) && Enabled(s, a)
    ensures Counts(c, Step(c, s, a))
  {
    if a.Guard? {
      TrailingSnoc(s.log, Passed(a.at));
    } else if a.Done? {
      TrailingSnoc(s.log, Succeeded(a.at));
      TrailingFailure(c, s.log, s.v, a.at);
    }
  }

  lemma QuietSnoc(c: Config, log: seq<Event>, e: Event)
    requires Quiet(c, log) && (e.Passed? || e.Opened? ==> Over(c, log, e.at))
    ensures Quiet(c, log + [e])
  {
  }

  lemma StepTimes(c: Config, s: State, a: Action)
    requires Times(c, s) && Enabled(s, a)
    ensures Times(c, Step(c, s, a))
  {
    if a.Guard? && Passes(c, s.v, a.at) {
      QuietSnoc(c, s.log, Passed(a.at));
    } else if a.Done? {
      DoneTimes(c, s, a);
    }
  }

  lemma DoneTimes(c: Config, s: State, a: Action)
    requires Times(c, s) && Enabled(s, a) && a.Done?
    ensures Times(c, Step(c, s, a))
  {
    var t := Step(c, s, a);
    if a.ok {
      TimesSnoc(c, s.log, s.v, Succeeded(a.at));
    } else {
      TimesSnoc(c, s.log, s.v, Failure(a.at));
      if Trips(c, s.v) {
        TripTimes(c, s, a);
      }
    }
  }

  lemma TripTimes(c: Config, s: State, a: Action)
    requires Times(c, s) && Enabled(s, a) && a == Done(a.at, false) && Trips(c, s.v)
    ensures Times(c, Step(c, s, a))
  {
    var t := Step(c, s, a);
    TimesSnoc(c, s.log, s.v, Failure(a.at));
    QuietSnoc(c, s.log + [Failure(a.at)], Opened(a.at));
    assert t.log == s.log + [Failure(a.at)] + [Opened(a.at)];
    assert t.log[|t.log| - 1] == Opened(a.at);
  }

  /** Recording an outcome moves no opening. */
  lemma TimesSnoc(c: Config, log: seq<Event>, v: View, e: Event)
    requires Quiet(c, log) && !e.Passed? && !e.Opened?
    ensures Quiet(c, log + [e])
    ensures v.mode == Open && Opened(v.openedAt) in log ==> Opened(v.openedAt) in log + [e]
    ensures forall i :: 0 <= i < |log + [e]| && (log + [e])[i].Opened? ==> i < |log| && (log + [e])[i] == log[i]
  {
    QuietSnoc(c, log, e);
  }

  lemma {:induction false} RunInv(c: Config, s: State, acts: seq<Action>)
    requires Inv(c, s) && CanRun(c, s, acts)
    ensures Inv(c, Run(c, s, acts))
    decreases |acts|
  {
    if acts != [] {
      StepCounts(c, s, acts[0]);
      StepTimes(c, s, acts[0]);
      RunInv(c, Step(c, s, acts[0]), acts[1..]);
    }
  }

  // ---------------------------------------------------------------- overlapping publishes

  /** However publishes overlap, the counter is the number of failures recorded since the last success. */
  lemma CounterIsExact(c: Config, acts: seq<Action>)
    requires CanRun(c, INITIAL, acts)
    ensures Run(c, INITIAL, acts).v.failures == Trailing(Run(c, INITIAL, acts).log)
  {
    RunInv(c, INITIAL, acts);
  }

  ghost predicate ClosedBelowThreshold(c: Config) {
    forall acts :: CanRun(c, INITIAL, acts) && Run(c, INITIAL, acts).v.mode == Closed
      ==> Run(c, INITIAL, acts).v.failures < c.failureThreshold
  }

  /** A closed breaker has counted fewer failures than the threshold, in every run: if and only if the
      threshold is at least one. */
  lemma ClosedBelowIffPositive(c: Config)
    ensures ClosedBelowThreshold(c) <==> c.failureThreshold >= 1
  {
    if c.failureThreshold >= 1 {
      forall acts | CanRun(c, INITIAL, acts) && Run(c, INITIAL, acts).v.mode == Closed
        ensures Run(c, INITIAL, acts).v.failures < c.failureThreshold
      {
        RunInv(c, INITIAL, acts);
      }
    } else {
      assert CanRun(c, INITIAL, []) && Run(c, INITIAL, []) == INITIAL;
    }
  }

  /** Between an opening and the end of its reset time no guard passes and the breaker does not open again,
      even if publishes that were in flight succeed or fail meanwhile. */
  lemma NothingPassesWhileOpen(c: Config, acts: seq<Action>, i: nat, j: nat)
    requires CanRun(c, INITIAL, acts)
    requires var log := Run(c, INITIAL, acts).log; i < j < |log| && log[i].Opened? && (log[j].Passed? || log[j].Opened?)
    ensures var log := Run(c, INITIAL, acts).log; log[j].at >= log[i].at + c.resetTimeoutMs
  {
    RunInv(c, INITIAL, acts);
  }

  /** A publish is rejected exactly if some opening is more recent than the reset time. */
  lemma RejectedIffRecentOpening(c: Config, acts: seq<Action>, now: int)
    requires CanRun(c, INITIAL, acts) && now >= Run(c, INITIAL, acts).now
    ensures var s := Run(c, INITIAL, acts);
      !Passes(c, s.v, now) <==> exists i :: 0 <= i < |s.log| && s.log[i].Opened? && now < s.log[i].at + c.resetTimeoutMs
  {
    RunInv(c, INITIAL, acts);
    var s := Run(c, INITIAL, acts);
    if !Passes(c, s.v, now) {
      var k :| 0 <= k < |s.log| && s.log[k] == Opened(s.v.openedAt);
    }
  }

  // ---------------------------------------------------------------- the mode is decided by the history

  predicate PassedAfter(log: seq<Event>, i: nat) {
    exists p :: i < p < |log| && log[p].Passed?
  }

  predicate RecoveredAfter(log: seq<Event>, i: nat) {
    exists q :: i < q < |log| && log[q].Succeeded? && PassedAfter(log[..q], i)
  }

  /** Some opening has not been followed by a pass. */
  predicate Pending(log: seq<Event>) {
    exists i :: 0 <= i < |log| && log[i].Opened? && !PassedAfter(log, i)
  }

  /** Every opening has been followed by a pass and, after that, by a success. */
  predicate Recovered(log: seq<Event>) {
    forall i :: 0 <= i < |log| && log[i].Opened? ==> RecoveredAfter(log, i)
  }

  lemma PassedAfterSnoc(log: seq<Event>, e: Event, i: nat)
    requires i < |log|
    ensures PassedAfter(log + [e], i) <==> PassedAfter(log, i) || e.Passed?
  {
    if e.Passed? {
      assert (log + [e])[|log|].Passed?;
    }
    if PassedAfter(log, i) {
      var p :| i < p < |log| && log[p].Passed?;
      assert (log + [e])[p].Passed?;
    }
  }

  lemma RecoveredAfterSnoc(log: seq<Event>, e: Event, i: nat)
    requires i < |log|
    ensures RecoveredAfter(log + [e], i) <==> RecoveredAfter(log, i) || (e.Succeeded? && PassedAfter(log, i))
  {
    assert forall q :: 0 <= q <= |log| ==> (log + [e])[..q] == log[..q];
    assert log[..|log|] == log;
    if e.Succeeded? && PassedAfter(log, i) {
      assert (log + [e])[|log|].Succeeded?;
    }
    if RecoveredAfter(log, i) {
      var q :| i < q < |log| && log[q].Succeeded? && PassedAfter(log[..q], i);
      assert (log + [e])[q].Succeeded?;
    }
  }

  lemma PendingSnoc(log: seq<Event>, e: Event)
    ensures Pending(log + [e]) <==> e.Opened? || (!e.Passed? && Pending(log))
  {
    var after := log + [e];
    forall i: nat | i < |log| ensures PassedAfter(after, i) <==> PassedAfter(log, i) || e.Passed? {
      PassedAfterSnoc(log, e, i);
    }
    assert !PassedAfter(after, |log|);
    if e.Opened? {
      assert after[|log|].Opened?;
    } else if !e.Passed? && Pending(log) {
      var i :| 0 <= i < |log| && log[i].Opened? && !PassedAfter(log, i);
      assert after[i].Opened?;
    }
  }

  lemma RecoveredSnoc(log: seq<Event>, e: Event)
    ensures Recovered(log + [e]) <==> !e.Opened? && (Recovered(log) || (e.Succeeded? && !Pending(log)))
  {
    var after := log + [e];
    forall i: nat | i < |log|
      ensures RecoveredAfter(after, i) <==> RecoveredAfter(log, i) || (e.Succeeded? && PassedAfter(log, i))
    {
      RecoveredAfterSnoc(log, e, i);
    }
    assert forall i :: 0 <= i < |log| ==> after[i] == log[i];
    assert after[|log|] == e && !RecoveredAfter(after, |log|);
    RecoveredIsNotPending(log);
  }

  lemma RecoveredIsNotPending(log: seq<Event>)
    ensures forall i :: 0 <= i < |log| && RecoveredAfter(log, i) ==> PassedAfter(log, i)
  {
    forall i | 0 <= i < |log| && RecoveredAfter(log, i) ensures PassedAfter(log, i) {
      var q :| i < q < |log| && log[q].Succeeded? && PassedAfter(log[..q], i);
      var p :| i < p < q && log[..q][p].Passed?;
      assert log[p].Passed?;
    }
  }

  predicate ModeIs(mode: Mode, log: seq<Event>) {
    && (mode == Open <==> Pending(log))
    && (mode == Closed <==> Recovered(log))
  }

  lemma StepMode(c: Config, s: State, a: Action)
    requires ModeIs(s.v.mode, s.log) && Enabled(s, a)
    ensures ModeIs(Step(c, s, a).v.mode, Step(c, s, a).log)
  {
    match a
    case Guard(now) => SnocBoth(s.log, Passed(now));
    case Done(now, ok) =>
      SnocBoth(s.log, Succeeded(now));
      SnocBoth(s.log, Failure(now));
      SnocBoth(s.log + [Failure(now)], Opened(now));
      assert s.log + [Failure(now)] + [Opened(now)] == s.log + ([Failure(now)] + [Opened(now)]);
      assert [Failure(now)] + [] == [Failure(now)];
    case _ =>
  }

  lemma SnocBoth(log: seq<Event>, e: Event)
    ensures Pending(log + [e]) <==> e.Opened? || (!e.Passed? && Pending(log))
    ensures Recovered(log + [e]) <==> !e.Opened? && (Recovered(log) || (e.Succeeded? && !Pending(log)))
  {
    PendingSnoc(log, e);
    RecoveredSnoc(log, e);
  }

  lemma {:induction false} RunMode(c: Config, s: State, acts: seq<Action>)
    requires ModeIs(s.v.mode, s.log) && CanRun(c, s, acts)
    ensures ModeIs(Run(c, s, acts).v.mode, Run(c, s, acts).log)
    decreases |acts|
  {
    if acts != [] {
      StepMode(c, s, acts[0]);
      RunMode(c, Step(c, s, acts[0]), acts[1..]);
    }
  }

  /** In every run the breaker is open exactly while some opening has not been followed by a pass, and closed
      exactly when every opening has been followed by a pass and then a success, whichever publish that
      success belongs to. */
  lemma ModeIsDecidedByHistory(c: Config, acts: seq<Action>)
    requires CanRun(c, INITIAL, acts)
    ensures var s := Run(c, INITIAL, acts);
      && (s.v.mode == Open <==> Pending(s.log))
      && (s.v.mode == Closed <==> Recovered(s.log))
  {
    RunMode(c, INITIAL, acts);
  }

  // ---------------------------------------------------------------- counting times

  predicate Spaced(ts: seq<int>, gap: int) {
    forall i, j :: 0 <= i < j < |ts| ==> ts[i] + gap <= ts[j]
  }

  /** How many of the times lie in [lo, hi]. */
  function CountIn(ts: seq<int>, lo: int, hi: int): nat {
    if ts == [] then 0
    else CountIn(ts[..|ts| - 1], lo, hi) + if lo <= ts[|ts| - 1] <= hi then 1 else 0
  }

  lemma {:induction false} CountTighter(ts: seq<int>, lo: int, hi: int, hi': int)
    requires forall i :: 0 <= i < |ts| ==> ts[i] <= hi'
    ensures CountIn(ts, lo, hi) <= CountIn(ts, lo, hi')
  {
    if ts != [] {
      CountTighter(ts[..|ts| - 1], lo, hi, hi');
    }
  }

  lemma {:induction false} SpacedCount(ts: seq<int>, gap: int, lo: int, hi: int)
    requires Spaced(ts, gap) && gap > 0
    ensures CountIn(ts, lo, hi) > 0 ==> (CountIn(ts, lo, hi) - 1) * gap <= hi - lo
  {
    if ts != [] {
      var n := |ts| - 1;
      if lo <= ts[n] <= hi {
        CountTighter(ts[..n], lo, hi, ts[n] - gap);
        SpacedCount(ts[..n], gap, lo, ts[n] - gap);
        var k, m := CountIn(ts[..n], lo, hi), CountIn(ts[..n], lo, ts[n] - gap);
        assert CountIn(ts, lo, hi) == k + 1;
        OneMore(k, m, gap, hi - lo);
      } else {
        SpacedCount(ts[..n], gap, lo, hi);
      }
    }
  }

  lemma OneMore(k: nat, m: nat, gap: int, length: int)
    requires k <= m && gap > 0 && length >= 0 && (m > 0 ==> (m - 1) * gap <= length - gap)
    ensures (k + 1 - 1) * gap <= length
  {
    if k > 0 {
      TimesMonotone(k, m, gap);
      assert (m - 1) * gap == m * gap - gap;
    }
  }

  lemma TimesMonotone(k: int, m: int, gap: int)
    requires k <= m && gap > 0
    ensures k * gap <= m * gap
  {
  }

  lemma AtMostQuotient(n: nat, gap: int, length: int)
    requires gap > 0 && length >= 0 && (n > 0 ==> (n - 1) * gap <= length)
    ensures n <= length / gap + 1
  {
    assert (length / gap + 1) * gap == (length / gap) * gap + gap > length;
    if n > length / gap + 1 {
      TimesMonotone(length / gap + 1, n - 1, gap);
    }
  }

  function Openings(log: seq<Event>): seq<int> {
    if log == [] then []
    else Openings(log[..|log| - 1]) + if log[|log| - 1].Opened? then [log[|log| - 1].at] else []
  }

  lemma {:induction false} OpeningsSpaced(c: Config, log: seq<Event>)
    requires Quiet(c, log)
    ensures Spaced(Openings(log), c.resetTimeoutMs)
    ensures forall t :: t in Openings(log) ==> Opened(t) in log
  {
    if log != [] {
      var n := |log| - 1;
      OpeningsSpaced(c, log[..n]);
      assert log == log[..n] + [log[n]];
      if log[n].Opened? {
        forall i | 0 <= i < |Openings(log[..n])| ensures Openings(log[..n])[i] + c.resetTimeoutMs <= log[n].at {
          var k :| 0 <= k < n && log[..n][k] == Opened(Openings(log[..n])[i]);
        }
      }
    }
  }

  /** However publishes overlap, the breaker opens at most once per reset time. */
  lemma OpeningsBound(c: Config, acts: seq<Action>, from: int, length: nat)
    requires CanRun(c, INITIAL, acts) && c.resetTimeoutMs > 0
    ensures CountIn(Openings(Run(c, INITIAL, acts).log), from, from + length) <= length / c.resetTimeoutMs + 1
  {
    RunInv(c, INITIAL, acts);
    var ts := Openings(Run(c, INITIAL, acts).log);
    OpeningsSpaced(c, Run(c, INITIAL, acts).log);
    SpacedCount(ts, c.resetTimeoutMs, from, from + length);
    AtMostQuotient(CountIn(ts, from, from + length), c.resetTimeoutMs, length);
  }

  // ---------------------------------------------------------------- serial outages

  /** No publish starts before the one before it has ended. */
  predicate Serial(c: Config, s: State, acts: seq<Action>)
    decreases |acts|
  {
    acts == []
    || (&& Enabled(s, acts[0]) && (acts[0].Guard? ==> s.waiting + s.inFlight == 0)
        && Serial(c, Step(c, s, acts[0]), acts[1..]))
  }

  predicate AllFail(acts: seq<Action>) {
    forall i :: 0 <= i < |acts| ==> !(acts[i].Done? && acts[i].ok)
  }

  /** When publishes were handed to the channel. */
  function Attempts(acts: seq<Action>): seq<int> {
    if acts == [] then []
    else (if acts[0].Attempt? then [acts[0].at] else []) + Attempts(acts[1..])
  }

  predicate Idle(s: State) {
    s.waiting + s.inFlight == 0
  }

  lemma {:induction false} SerialIsIdleWhenOpen(c: Config, s: State, acts: seq<Action>)
    requires Serial(c, s, acts) && s.waiting + s.inFlight <= 1 && (s.v.mode == Open ==> Idle(s))
    ensures CanRun(c, s, acts) && (Run(c, s, acts).v.mode == Open ==> Idle(Run(c, s, acts)))
    decreases |acts|
  {
    if acts != [] {
      SerialIsIdleWhenOpen(c, Step(c, s, acts[0]), acts[1..]);
    }
  }

  /** The earliest time at which the next attempt can be made while every attempt fails. */
  function Earliest(c: Config, s: State): int {
    if s.v.mode == Open then s.v.openedAt + c.resetTimeoutMs
    else if s.inFlight > 0 then s.now + c.resetTimeoutMs
    else s.now
  }

  predicate InOutage(s: State) {
    && s.waiting + s.inFlight <= 1 && s.v.mode != Closed
    && (s.v.mode == Open ==> Idle(s) && s.v.openedAt <= s.now)
  }

  lemma OutageStep(c: Config, s: State, a: Action)
    requires InOutage(s) && Enabled(s, a) && c.resetTimeoutMs > 0
    requires (a.Guard? ==> Idle(s)) && !(a.Done? && a.ok)
    ensures InOutage(Step(c, s, a)) && Earliest(c, s) <= Earliest(c, Step(c, s, a))
    ensures a.Attempt? ==> Earliest(c, s) <= a.at && Earliest(c, Step(c, s, a)) == a.at + c.resetTimeoutMs
  {
  }

  predicate SpacedFrom(ts: seq<int>, gap: int, lo: int) {
    Spaced(ts, gap) && forall i :: 0 <= i < |ts| ==> ts[i] >= lo
  }

  lemma SpacedCons(t: int, ts: seq<int>, gap: int, lo: int)
    requires SpacedFrom(ts, gap, t + gap) && gap > 0 && lo <= t
    ensures SpacedFrom([t] + ts, gap, lo)
  {
  }

  lemma {:induction false} OutageSpaced(c: Config, s: State, acts: seq<Action>)
    requires Serial(c, s, acts) && AllFail(acts) && InOutage(s) && c.resetTimeoutMs > 0
    ensures SpacedFrom(Attempts(acts), c.resetTimeoutMs, Earliest(c, s))
    decreases |acts|
  {
    if acts != [] {
      assert !(acts[0].Done? && acts[0].ok);
      OutageStep(c, s, acts[0]);
      OutageSpaced(c, Step(c, s, acts[0]), acts[1..]);
      if acts[0].Attempt? {
        SpacedCons(acts[0].at, Attempts(acts[1..]), c.resetTimeoutMs, Earliest(c, s));
      } else {
        assert Attempts(acts) == Attempts(acts[1..]);
      }
    }
  }

  /** Once the breaker has opened in a serial run, and as long as every attempt fails, any stretch of time
      sees at most one attempt per reset time, and one more. */
  lemma OutageBound(c: Config, before: seq<Action>, acts: seq<Action>, from: int, length: nat)
    requires Serial(c, INITIAL, before) && CanRun(c, INITIAL, before) && Run(c, INITIAL, before).v.mode == Open
    requires Serial(c, Run(c, INITIAL, before), acts) && AllFail(acts) && c.resetTimeoutMs > 0
    ensures CountIn(Attempts(acts), from, from + length) <= length / c.resetTimeoutMs + 1
  {
    var s := Run(c, INITIAL, before);
    RunInv(c, INITIAL, before);
    SerialIsIdleWhenOpen(c, INITIAL, before);
    OutageSpaced(c, s, acts);
    SpacedCount(Attempts(acts), c.resetTimeoutMs, from, from + length);
    AtMostQuotient(CountIn(Attempts(acts), from, from + length), c.resetTimeoutMs, length);
  }

  // ---------------------------------------------------------------- half-open is not one trial

  predicate Reaches(c: Config, s: State, acts: seq<Action>, t: State) {
    CanRun(c, s, acts) && Run(c, s, acts) == t
  }

  lemma {:induction false} ReachesNext(c: Config, s: State, acts: seq<Action>, t: State, a: Action)
    requires Reaches(c, s, acts, t) && Enabled(t, a)
    ensures Reaches(c, s, acts + [a], Step(c, t, a))
    decreases |acts|
  {
    assert [a][1..] == [];
    if acts == [] {
      assert acts + [a] == [a];
    } else {
      assert (acts + [a])[1..] == acts[1..] + [a];
      ReachesNext(c, Step(c, s, acts[0]), acts[1..], t, a);
    }
  }

  function Publishing(c: Config, s: State, at: int): State
    requires Passes(c, s.v, at) && at >= s.now
  {
    Step(c, Step(c, s, Guard(at)), Attempt(at))
  }

  lemma PublishingReached(c: Config, acts: seq<Action>, s: State, at: int)
    requires Reaches(c, INITIAL, acts, s) && Passes(c, s.v, at) && at >= s.now
    ensures Reaches(c, INITIAL, acts + [Guard(at)] + [Attempt(at)], Publishing(c, s, at))
  {
    ReachesNext(c, INITIAL, acts, s, Guard(at));
    ReachesNext(c, INITIAL, acts + [Guard(at)], Step(c, s, Guard(at)), Attempt(at));
  }

  /** One publish after another has failed so far, all at time 0, and nothing is left on the way. */
  predicate Failing(c: Config, t: State, k: nat) {
    && t.now == 0 && Idle(t) && t.v.openedAt == 0
    && (t.v.mode == Open || (t.v.mode == Closed && t.v.failures == k && (k == 0 || k < c.failureThreshold)))
  }

  lemma FailOnce(c: Config, acts: seq<Action>, t: State, k: nat) returns (more: seq<Action>, u: State)
    requires Reaches(c, INITIAL, acts, t) && Failing(c, t, k) && t.v.mode == Closed
    ensures Reaches(c, INITIAL, more, u) && Failing(c, u, k + 1)
  {
    PublishingReached(c, acts, t, 0);
    var sent := Publishing(c, t, 0);
    more := acts + [Guard(0)] + [Attempt(0)];
    ReachesNext(c, INITIAL, more, sent, Done(0, false));
    more, u := more + [Done(0, false)], Step(c, sent, Done(0, false));
  }

  lemma NoFailureYet(c: Config)
    ensures Reaches(c, INITIAL, [], INITIAL) && Failing(c, INITIAL, 0)
  {
  }

  lemma FailAgain(c: Config, acts: seq<Action>, t: State, k: nat) returns (more: seq<Action>, u: State)
    requires Reaches(c, INITIAL, acts, t) && Failing(c, t, k)
    ensures Reaches(c, INITIAL, more, u) && Failing(c, u, k + 1)
  {
    if t.v.mode == Closed {
      more, u := FailOnce(c, acts, t, k);
    } else {
      more, u := acts, t;
    }
  }

  /** Failing publishes, one after the other, open the breaker. */
  lemma {:induction false} FailuresOpen(c: Config, k: nat) returns (acts: seq<Action>, t: State)
    ensures Reaches(c, INITIAL, acts, t) && Failing(c, t, k)
  {
    if k == 0 {
      acts, t := [], INITIAL;
      NoFailureYet(c);
    } else {
      var before, s := FailuresOpen(c, k - 1);
      acts, t := FailAgain(c, before, s, k - 1);
    }
  }

  lemma {:induction false} AllPass(c: Config, acts: seq<Action>, s: State, at: int, n: nat)
      returns (more: seq<Action>, t: State)
    requires Reaches(c, INITIAL, acts, s) && s.v.mode == Open && Idle(s)
    requires at >= s.now && at >= s.v.openedAt + c.resetTimeoutMs
    ensures Reaches(c, INITIAL, more, t) && t.now <= at && t.waiting == 0 && t.inFlight == n
    ensures if n == 0 then t == s else t.v.mode == HalfOpen
  {
    more, t := acts, s;
    if n > 0 {
      more, t := AllPass(c, acts, s, at, n - 1);
      PublishingReached(c, more, t, at);
      more, t := more + [Guard(at)] + [Attempt(at)], Publishing(c, t, at);
    }
  }

  ghost predicate OnTrial(c: Config, n: nat) {
    exists acts :: CanRun(c, INITIAL, acts)
                   && Run(c, INITIAL, acts).v.mode == HalfOpen && Run(c, INITIAL, acts).inFlight == n
  }

  /** A half-open breaker does not limit itself to one trial: any number of publishes can be on the channel
      at once before the first of them is recorded. */
  lemma HalfOpenAdmitsAny(c: Config, n: nat)
    requires n > 0
    ensures OnTrial(c, n)
  {
    var k: nat := if c.failureThreshold > 0 then c.failureThreshold else 1;
    var acts, s := FailuresOpen(c, k);
    var at: nat := if c.resetTimeoutMs > 0 then c.resetTimeoutMs else 0;
    var more, t := AllPass(c, acts, s, at, n);
    assert Run(c, INITIAL, more) == t;
  }
}
