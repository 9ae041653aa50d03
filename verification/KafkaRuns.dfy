/** Runs of the Kafka consumer with handler failures, cancelled waits, failing dead-letter writes and commits,
    and restarts from the committed offset at any point. */
module KafkaRuns {
  import opened Wrappers
  import opened KafkaConsumer

  /** Where the loop is with the message at `position`. */
  datatype Phase = Fetching | ToRoute(reason: Reason) | ToCommit

  /** `handled` are the offsets that a handler call has accepted, `recorded` those written to the dead-letter
      topic, and `dropped` those whose failure was only logged. `calls` counts handler calls per offset. */
  datatype State = State(
    log: seq<Message>, position: nat, committed: nat, phase: Phase, dlq: seq<Message>,
    handled: set<nat>, recorded: set<nat>, dropped: set<nat>, calls: seq<nat>, restarts: nat)

  /** A restart can fall into the processing of a message, after some of its handler calls, all but none of
      them answered. */
  datatype Action =
    | Produce(m: Message)
    | Handle(script: Script)
    | Route(written: bool)
    | Commit(effective: bool)
    | Restart(script: Script, calls: nat)

  const INITIAL := State([], 0, 0, Fetching, [], {}, {}, {}, [], 0)

  predicate Enabled(c: Config, s: State, a: Action) {
    match a
    case Produce(_) => true
    case Handle(_) => s.phase == Fetching && s.position < |s.log| == |s.calls|
    case Route(_) => s.phase.ToRoute? && s.position < |s.log|
    case Commit(_) => s.phase == ToCommit
    case Restart(script, calls) =>
      calls > 0 ==> s.phase == Fetching && s.position < |s.log| == |s.calls| && calls <= Process(c, script, 0).calls
  }

  function Called(calls: seq<nat>, offset: nat, n: nat): seq<nat> {
    if offset < |calls| then calls[offset := calls[offset] + n] else calls
  }

  function Step(c: Config, s: State, a: Action): State
    requires Enabled(c, s, a)
  {
    match a
    case Produce(m) => s.(log := s.log + [m], calls := s.calls + [0])
    case Handle(script) =>
      var v := Process(c, script, 0);
      var t := s.(calls := Called(s.calls, s.position, v.calls));
      if v.reason.Some? then t.(phase := ToRoute(v.reason.value))
      else t.(phase := ToCommit, handled := s.handled + {s.position})
    case Route(written) =>
      if c.hasDlq && written then
        s.(phase := ToCommit, recorded := s.recorded + {s.position},
           dlq := s.dlq + [DeadLetter(s.log[s.position], s.phase.reason)])
      else s.(phase := ToCommit, dropped := s.dropped + {s.position})
    case Commit(effective) =>
      s.(phase := Fetching, position := s.position + 1,
         committed := if effective then s.position + 1 else s.committed)
    case Restart(_, calls) =>
      s.(phase := Fetching, position := s.committed, calls := Called(s.calls, s.position, calls),
         restarts := s.restarts + 1)
  }

  predicate CanRun(c: Config, s: State, acts: seq<Action>)
    decreases |acts|
  {
    acts == [] || (Enabled(c, s, acts[0]) && CanRun(c, Step(c, s, acts[0]), acts[1..]))
  }

  function Run(c: Config, s: State, acts: seq<Action>): State
    requires CanRun(c, s, acts)
    decreases |acts|
  {
    if acts == [] then s else Run(c, Step(c, s, acts[0]), acts[1..])
  }

  // ---------------------------------------------------------------- one round of the consumer's loop

  function Seen(s: State): View {
    View(s.position, s.committed, s.dlq)
  }

  function Round(c: Config, e: Event): seq<Action>
    requires e.Delivery?
  {
    [Handle(e.script)] + (if Process(c, e.script, 0).reason.Some? then [Route(e.written)] else [])
    + [Commit(e.committed)]
  }

  lemma RunOne(c: Config, s: State, a: Action)
    requires Enabled(c, s, a)
    ensures CanRun(c, s, [a]) && Run(c, s, [a]) == Step(c, s, a)
  {
    assert [a][1..] == [];
  }

  lemma RunTwo(c: Config, s: State, a: Action, b: Action)
    requires Enabled(c, s, a) && Enabled(c, Step(c, s, a), b)
    ensures CanRun(c, s, [a, b]) && Run(c, s, [a, b]) == Step(c, Step(c, s, a), b)
  {
    RunOne(c, Step(c, s, a), b);
    assert [a, b][1..] == [b];
  }

  lemma RunThree(c: Config, s: State, a: Action, b: Action, d: Action)
    requires Enabled(c, s, a) && Enabled(c, Step(c, s, a), b) && Enabled(c, Step(c, Step(c, s, a), b), d)
    ensures CanRun(c, s, [a, b, d]) && Run(c, s, [a, b, d]) == Step(c, Step(c, Step(c, s, a), b), d)
  {
    RunTwo(c, Step(c, s, a), b, d);
    assert [a, b, d][1..] == [b, d];
  }

  lemma FailedRound(c: Config, s: State, e: Event)
    requires e.Delivery? && s.phase == Fetching && s.position < |s.log| == |s.calls|
    requires Process(c, e.script, 0).reason.Some?
    ensures CanRun(c, s, Round(c, e))
    ensures Seen(Run(c, s, Round(c, e))) == AfterMessage(c, s.log, Seen(s), e)
  {
    var a, b, d := Handle(e.script), Route(e.written), Commit(e.committed);
    RunThree(c, s, a, b, d);
    assert Round(c, e) == [a, b, d];
  }

  lemma HandledRound(c: Config, s: State, e: Event)
    requires e.Delivery? && s.phase == Fetching && s.position < |s.log| == |s.calls|
    requires Process(c, e.script, 0).reason.None?
    ensures CanRun(c, s, Round(c, e))
    ensures Seen(Run(c, s, Round(c, e))) == AfterMessage(c, s.log, Seen(s), e)
  {
    var a, d := Handle(e.script), Commit(e.committed);
    RunTwo(c, s, a, d);
    assert Round(c, e) == [a, d];
  }

  /** A round of the loop is a run of its steps, and changes what the consumer's own method changes. */
  lemma RoundIsSteps(c: Config, s: State, e: Event)
    requires e.Delivery? && s.phase == Fetching && s.position < |s.log| == |s.calls|
    ensures CanRun(c, s, Round(c, e))
    ensures Seen(Run(c, s, Round(c, e))) == AfterMessage(c, s.log, Seen(s), e)
  {
    if Process(c, e.script, 0).reason.Some? {
      FailedRound(c, s, e);
    } else {
      HandledRound(c, s, e);
    }
  }

  /** The rounds of the loop: one for each delivery, up to the event that stops it. Other fetch errors have none. */
  function Rounds(c: Config, events: seq<Event>): seq<Action> {
    if events == [] then []
    else
      match events[0]
      case Stop => []
      case Transient(done) => if done then [] else Rounds(c, events[1..])
      case FetchError => Rounds(c, events[1..])
      case Delivery(_, _, _) => Round(c, events[0]) + Rounds(c, events[1..])
  }

  lemma {:induction false} RunJoin(c: Config, s: State, a: seq<Action>, b: seq<Action>)
    requires CanRun(c, s, a) && CanRun(c, Run(c, s, a), b)
    ensures CanRun(c, s, a + b) && Run(c, s, a + b) == Run(c, Run(c, s, a), b)
    decreases |a|
  {
    if a == [] {
      assert a + b == b;
    } else {
      assert (a + b)[1..] == a[1..] + b;
      RunJoin(c, Step(c, s, a[0]), a[1..], b);
    }
  }

  /** After a round the loop is at the next message. */
  lemma RoundEnds(c: Config, s: State, e: Event)
    requires e.Delivery? && s.phase == Fetching && s.position < |s.log| == |s.calls|
    ensures CanRun(c, s, Round(c, e))
    ensures var t := Run(c, s, Round(c, e)); t.phase == Fetching && t.log == s.log && |t.calls| == |s.calls|
  {
    var a, b, d := Handle(e.script), Route(e.written), Commit(e.committed);
    if Process(c, e.script, 0).reason.Some? {
      RunThree(c, s, a, b, d);
      assert Round(c, e) == [a, b, d];
    } else {
      RunTwo(c, s, a, d);
      assert Round(c, e) == [a, d];
    }
  }

  /** The whole loop is a run of its rounds: it ends only at an event that stops it, and no fetch error before that
      keeps a delivery from its round. */
  lemma {:induction false} LoopIsRounds(c: Config, s: State, events: seq<Event>)
    requires s.phase == Fetching && |s.log| == |s.calls| && Feeds(s.log, s.position, events)
    ensures CanRun(c, s, Rounds(c, events))
    ensures Seen(Run(c, s, Rounds(c, events))) == AfterEvents(c, s.log, Seen(s), events)
    decreases |events|
  {
    if events != [] && !Stops(events[0]) {
      if events[0].Delivery? {
        RoundIsSteps(c, s, events[0]);
        RoundEnds(c, s, events[0]);
        var t := Run(c, s, Round(c, events[0]));
        LoopIsRounds(c, t, events[1..]);
        RunJoin(c, s, Round(c, events[0]), Rounds(c, events[1..]));
      } else {
        LoopIsRounds(c, s, events[1..]);
      }
    }
  }

  // ---------------------------------------------------------------- what has become of an offset

  predicate Settled(s: State, o: nat) {
    o in s.handled || o in s.recorded || o in s.dropped
  }

  predicate InRange(s: State) {
    && |s.calls| == |s.log|
    && s.committed <= s.position <= |s.log|
    && (s.phase != Fetching ==> s.position < |s.log|)
  }

  predicate AllSettled(s: State) {
    && InRange(s)
    && (forall o: nat :: o < s.position ==> Settled(s, o))
    && (s.phase == ToCommit ==> Settled(s, s.position))
  }

  lemma StepSettles(c: Config, s: State, a: Action)
    requires AllSettled(s) && Enabled(c, s, a)
    ensures AllSettled(Step(c, s, a))
  {
    var t := Step(c, s, a);
    forall o: nat | o < t.position ensures Settled(t, o) {
      assert o < s.position ==> Settled(s, o);
    }
  }

  lemma {:induction false} RunSettles(c: Config, s: State, acts: seq<Action>)
    requires AllSettled(s) && CanRun(c, s, acts)
    ensures AllSettled(Run(c, s, acts))
    decreases |acts|
  {
    if acts != [] {
      StepSettles(c, s, acts[0]);
      RunSettles(c, Step(c, s, acts[0]), acts[1..]);
    }
  }

  /** Step i of the run is a handler call on offset o that succeeded. */
  predicate HandledAt(c: Config, s: State, acts: seq<Action>, i: nat, o: nat) {
    && i < |acts| && acts[i].Handle? && CanRun(c, s, acts[..i])
    && Run(c, s, acts[..i]).position == o && Process(c, acts[i].script, 0).reason == None
  }

  /** Step i of the run gives up offset o with no dead-letter topic, or with a failed write to it. */
  predicate DroppedAt(c: Config, s: State, acts: seq<Action>, i: nat, o: nat) {
    && i < |acts| && acts[i].Route? && CanRun(c, s, acts[..i])
    && Run(c, s, acts[..i]).position == o && !(c.hasDlq && acts[i].written)
  }

  /** Step i of the run writes the record of offset o to the dead-letter topic: its key and value, its headers,
      and the reason it was given up for. The record keeps its own place in the topic. */
  predicate RecordedAt(c: Config, s: State, acts: seq<Action>, i: nat, o: nat) {
    && i < |acts| && acts[i].Route? && CanRun(c, s, acts[..i]) && c.hasDlq && acts[i].written && CanRun(c, s, acts)
    && var t, u := Run(c, s, acts[..i]), Run(c, s, acts);
       && t.phase.ToRoute? && t.position == o < |u.log| && |t.dlq| < |u.dlq|
       && RecordOf(u.log[o], t.phase.reason, u.dlq[|t.dlq|])
  }

  lemma PrefixRun(c: Config, s: State, acts: seq<Action>, i: nat)
    requires i < |acts| && Enabled(c, s, acts[0]) && CanRun(c, Step(c, s, acts[0]), acts[1..][..i])
    ensures CanRun(c, s, acts[..i + 1])
    ensures Run(c, s, acts[..i + 1]) == Run(c, Step(c, s, acts[0]), acts[1..][..i])
  {
    assert acts[..i + 1][1..] == acts[1..][..i];
  }

  lemma {:induction false} HandledHow(c: Config, s: State, acts: seq<Action>, o: nat)
    requires CanRun(c, s, acts) && o in Run(c, s, acts).handled && o !in s.handled
    ensures exists i: nat :: HandledAt(c, s, acts, i, o)
    decreases |acts|
  {
    if acts == [] {
    } else if o in Step(c, s, acts[0]).handled {
      assert acts[..0] == [];
      assert HandledAt(c, s, acts, 0, o);
    } else {
      HandledHow(c, Step(c, s, acts[0]), acts[1..], o);
      var i: nat :| HandledAt(c, Step(c, s, acts[0]), acts[1..], i, o);
      PrefixRun(c, s, acts, i);
      assert HandledAt(c, s, acts, i + 1, o);
    }
  }

  /** The log and the dead-letter topic only grow. */
  lemma {:induction false} RunGrows(c: Config, s: State, acts: seq<Action>)
    requires CanRun(c, s, acts)
    ensures s.log <= Run(c, s, acts).log && s.dlq <= Run(c, s, acts).dlq
    decreases |acts|
  {
    if acts != [] {
      RunGrows(c, Step(c, s, acts[0]), acts[1..]);
    }
  }

  lemma {:induction false} RecordedHow(c: Config, s: State, acts: seq<Action>, o: nat)
    requires CanRun(c, s, acts) && o in Run(c, s, acts).recorded && o !in s.recorded
    ensures exists i: nat :: RecordedAt(c, s, acts, i, o)
    decreases |acts|
  {
    if acts == [] {
    } else if o in Step(c, s, acts[0]).recorded {
      assert acts[..0] == [];
      RunGrows(c, Step(c, s, acts[0]), acts[1..]);
      assert RecordedAt(c, s, acts, 0, o);
    } else {
      RecordedHow(c, Step(c, s, acts[0]), acts[1..], o);
      var i: nat :| RecordedAt(c, Step(c, s, acts[0]), acts[1..], i, o);
      PrefixRun(c, s, acts, i);
      assert RecordedAt(c, s, acts, i + 1, o);
    }
  }

  /** Two steps that write records write them to different places, so one record never stands for two offsets. */
  lemma RecordsAreDistinct(c: Config, s: State, acts: seq<Action>, i: nat, o: nat, j: nat, o': nat)
    requires RecordedAt(c, s, acts, i, o) && RecordedAt(c, s, acts, j, o') && i < j
    ensures |Run(c, s, acts[..i]).dlq| < |Run(c, s, acts[..j]).dlq|
  {
    var t := Run(c, s, acts[..i]);
    assert acts[..j][..i] == acts[..i] && acts[..j] == acts[..i] + ([acts[i]] + acts[i + 1..j]);
    RunConcat(c, s, acts[..i], [acts[i]] + acts[i + 1..j]);
    assert ([acts[i]] + acts[i + 1..j])[1..] == acts[i + 1..j];
    RunGrows(c, Step(c, t, acts[i]), acts[i + 1..j]);
  }

  lemma {:induction false} RunConcat(c: Config, s: State, a: seq<Action>, b: seq<Action>)
    requires CanRun(c, s, a + b)
    ensures CanRun(c, s, a) && CanRun(c, Run(c, s, a), b) && Run(c, s, a + b) == Run(c, Run(c, s, a), b)
    decreases |a|
  {
    if a == [] {
      assert a + b == b;
    } else {
      assert (a + b)[1..] == a[1..] + b;
      RunConcat(c, Step(c, s, a[0]), a[1..], b);
    }
  }

  lemma {:induction false} DroppedHow(c: Config, s: State, acts: seq<Action>, o: nat)
    requires CanRun(c, s, acts) && o in Run(c, s, acts).dropped && o !in s.dropped
    ensures exists i: nat :: DroppedAt(c, s, acts, i, o)
    decreases |acts|
  {
    if acts == [] {
    } else if o in Step(c, s, acts[0]).dropped {
      assert acts[..0] == [];
      assert DroppedAt(c, s, acts, 0, o);
    } else {
      DroppedHow(c, Step(c, s, acts[0]), acts[1..], o);
      var i: nat :| DroppedAt(c, Step(c, s, acts[0]), acts[1..], i, o);
      PrefixRun(c, s, acts, i);
      assert DroppedAt(c, s, acts, i + 1, o);
    }
  }

  /** In every run, each committed offset was handled by some step, has its own record on the dead-letter topic,
      or was given up by some step with no such topic or with a failed write. */
  lemma CommittedIsSettled(c: Config, acts: seq<Action>, o: nat)
    requires CanRun(c, INITIAL, acts) && o < Run(c, INITIAL, acts).committed
    ensures o < |Run(c, INITIAL, acts).log|
    ensures || (exists i: nat :: HandledAt(c, INITIAL, acts, i, o))
            || (exists i: nat :: RecordedAt(c, INITIAL, acts, i, o))
            || (exists i: nat :: DroppedAt(c, INITIAL, acts, i, o))
  {
    RunSettles(c, INITIAL, acts);
    var s := Run(c, INITIAL, acts);
    assert Settled(s, o);
    if o in s.handled {
      HandledHow(c, INITIAL, acts, o);
    } else if o in s.recorded {
      RecordedHow(c, INITIAL, acts, o);
    } else {
      DroppedHow(c, INITIAL, acts, o);
    }
  }

  // ---------------------------------------------------------------- when nothing is lost

  /** Every write to the dead-letter topic succeeds. */
  predicate WritesSucceed(acts: seq<Action>) {
    forall i :: 0 <= i < |acts| ==> !(acts[i].Route? && !acts[i].written)
  }

  /** A committed message that was neither handled nor recorded. */
  predicate Lost(s: State, o: nat) {
    o < s.committed && o !in s.handled && o !in s.recorded
  }

  ghost predicate NothingLost(c: Config) {
    forall acts, o: nat :: CanRun(c, INITIAL, acts) && WritesSucceed(acts) ==> !Lost(Run(c, INITIAL, acts), o)
  }

  lemma {:induction false} NothingDropped(c: Config, s: State, acts: seq<Action>)
    requires CanRun(c, s, acts) && WritesSucceed(acts) && c.hasDlq && s.dropped == {}
    ensures Run(c, s, acts).dropped == {}
    decreases |acts|
  {
    if acts != [] {
      assert !(acts[0].Route? && !acts[0].written);
      NothingDropped(c, Step(c, s, acts[0]), acts[1..]);
    }
  }

  /** A run that loses its only message: the handler fails for good, the route step drops it, and the commit
      succeeds. */
  function Losing(script: Script, written: bool): seq<Action> {
    [Produce(Message("k", "v", [])), Handle(script), Route(written), Commit(true)]
  }

  lemma LosingLoses(c: Config, script: Script, written: bool)
    requires Process(c, script, 0).reason.Some? && !(c.hasDlq && written)
    ensures CanRun(c, INITIAL, Losing(script, written)) && Lost(Run(c, INITIAL, Losing(script, written)), 0)
  {
    var p := Produce(Message("k", "v", []));
    var s := Step(c, INITIAL, p);
    RunThree(c, s, Handle(script), Route(written), Commit(true));
    assert Losing(script, written)[1..] == [Handle(script), Route(written), Commit(true)];
  }

  /** As long as writes to the dead-letter topic succeed, no run loses a committed message: if and only if
      there is such a topic. */
  lemma NothingLostIffDlq(c: Config)
    ensures NothingLost(c) <==> c.hasDlq
  {
    if c.hasDlq {
      forall acts, o: nat | CanRun(c, INITIAL, acts) && WritesSucceed(acts) ensures !Lost(Run(c, INITIAL, acts), o) {
        NothingDropped(c, INITIAL, acts);
        RunSettles(c, INITIAL, acts);
        var s := Run(c, INITIAL, acts);
        assert o < s.position ==> Settled(s, o);
      }
    } else {
      var script := Script(k => Permanent("bad"), k => false);
      LosingLoses(c, script, true);
    }
  }

  /** A shutdown can drop a message that would have been handled on its next attempt: the wait is cut short,
      the write to the dead-letter topic fails, and the commit still takes effect. */
  lemma ShutdownCanLose(c: Config)
    requires c.maxRetries >= 1
    ensures var script := Script(k => if k == 0 then Failure("busy") else Success, k => true);
      && Process(c, script.(cancelled := k => false), 0).reason == None
      && CanRun(c, INITIAL, Losing(script, false)) && Lost(Run(c, INITIAL, Losing(script, false)), 0)
  {
    var script := Script(k => if k == 0 then Failure("busy") else Success, k => true);
    assert Process(c, script, 0) == Process(c, script, 1);
    var patient := script.(cancelled := k => false);
    assert Process(c, patient, 0) == Process(c, patient, 1);
    LosingLoses(c, script, false);
  }

  /** Step i of the run is a handler call on offset o that failed for this reason. */
  predicate FailedAt(c: Config, s: State, acts: seq<Action>, i: nat, o: nat, reason: Reason) {
    && i < |acts| && acts[i].Handle? && CanRun(c, s, acts[..i])
    && Run(c, s, acts[..i]).position == o && Process(c, acts[i].script, 0).reason == Some(reason)
  }

  /** A message on its way to the dead-letter topic has just failed. */
  lemma {:induction false} RoutedHow(c: Config, s: State, acts: seq<Action>)
    requires CanRun(c, s, acts) && Run(c, s, acts).phase.ToRoute? && s.phase == Fetching
    ensures exists i: nat :: FailedAt(c, s, acts, i, Run(c, s, acts).position, Run(c, s, acts).phase.reason)
    decreases |acts|
  {
    if acts != [] {
      var n, t := |acts| - 1, Run(c, s, acts);
      assert acts == acts[..n] + [acts[n]];
      RunConcat(c, s, acts[..n], [acts[n]]);
      var u := Run(c, s, acts[..n]);
      RunOne(c, u, acts[n]);
      if acts[n].Handle? {
        assert FailedAt(c, s, acts, n, t.position, t.phase.reason);
      } else {
        RoutedHow(c, s, acts[..n]);
        var i: nat :| FailedAt(c, s, acts[..n], i, u.position, u.phase.reason);
        assert acts[..n][..i] == acts[..i];
        assert FailedAt(c, s, acts, i, t.position, t.phase.reason);
      }
    }
  }

  /** A step that drops a message follows one that failed on it. */
  lemma DroppedFailed(c: Config, s: State, acts: seq<Action>, i: nat, o: nat)
    requires CanRun(c, s, acts) && s.phase == Fetching && DroppedAt(c, s, acts, i, o)
    ensures exists k: nat, reason :: FailedAt(c, s, acts, k, o, reason)
  {
    assert acts == acts[..i] + acts[i..];
    RunConcat(c, s, acts[..i], acts[i..]);
    var t := Run(c, s, acts[..i]);
    assert Enabled(c, t, acts[i..][0]);
    RoutedHow(c, s, acts[..i]);
    var k: nat :| FailedAt(c, s, acts[..i], k, t.position, t.phase.reason);
    assert acts[..i][..k] == acts[..k];
    assert FailedAt(c, s, acts, k, o, t.phase.reason);
  }

  /** No back-off is cut short by a shutdown. */
  predicate WaitsEnd(c: Config, acts: seq<Action>) {
    forall i :: 0 <= i < |acts| && acts[i].Handle? ==> Process(c, acts[i].script, 0).reason != Some(ContextDone)
  }

  /** The handler has refused the message for good, or failed on each of the attempts it is allowed. */
  predicate GivenUp(c: Config, script: Script) {
    var n := Process(c, script, 0).calls;
    n > 0 && (script.results(n - 1).Permanent?
              || (n == c.maxRetries + 1 && forall j :: 0 <= j < n ==> script.results(j).Failure?))
  }

  /** Step i of the run is a handler call that gives up offset o. */
  predicate GivenUpAt(c: Config, s: State, acts: seq<Action>, i: nat, o: nat) {
    && i < |acts| && acts[i].Handle? && CanRun(c, s, acts[..i])
    && Run(c, s, acts[..i]).position == o && GivenUp(c, acts[i].script)
  }

  lemma FailureGivesUp(c: Config, script: Script)
    requires Process(c, script, 0).reason.Some? && Process(c, script, 0).reason != Some(ContextDone)
    ensures GivenUp(c, script)
  {
    ProcessStopsAtFirst(c, script, 0);
  }

  /** As long as no wait is cut short, a message is lost only after its handler has refused it for good or has
      failed on every attempt. */
  lemma LostWasGivenUp(c: Config, acts: seq<Action>, o: nat)
    requires CanRun(c, INITIAL, acts) && Lost(Run(c, INITIAL, acts), o) && WaitsEnd(c, acts)
    ensures exists i: nat :: GivenUpAt(c, INITIAL, acts, i, o)
  {
    RunSettles(c, INITIAL, acts);
    assert Settled(Run(c, INITIAL, acts), o);
    DroppedHow(c, INITIAL, acts, o);
    var i: nat :| DroppedAt(c, INITIAL, acts, i, o);
    DroppedFailed(c, INITIAL, acts, i, o);
    var k: nat, reason :| FailedAt(c, INITIAL, acts, k, o, reason);
    FailureGivesUp(c, acts[k].script);
    assert GivenUpAt(c, INITIAL, acts, k, o);
  }

  // ---------------------------------------------------------------- how often a message is tried

  /** Handler calls allowed to n fetches of a message. */
  function Budget(c: Config, n: nat): nat {
    if n == 0 then 0 else Budget(c, n - 1) + c.maxRetries + 1
  }

  lemma {:induction false} BudgetIsProduct(c: Config, n: nat)
    ensures Budget(c, n) == (c.maxRetries + 1) * n
  {
    if n > 0 {
      BudgetIsProduct(c, n - 1);
      assert (c.maxRetries + 1) * n == (c.maxRetries + 1) * (n - 1) + (c.maxRetries + 1);
    }
  }

  /** Before an offset is fetched again it has used no more than one fetch per restart. */
  predicate WithinBudget(c: Config, s: State) {
    && InRange(s)
    && (forall o :: 0 <= o < |s.calls| ==>
          s.calls[o] <= Budget(c, if o < s.position || (o == s.position && s.phase != Fetching) then s.restarts + 1
                                  else s.restarts))
  }

  lemma HandleWithinBudget(c: Config, s: State, a: Action)
    requires WithinBudget(c, s) && Enabled(c, s, a) && a.Handle?
    ensures WithinBudget(c, Step(c, s, a))
  {
    ProcessStopsAtFirst(c, a.script, 0);
  }

  lemma RestartWithinBudget(c: Config, s: State, a: Action)
    requires WithinBudget(c, s) && Enabled(c, s, a) && a.Restart?
    ensures WithinBudget(c, Step(c, s, a))
  {
    ProcessStopsAtFirst(c, a.script, 0);
  }

  lemma StepWithinBudget(c: Config, s: State, a: Action)
    requires WithinBudget(c, s) && Enabled(c, s, a)
    ensures WithinBudget(c, Step(c, s, a))
  {
    match a
    case Handle(_) => HandleWithinBudget(c, s, a);
    case Restart(_, _) => RestartWithinBudget(c, s, a);
    case _ =>
  }

  lemma {:induction false} RunWithinBudget(c: Config, s: State, acts: seq<Action>)
    requires WithinBudget(c, s) && CanRun(c, s, acts)
    ensures WithinBudget(c, Run(c, s, acts))
    decreases |acts|
  {
    if acts != [] {
      StepWithinBudget(c, s, acts[0]);
      RunWithinBudget(c, Step(c, s, acts[0]), acts[1..]);
    }
  }

  /** Over every run a message is given to the handler at most maxRetries + 1 times for each restart, and once
      more. */
  lemma BoundedCalls(c: Config, acts: seq<Action>, o: nat)
    requires CanRun(c, INITIAL, acts) && o < |Run(c, INITIAL, acts).calls|
    ensures var s := Run(c, INITIAL, acts); s.calls[o] <= (c.maxRetries + 1) * (s.restarts + 1)
  {
    RunWithinBudget(c, INITIAL, acts);
    var s := Run(c, INITIAL, acts);
    BudgetIsProduct(c, s.restarts + 1);
    assert Budget(c, s.restarts) <= Budget(c, s.restarts + 1);
  }
}
