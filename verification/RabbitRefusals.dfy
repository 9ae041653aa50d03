/** Why a message is dead-lettered, over whole runs: some delivery of it was refused, and not before its handler
    had been given every attempt. */
module RabbitRefusals {
  import opened RabbitConsumer
  import opened RabbitBroker
  import opened RabbitBounds
  import opened Totals

  // ---------------------------------------------------------------- refusing steps

  /** The message whose delivery a step deals with. */
  function Dealt(s: State, a: Action): Message
    requires Enabled(s, a) && a.Process?
  {
    s.chans[a.c].unacked[a.d].msg
  }

  predicate Refuses(cfg: Config, s: State, a: Action) {
    a.Process? && Enabled(s, a) && Refused(cfg.maxRetries, Dealt(s, a), a.env)
  }

  /** Step i of the run refuses a delivery of this message. */
  predicate RefusedAt(cfg: Config, s: State, acts: seq<Action>, i: nat, id: nat) {
    && i < |acts| && CanRun(cfg, s, acts[..i])
    && Refuses(cfg, Run(cfg, s, acts[..i]), acts[i])
    && Dealt(Run(cfg, s, acts[..i]), acts[i]).id == id
  }

  /** The messages refused by a step, and by the steps of a run. */
  function RefusedBy(cfg: Config, s: State, a: Action): set<nat> {
    if Refuses(cfg, s, a) then {Dealt(s, a).id} else {}
  }

  function RefusedIn(cfg: Config, s: State, acts: seq<Action>): set<nat>
    requires CanRun(cfg, s, acts)
    decreases |acts|
  {
    if acts == [] then {} else RefusedBy(cfg, s, acts[0]) + RefusedIn(cfg, Step(cfg, s, acts[0]), acts[1..])
  }

  lemma {:induction false} RefusedHow(cfg: Config, s: State, acts: seq<Action>, id: nat)
    requires CanRun(cfg, s, acts) && id in RefusedIn(cfg, s, acts)
    ensures exists i: nat :: RefusedAt(cfg, s, acts, i, id)
    decreases |acts|
  {
    if acts == [] {
    } else if id in RefusedBy(cfg, s, acts[0]) {
      assert acts[..0] == [];
      assert RefusedAt(cfg, s, acts, 0, id);
    } else {
      var t := Step(cfg, s, acts[0]);
      RefusedHow(cfg, t, acts[1..], id);
      var i: nat :| RefusedAt(cfg, t, acts[1..], i, id);
      assert acts[..i + 1][1..] == acts[1..][..i];
      assert RefusedAt(cfg, s, acts, i + 1, id);
    }
  }

  // ---------------------------------------------------------------- only refused messages are dead-lettered

  /** Every rejection in the pipe is of a delivery of a refused message. */
  predicate Blamed(ch: Chan, refused: set<nat>) {
    forall i, d ::
      0 <= i < |ch.pipe| && ch.pipe[i].Nack? && !ch.pipe[i].requeue && d in ch.unacked && d.tag == ch.pipe[i].tag
      ==> d.msg.id in refused
  }

  predicate AllBlamed(s: State, refused: set<nat>) {
    && (forall id :: id in s.dead ==> id in refused)
    && (forall c :: 0 <= c < |s.chans| ==> Blamed(s.chans[c], refused))
  }

  lemma TakenBlamed(ch: Chan, m: Message, refused: set<nat>)
    requires ChanOk(ch) && Blamed(ch, refused)
    ensures Blamed(Taken(ch, m), refused)
  {
    var t := Taken(ch, m);
    forall i, d | 0 <= i < |t.pipe| && t.pipe[i].Nack? && !t.pipe[i].requeue && d in t.unacked && d.tag == t.pipe[i].tag
      ensures d.msg.id in refused
    {
      assert SettlesKnown(ch, ch.pipe[i]);
      assert d.tag != ch.nextTag;
      assert d in ch.unacked;
    }
  }

  /** A new block rejects its own delivery only if that is refused. */
  lemma AppendedBlamed(ch: Chan, d: nat, commands: seq<Command>, refused: set<nat>)
    requires ChanOk(ch) && d < |ch.unacked| && Blamed(ch, refused)
    requires forall q :: q in commands && q.Nack? && !q.requeue ==>
      q.tag == ch.unacked[d].tag && ch.unacked[d].msg.id in refused
    ensures Blamed(Appended(ch, d, commands), refused)
  {
    var t := Appended(ch, d, commands);
    MarkedMembers(ch.unacked, d);
    forall i, x | 0 <= i < |t.pipe| && t.pipe[i].Nack? && !t.pipe[i].requeue && x in t.unacked && x.tag == t.pipe[i].tag
      ensures x.msg.id in refused
    {
      if i < |ch.pipe| {
        assert t.pipe[i] == ch.pipe[i];
        assert x in ch.unacked || ch.unacked[d] in ch.unacked;
      } else {
        assert t.pipe[i] == commands[i - |ch.pipe|];
        var k :| 0 <= k < |t.unacked| && t.unacked[k] == x;
        assert ch.unacked[k].tag == ch.unacked[d].tag;
      }
    }
  }

  lemma ExecutedBlamed(ch: Chan, refused: set<nat>)
    requires ChanOk(ch) && ch.pipe != [] && Blamed(ch, refused)
    ensures Blamed(Executed(ch), refused)
  {
    var t := Executed(ch);
    if IsSettle(ch.pipe[0]) {
      HeadIsKnown(ch);
      RemovedByTag(ch.unacked, IndexOf(ch.unacked, ch.pipe[0].tag));
    }
    forall i, d | 0 <= i < |t.pipe| && t.pipe[i].Nack? && !t.pipe[i].requeue && d in t.unacked && d.tag == t.pipe[i].tag
      ensures d.msg.id in refused
    {
      assert t.pipe[i] == ch.pipe[i + 1] && d in ch.unacked;
    }
  }

  lemma MoreBlamed(s: State, refused: set<nat>, more: set<nat>)
    requires AllBlamed(s, refused) && refused <= more
    ensures AllBlamed(s, more)
  {
  }

  lemma ProcessBlamed(cfg: Config, s: State, a: Action, refused: set<nat>)
    requires ChansOk(s.chans) && AllBlamed(s, refused) && Enabled(s, a) && a.Process?
    requires RefusedBy(cfg, s, a) <= refused
    ensures AllBlamed(Step(cfg, s, a), refused)
  {
    var dl := s.chans[a.c].unacked[a.d];
    SettledByOutcome(cfg.maxRetries, dl.tag, dl.msg, a.env);
    AppendedBlamed(s.chans[a.c], a.d, Settle(cfg.maxRetries, dl.tag, dl.msg, a.env).commands, refused);
  }

  lemma ExecuteBlamed(cfg: Config, s: State, a: Action, refused: set<nat>)
    requires ChansOk(s.chans) && AllBlamed(s, refused) && Enabled(s, a) && a.Execute?
    ensures AllBlamed(Step(cfg, s, a), refused)
  {
    var ch := s.chans[a.c];
    ExecutedBlamed(ch, refused);
    if IsSettle(ch.pipe[0]) {
      HeadIsKnown(ch);
      assert ch.unacked[IndexOf(ch.unacked, ch.pipe[0].tag)] in ch.unacked;
    }
  }

  lemma StepBlamed(cfg: Config, s: State, a: Action, refused: set<nat>)
    requires ChansOk(s.chans) && AllBlamed(s, refused) && Enabled(s, a)
    ensures AllBlamed(Step(cfg, s, a), refused + RefusedBy(cfg, s, a))
  {
    MoreBlamed(s, refused, refused + RefusedBy(cfg, s, a));
    if a.Process? {
      ProcessBlamed(cfg, s, a, refused + RefusedBy(cfg, s, a));
    } else if a.Execute? {
      ExecuteBlamed(cfg, s, a, refused);
    } else if a.Deliver? {
      TakenBlamed(s.chans[a.c], s.ready[a.i], refused);
    }
  }

  lemma {:induction false} RunBlamed(cfg: Config, s: State, acts: seq<Action>, refused: set<nat>)
    requires ChansOk(s.chans) && AllBlamed(s, refused) && CanRun(cfg, s, acts)
    ensures AllBlamed(Run(cfg, s, acts), refused + RefusedIn(cfg, s, acts))
    decreases |acts|
  {
    if acts == [] {
      assert refused + {} == refused;
    } else {
      StepChansOk(cfg, s, acts[0]);
      StepBlamed(cfg, s, acts[0], refused);
      var t := Step(cfg, s, acts[0]);
      RunBlamed(cfg, t, acts[1..], refused + RefusedBy(cfg, s, acts[0]));
      assert refused + RefusedBy(cfg, s, acts[0]) + RefusedIn(cfg, t, acts[1..]) == refused + RefusedIn(cfg, s, acts);
    }
  }

  /** In every run, a dead-lettered message had a delivery that could not be read, that its handler refused for
      good, or whose last attempt failed. */
  lemma DeadWasRefused(cfg: Config, acts: seq<Action>, id: nat)
    requires CanRun(cfg, INITIAL, acts) && id in Run(cfg, INITIAL, acts).dead
    ensures exists i: nat :: RefusedAt(cfg, INITIAL, acts, i, id)
  {
    RunBlamed(cfg, INITIAL, acts, {});
    RefusedHow(cfg, INITIAL, acts, id);
  }

  /** Step i of the run gives this message to its handler, which accepts it. */
  predicate HandledAt(cfg: Config, s: State, acts: seq<Action>, i: nat, id: nat) {
    && i < |acts| && CanRun(cfg, s, acts[..i]) && acts[i].Process? && Enabled(Run(cfg, s, acts[..i]), acts[i])
    && Dealt(Run(cfg, s, acts[..i]), acts[i]).id == id
    && Dealt(Run(cfg, s, acts[..i]), acts[i]).body.Envelope? && acts[i].env.handler.Handled?
  }

  /** A message counts as handled only if its handler has accepted it. */
  lemma {:induction false} HandledHow(cfg: Config, s: State, acts: seq<Action>, id: nat)
    requires CanRun(cfg, s, acts) && id in Run(cfg, s, acts).handled && id !in s.handled
    ensures exists i: nat :: HandledAt(cfg, s, acts, i, id)
    decreases |acts|
  {
    if acts == [] {
    } else if id in Step(cfg, s, acts[0]).handled {
      assert acts[..0] == [];
      assert HandledAt(cfg, s, acts, 0, id);
    } else {
      var t := Step(cfg, s, acts[0]);
      HandledHow(cfg, t, acts[1..], id);
      var i: nat :| HandledAt(cfg, t, acts[1..], i, id);
      assert acts[..i + 1][1..] == acts[1..][..i];
      assert HandledAt(cfg, s, acts, i + 1, id);
    }
  }

  /** Where draining ends, a message no delivery of which was refused has been handled. */
  lemma UnrefusedIsHandled(cfg: Config, before: seq<Action>, quiet: seq<Action>, id: nat)
    requires cfg.deadLetters && cfg.maxRetries <= MAX_INT32
    requires CanRun(cfg, INITIAL, before) && EntersOk(cfg.maxRetries, before)
    requires QuietRun(cfg, Run(cfg, INITIAL, before), quiet) && CanRun(cfg, Run(cfg, INITIAL, before), quiet)
    requires var t := Run(cfg, Run(cfg, INITIAL, before), quiet); RabbitBounds.Settled(t) && id in t.entered
    requires id !in RefusedIn(cfg, INITIAL, before) && id !in RefusedIn(cfg, Run(cfg, INITIAL, before), quiet)
    ensures id in Run(cfg, Run(cfg, INITIAL, before), quiet).handled
  {
    SettledIsDrained(cfg, before, quiet);
    RunsKeepChansOk(cfg, INITIAL, before);
    RunBlamed(cfg, INITIAL, before, {});
    RunBlamed(cfg, Run(cfg, INITIAL, before), quiet, {} + RefusedIn(cfg, INITIAL, before));
  }

  // ---------------------------------------------------------------- every attempt is made first

  predicate Tried(runs: multiset<nat>, m: Message) {
    Attempt(m) <= runs[m.id]
  }

  /** No copy anywhere carries a higher count than its message has handler runs. */
  predicate AllTried(s: State) {
    && (forall m :: m in s.ready ==> Tried(s.runs, m))
    && (forall c :: 0 <= c < |s.chans| ==> ChanTried(s.runs, s.chans[c]))
  }

  predicate ChanTried(runs: multiset<nat>, ch: Chan) {
    && (forall d :: d in ch.unacked ==> Tried(runs, d.msg))
    && (forall q :: q in ch.pipe && q.Publish? ==> Tried(runs, q.msg))
  }

  /** Messages enter without failures counted. */
  predicate EntersFresh(acts: seq<Action>) {
    forall i :: 0 <= i < |acts| && acts[i].Enter? ==> Attempt(acts[i].msg) <= 0
  }

  lemma AppendedTried(runs: multiset<nat>, ch: Chan, d: nat, commands: seq<Command>)
    requires d < |ch.unacked| && ChanTried(runs, ch)
    requires forall q :: q in commands && q.Publish? ==> Tried(runs, q.msg)
    ensures ChanTried(runs, Appended(ch, d, commands))
  {
    MarkedMembers(ch.unacked, d);
    assert ch.unacked[d] in ch.unacked;
  }

  lemma CopyCountsOneMore(m: Message)
    requires m.body.Envelope? && 0 <= Attempt(m)
    ensures Attempt(RetryCopy(m)) <= Attempt(m) + 1
  {
    CopyKeepsTheMessage(m);
  }

  lemma BlockTried(runs: multiset<nat>, maxRetries: nat, dl: Delivery, env: Env)
    requires Tried(runs, dl.msg)
    ensures forall q :: q in Settle(maxRetries, dl.tag, dl.msg, env).commands && q.Publish? ==>
      dl.msg.body.Envelope? && Tried(runs + multiset{dl.msg.id}, q.msg)
  {
    if dl.msg.body.Envelope? && 0 <= Attempt(dl.msg) {
      CopyCountsOneMore(dl.msg);
      CopyKeepsTheMessage(dl.msg);
    }
  }

  lemma MoreTried(runs: multiset<nat>, more: multiset<nat>, s: State)
    requires AllTried(s) && s.runs <= more
    ensures AllTried(s.(runs := more))
  {
  }

  lemma ProcessTried(cfg: Config, s: State, a: Action)
    requires AllTried(s) && Enabled(s, a) && a.Process?
    ensures AllTried(Step(cfg, s, a))
  {
    var t, dl := Step(cfg, s, a), s.chans[a.c].unacked[a.d];
    assert dl in s.chans[a.c].unacked;
    BlockTried(s.runs, cfg.maxRetries, dl, a.env);
    MoreTried(s.runs, t.runs, s);
    AppendedTried(t.runs, s.chans[a.c], a.d, Settle(cfg.maxRetries, dl.tag, dl.msg, a.env).commands);
  }

  lemma ExecuteTried(cfg: Config, s: State, a: Action)
    requires AllTried(s) && ChansOk(s.chans) && Enabled(s, a) && a.Execute?
    ensures AllTried(Step(cfg, s, a))
  {
    var ch := s.chans[a.c];
    assert ch.pipe[0] in ch.pipe;
    if IsSettle(ch.pipe[0]) {
      HeadIsKnown(ch);
      var i := IndexOf(ch.unacked, ch.pipe[0].tag);
      assert ch.unacked[i] in ch.unacked;
      RemovedByTag(ch.unacked, i);
    }
  }

  lemma LoseTried(cfg: Config, s: State, a: Action)
    requires AllTried(s) && Enabled(s, a) && a.LoseChannel?
    ensures AllTried(Step(cfg, s, a))
  {
    var u := s.chans[a.c].unacked;
    forall m | m in Messages(u) ensures Tried(s.runs, m) {
      var i :| 0 <= i < |u| && Messages(u)[i] == m;
      assert u[i] in u;
    }
  }

  lemma DeliverTried(cfg: Config, s: State, a: Action)
    requires AllTried(s) && Enabled(s, a) && a.Deliver?
    ensures AllTried(Step(cfg, s, a))
  {
    assert s.ready[a.i] in s.ready;
  }

  lemma StepTried(cfg: Config, s: State, a: Action)
    requires AllTried(s) && ChansOk(s.chans) && Enabled(s, a) && (a.Enter? ==> Attempt(a.msg) <= 0)
    ensures AllTried(Step(cfg, s, a)) && s.runs <= Step(cfg, s, a).runs
  {
    if a.Process? {
      ProcessTried(cfg, s, a);
    } else if a.Execute? {
      ExecuteTried(cfg, s, a);
    } else if a.Deliver? {
      DeliverTried(cfg, s, a);
    } else if a.LoseChannel? {
      LoseTried(cfg, s, a);
    }
  }

  /** A refusal that is not for good comes after maxRetries + 1 runs of the handler. */
  lemma RefusingTried(cfg: Config, s: State, a: Action)
    requires AllTried(s) && Refuses(cfg, s, a) && Dealt(s, a).body.Envelope? && a.env.handler.TransientFailure?
    ensures Step(cfg, s, a).runs[Dealt(s, a).id] >= cfg.maxRetries + 1
  {
    assert s.chans[a.c].unacked[a.d] in s.chans[a.c].unacked;
  }

  /** Step i of the run refuses the message at once: it cannot be read, or its handler refuses it for good. */
  predicate HopelessAt(cfg: Config, s: State, acts: seq<Action>, i: nat, id: nat) {
    && RefusedAt(cfg, s, acts, i, id)
    && (acts[i].env.handler.PermanentFailure? || Dealt(Run(cfg, s, acts[..i]), acts[i]).body.Garbled?)
  }

  lemma {:induction false} RefusedAfterTrying(cfg: Config, s: State, acts: seq<Action>, id: nat)
    requires CanRun(cfg, s, acts) && AllTried(s) && ChansOk(s.chans) && EntersFresh(acts)
    ensures s.runs <= Run(cfg, s, acts).runs
    ensures id in RefusedIn(cfg, s, acts) ==>
      (exists i: nat :: HopelessAt(cfg, s, acts, i, id)) || Run(cfg, s, acts).runs[id] >= cfg.maxRetries + 1
    decreases |acts|
  {
    if acts != [] {
      var t := Step(cfg, s, acts[0]);
      StepTried(cfg, s, acts[0]);
      StepChansOk(cfg, s, acts[0]);
      RefusedAfterTrying(cfg, t, acts[1..], id);
      if id in RefusedBy(cfg, s, acts[0]) {
        if acts[0].env.handler.TransientFailure? && Dealt(s, acts[0]).body.Envelope? {
          RefusingTried(cfg, s, acts[0]);
        } else {
          assert acts[..0] == [];
          assert HopelessAt(cfg, s, acts, 0, id);
        }
      } else if i: nat :| HopelessAt(cfg, t, acts[1..], i, id) {
        assert acts[..i + 1][1..] == acts[1..][..i];
        assert HopelessAt(cfg, s, acts, i + 1, id);
      }
    }
  }

  /** Nothing is given up early: a message that entered without failures counted and is dead-lettered was refused
      at once by some step, or its handler has run at least maxRetries + 1 times. */
  lemma DeadWasTried(cfg: Config, acts: seq<Action>, id: nat)
    requires CanRun(cfg, INITIAL, acts) && EntersFresh(acts) && id in Run(cfg, INITIAL, acts).dead
    ensures || (exists i: nat :: HopelessAt(cfg, INITIAL, acts, i, id))
            || Run(cfg, INITIAL, acts).runs[id] >= cfg.maxRetries + 1
  {
    RunBlamed(cfg, INITIAL, acts, {});
    RefusedAfterTrying(cfg, INITIAL, acts, id);
  }
}
