/** Runs of a work queue and its consumer channels. A channel's commands execute in FIFO order
    (AMQP 0-9-1, section 4.7); losing a channel drops the commands not yet executed and puts every
    unacknowledged delivery back on the queue. */
module RabbitBroker {
  import opened RabbitConsumer
  import opened Totals

  /** `settled` says that the consumer has dealt with the delivery and written its commands. */
  datatype Delivery = Delivery(tag: nat, msg: Message, settled: bool)

  datatype Chan = Chan(nextTag: nat, unacked: seq<Delivery>, pipe: seq<Command>)

  /** `entered` counts the copies producers put in, by message id; `runs` counts handler runs over every
      copy; `putBacks` counts deliveries whose handler was done and that went back with an unchanged
      retry count. */
  datatype State = State(
    ready: seq<Message>, chans: seq<Chan>, dead: multiset<nat>, handled: set<nat>,
    entered: multiset<nat>, runs: multiset<nat>, putBacks: multiset<nat>)

  datatype Config = Config(maxRetries: nat, deadLetters: bool)

  datatype Action =
    | Enter(msg: Message)
    | OpenChannel
    | Deliver(c: nat, i: nat)
    | Process(c: nat, d: nat, env: Env)
    | Execute(c: nat)
    | LoseChannel(c: nat)

  const INITIAL := State([], [], multiset{}, {}, multiset{}, multiset{}, multiset{})

  // ---------------------------------------------------------------- steps

  /** The position of a tag among the unacknowledged deliveries, or their number. */
  function IndexOf(unacked: seq<Delivery>, tag: nat): (i: nat)
    ensures i <= |unacked|
    ensures i < |unacked| ==> unacked[i].tag == tag
    ensures forall j :: 0 <= j < i ==> unacked[j].tag != tag
  {
    if unacked == [] || unacked[0].tag == tag then 0 else 1 + IndexOf(unacked[1..], tag)
  }

  function Messages(unacked: seq<Delivery>): (ms: seq<Message>)
    ensures |ms| == |unacked| && forall i :: 0 <= i < |ms| ==> ms[i] == unacked[i].msg
  {
    if unacked == [] then [] else [unacked[0].msg] + Messages(unacked[1..])
  }

  function SettledIds(unacked: seq<Delivery>): multiset<nat> {
    if unacked == [] then multiset{}
    else (if unacked[0].settled then multiset{unacked[0].msg.id} else multiset{}) + SettledIds(unacked[1..])
  }

  /** The broker delivers a message on the channel. */
  function Taken(ch: Chan, m: Message): Chan {
    Chan(ch.nextTag + 1, ch.unacked + [Delivery(ch.nextTag, m, false)], ch.pipe)
  }

  /** The consumer has dealt with one delivery and written a block of commands for it. */
  function Appended(ch: Chan, d: nat, commands: seq<Command>): Chan
    requires d < |ch.unacked|
  {
    Chan(ch.nextTag, ch.unacked[d := ch.unacked[d].(settled := true)], ch.pipe + commands)
  }

  function Processed(cfg: Config, ch: Chan, d: nat, env: Env): Chan
    requires d < |ch.unacked|
  {
    Appended(ch, d, Settle(cfg.maxRetries, ch.unacked[d].tag, ch.unacked[d].msg, env).commands)
  }

  /** The broker executes the oldest command; a settle removes the delivery with its tag. */
  function Executed(ch: Chan): Chan
    requires ch.pipe != []
  {
    var rest := ch.(pipe := ch.pipe[1..]);
    if ch.pipe[0].Publish? then rest
    else
      var i := IndexOf(ch.unacked, ch.pipe[0].tag);
      if i == |ch.unacked| then rest else rest.(unacked := RemoveAt(ch.unacked, i))
  }

  predicate Enabled(s: State, a: Action) {
    match a
    case Enter(_) => true
    case OpenChannel => true
    case Deliver(c, i) => c < |s.chans| && i < |s.ready|
    case Process(c, d, _) => c < |s.chans| && d < |s.chans[c].unacked| && !s.chans[c].unacked[d].settled
    case Execute(c) => c < |s.chans| && s.chans[c].pipe != []
    case LoseChannel(c) => c < |s.chans|
  }

  function Step(cfg: Config, s: State, a: Action): State
    requires Enabled(s, a)
  {
    match a
    case Enter(m) => s.(ready := s.ready + [m], entered := s.entered + multiset{m.id})
    case OpenChannel => s.(chans := s.chans + [Chan(0, [], [])])
    case Deliver(c, i) =>
      s.(ready := RemoveAt(s.ready, i), chans := s.chans[c := Taken(s.chans[c], s.ready[i])])
    case Process(c, d, env) =>
      var m := s.chans[c].unacked[d].msg;
      s.(chans := s.chans[c := Processed(cfg, s.chans[c], d, env)],
         handled := if m.body.Envelope? && env.handler.Handled? then s.handled + {m.id} else s.handled,
         runs := if m.body.Envelope? then s.runs + multiset{m.id} else s.runs)
    case Execute(c) =>
      var t := s.(chans := s.chans[c := Executed(s.chans[c])]);
      var head, unacked := s.chans[c].pipe[0], s.chans[c].unacked;
      if head.Publish? then t.(ready := s.ready + [head.msg])
      else
        var i := IndexOf(unacked, head.tag);
        if head.Ack? || i == |unacked| then t
        else
          var m := unacked[i].msg;
          if head.requeue then t.(ready := s.ready + [m], putBacks := s.putBacks + multiset{m.id})
          else if cfg.deadLetters then t.(dead := s.dead + multiset{m.id})
          else t
    case LoseChannel(c) =>
      s.(chans := s.chans[c := Chan(s.chans[c].nextTag, [], [])],
         ready := s.ready + Messages(s.chans[c].unacked),
         putBacks := s.putBacks + SettledIds(s.chans[c].unacked))
  }

  predicate CanRun(cfg: Config, s: State, acts: seq<Action>)
    decreases |acts|
  {
    acts == [] || (Enabled(s, acts[0]) && CanRun(cfg, Step(cfg, s, acts[0]), acts[1..]))
  }

  function Run(cfg: Config, s: State, acts: seq<Action>): State
    requires CanRun(cfg, s, acts)
    decreases |acts|
  {
    if acts == [] then s else Run(cfg, Step(cfg, s, acts[0]), acts[1..])
  }

  lemma RunFirst(cfg: Config, s: State, a: Action, rest: seq<Action>)
    requires Enabled(s, a) && CanRun(cfg, Step(cfg, s, a), rest)
    ensures CanRun(cfg, s, [a] + rest) && Run(cfg, s, [a] + rest) == Run(cfg, Step(cfg, s, a), rest)
  {
    assert ([a] + rest)[1..] == rest;
  }

  // ---------------------------------------------------------------- channel invariant

  predicate TagsOk(ch: Chan) {
    && (forall i :: 0 <= i < |ch.unacked| ==> ch.unacked[i].tag < ch.nextTag)
    && (forall i, j :: 0 <= i < j < |ch.unacked| ==> ch.unacked[i].tag != ch.unacked[j].tag)
  }

  predicate IsSettle(c: Command) { c.Ack? || c.Nack? }

  /** The command settles a delivery the consumer is done with. */
  predicate SettlesKnown(ch: Chan, c: Command)
    requires IsSettle(c)
  {
    exists d :: d in ch.unacked && d.tag == c.tag && d.settled
  }

  predicate PipeOk(ch: Chan) {
    && (forall i :: 0 <= i < |ch.pipe| && IsSettle(ch.pipe[i]) ==> SettlesKnown(ch, ch.pipe[i]))
    && (forall i, j :: 0 <= i < j < |ch.pipe| && IsSettle(ch.pipe[i]) && IsSettle(ch.pipe[j])
          ==> ch.pipe[i].tag != ch.pipe[j].tag)
  }

  /** Publish before settle: a copy in the pipe is followed by the command that gives up an original
      with the same id, so that original is still unacknowledged. */
  predicate Paired(ch: Chan) {
    forall i :: 0 <= i < |ch.pipe| && ch.pipe[i].Publish? ==> BackedBy(ch, i)
  }

  predicate BackedBy(ch: Chan, i: nat)
    requires i < |ch.pipe| && ch.pipe[i].Publish?
  {
    && i + 1 < |ch.pipe| && IsSettle(ch.pipe[i + 1])
    && exists d :: d in ch.unacked && d.tag == ch.pipe[i + 1].tag && d.msg.id == ch.pipe[i].msg.id
  }

  /** A settled delivery still has its settling command pending, unless the handler's retry panicked. */
  predicate Pending(ch: Chan) {
    forall d :: d in ch.unacked && d.settled ==> HasSettle(ch.pipe, d.tag) || Attempt(d.msg) < 0
  }

  predicate HasSettle(pipe: seq<Command>, tag: nat) {
    exists c :: c in pipe && IsSettle(c) && c.tag == tag
  }

  predicate ChanOk(ch: Chan) {
    TagsOk(ch) && PipeOk(ch) && Paired(ch) && Pending(ch)
  }

  predicate ChansOk(chans: seq<Chan>) {
    forall c :: 0 <= c < |chans| ==> ChanOk(chans[c])
  }

  /** The commands written for a delivery: copies of the same message, then one settle. */
  predicate BlockFor(dl: Delivery, commands: seq<Command>) {
    && |commands| <= 2
    && (commands == [] ==> Attempt(dl.msg) < 0)
    && forall i :: 0 <= i < |commands| ==>
         if i == |commands| - 1 then Settles(commands[i], dl.tag)
         else commands[i].Publish? && commands[i].msg.id == dl.msg.id
  }

  lemma TakenOk(ch: Chan, m: Message)
    requires ChanOk(ch)
    ensures ChanOk(Taken(ch, m))
  {
    var t := Taken(ch, m);
    assert forall d :: d in ch.unacked ==> d in t.unacked;
  }

  lemma SettleIsBlock(cfg: Config, dl: Delivery, env: Env)
    ensures BlockFor(dl, Settle(cfg.maxRetries, dl.tag, dl.msg, env).commands)
  {
  }

  lemma MarkedMembers(u: seq<Delivery>, d: nat)
    requires d < |u|
    ensures u[d].(settled := true) in u[d := u[d].(settled := true)]
    ensures forall x :: x in u && x.settled ==> x in u[d := u[d].(settled := true)]
    ensures forall x :: x in u ==>
      x.(settled := true) in u[d := u[d].(settled := true)] || x in u[d := u[d].(settled := true)]
    ensures forall x :: x in u[d := u[d].(settled := true)] ==> x in u || x == u[d].(settled := true)
  {
    var r := u[d := u[d].(settled := true)];
    assert r[d] in r;
    forall x | x in u && (x.settled || x != u[d]) ensures x in r {
      var k :| 0 <= k < |u| && u[k] == x;
      assert r[k] == x;
    }
  }

  lemma NotYetSettled(ch: Chan, d: nat)
    requires ChanOk(ch) && d < |ch.unacked| && !ch.unacked[d].settled
    ensures forall i :: 0 <= i < |ch.pipe| && IsSettle(ch.pipe[i]) ==> ch.pipe[i].tag != ch.unacked[d].tag
  {
    forall i | 0 <= i < |ch.pipe| && IsSettle(ch.pipe[i]) ensures ch.pipe[i].tag != ch.unacked[d].tag {
      assert SettlesKnown(ch, ch.pipe[i]);
    }
  }

  lemma AppendedPipeOk(ch: Chan, d: nat, commands: seq<Command>)
    requires ChanOk(ch) && d < |ch.unacked| && !ch.unacked[d].settled && BlockFor(ch.unacked[d], commands)
    ensures PipeOk(Appended(ch, d, commands))
  {
    var t := Appended(ch, d, commands);
    MarkedMembers(ch.unacked, d);
    NotYetSettled(ch, d);
    forall i | 0 <= i < |t.pipe| && IsSettle(t.pipe[i]) ensures SettlesKnown(t, t.pipe[i]) {
      if i < |ch.pipe| {
        assert SettlesKnown(ch, ch.pipe[i]);
      }
    }
  }

  lemma AppendedPaired(ch: Chan, d: nat, commands: seq<Command>)
    requires ChanOk(ch) && d < |ch.unacked| && !ch.unacked[d].settled && BlockFor(ch.unacked[d], commands)
    ensures Paired(Appended(ch, d, commands))
  {
    var t := Appended(ch, d, commands);
    MarkedMembers(ch.unacked, d);
    forall i | 0 <= i < |t.pipe| && t.pipe[i].Publish? ensures BackedBy(t, i) {
      if i < |ch.pipe| {
        assert BackedBy(ch, i);
        var x :| x in ch.unacked && x.tag == ch.pipe[i + 1].tag && x.msg.id == ch.pipe[i].msg.id;
        assert x in t.unacked || x.(settled := true) in t.unacked;
      } else {
        var k := i - |ch.pipe|;
        assert t.pipe[i] == commands[k] && k < |commands| - 1;
        assert t.pipe[i + 1] == commands[k + 1];
        PublishThenSettle(ch.unacked[d], commands, k);
      }
    }
  }

  /** A block is at most one copy and the settle, so a copy is followed by the settle. */
  lemma PublishThenSettle(dl: Delivery, commands: seq<Command>, k: nat)
    requires BlockFor(dl, commands) && k < |commands| && commands[k].Publish?
    ensures k == 0 && |commands| == 2 && Settles(commands[1], dl.tag)
  {
  }

  lemma AppendedPending(ch: Chan, d: nat, commands: seq<Command>)
    requires ChanOk(ch) && d < |ch.unacked| && !ch.unacked[d].settled && BlockFor(ch.unacked[d], commands)
    ensures Pending(Appended(ch, d, commands))
  {
    var t := Appended(ch, d, commands);
    MarkedMembers(ch.unacked, d);
    forall x | x in t.unacked && x.settled && Attempt(x.msg) >= 0 ensures HasSettle(t.pipe, x.tag) {
      if x in ch.unacked {
        var q :| q in ch.pipe && IsSettle(q) && q.tag == x.tag;
        assert q in t.pipe;
      } else {
        var q := commands[|commands| - 1];
        assert t.pipe[|t.pipe| - 1] == q;
        assert q in t.pipe;
      }
    }
  }

  lemma ProcessedOk(cfg: Config, ch: Chan, d: nat, env: Env)
    requires ChanOk(ch) && d < |ch.unacked| && !ch.unacked[d].settled
    ensures ChanOk(Processed(cfg, ch, d, env))
  {
    var commands := Settle(cfg.maxRetries, ch.unacked[d].tag, ch.unacked[d].msg, env).commands;
    SettleIsBlock(cfg, ch.unacked[d], env);
    AppendedPipeOk(ch, d, commands);
    AppendedPaired(ch, d, commands);
    AppendedPending(ch, d, commands);
  }

  lemma HeadIsKnown(ch: Chan)
    requires ChanOk(ch) && ch.pipe != [] && IsSettle(ch.pipe[0])
    ensures var i := IndexOf(ch.unacked, ch.pipe[0].tag); i < |ch.unacked| && ch.unacked[i].settled
  {
    assert SettlesKnown(ch, ch.pipe[0]);
  }

  lemma RemovedByTag(u: seq<Delivery>, i: nat)
    requires i < |u| && forall j, k :: 0 <= j < k < |u| ==> u[j].tag != u[k].tag
    ensures forall x :: x in RemoveAt(u, i) <==> x in u && x.tag != u[i].tag
    ensures forall j, k :: 0 <= j < k < |u| - 1 ==> RemoveAt(u, i)[j].tag != RemoveAt(u, i)[k].tag
  {
    var r := RemoveAt(u, i);
    forall x ensures x in r <==> x in u && x.tag != u[i].tag {
      if x in r {
        var j :| 0 <= j < |r| && r[j] == x;
        assert x == u[if j < i then j else j + 1];
      }
      if x in u && x.tag != u[i].tag {
        var j :| 0 <= j < |u| && u[j] == x;
        assert x == r[if j < i then j else j - 1];
      }
    }
  }

  lemma ExecutedOk(ch: Chan)
    requires ChanOk(ch) && ch.pipe != []
    ensures ChanOk(Executed(ch))
  {
    if IsSettle(ch.pipe[0]) {
      HeadIsKnown(ch);
      RemovedByTag(ch.unacked, IndexOf(ch.unacked, ch.pipe[0].tag));
    }
    ExecutedPipeOk(ch, Executed(ch));
  }

  /** Dropping the head, and the delivery it settled, leaves the rest of the pipe well formed. */
  lemma ExecutedPipeOk(ch: Chan, t: Chan)
    requires ChanOk(ch) && ch.pipe != [] && TagsOk(t) && t.pipe == ch.pipe[1..]
    requires forall x :: x in t.unacked ==> x in ch.unacked && !(IsSettle(ch.pipe[0]) && x.tag == ch.pipe[0].tag)
    requires forall x :: x in ch.unacked && !(IsSettle(ch.pipe[0]) && x.tag == ch.pipe[0].tag) ==> x in t.unacked
    ensures PipeOk(t) && Paired(t) && Pending(t)
  {
    assert forall i :: 0 <= i < |t.pipe| ==> t.pipe[i] == ch.pipe[i + 1];
    assert PipeOk(t) by {
      forall i | 0 <= i < |t.pipe| && IsSettle(t.pipe[i]) ensures SettlesKnown(t, t.pipe[i]) {
        assert SettlesKnown(ch, ch.pipe[i + 1]);
      }
    }
    assert Paired(t) by {
      forall i | 0 <= i < |t.pipe| && t.pipe[i].Publish? ensures BackedBy(t, i) {
        assert BackedBy(ch, i + 1);
        assert ch.pipe[i + 2] == t.pipe[i + 1];
      }
    }
    assert Pending(t) by {
      forall x | x in t.unacked && x.settled && Attempt(x.msg) >= 0 ensures HasSettle(t.pipe, x.tag) {
        var q :| q in ch.pipe && IsSettle(q) && q.tag == x.tag;
        var j :| 0 <= j < |ch.pipe| && ch.pipe[j] == q;
        assert j > 0 && t.pipe[j - 1] == q;
      }
    }
  }

  lemma UpdateChansOk(chans: seq<Chan>, c: nat, ch: Chan)
    requires c < |chans| && ChanOk(ch) && ChansOk(chans)
    ensures ChansOk(chans[c := ch])
  {
  }

  lemma StepChansOk(cfg: Config, s: State, a: Action)
    requires ChansOk(s.chans) && Enabled(s, a)
    ensures ChansOk(Step(cfg, s, a).chans)
  {
    match a
    case Enter(_) =>
    case OpenChannel =>
    case Deliver(c, i) =>
      TakenOk(s.chans[c], s.ready[i]);
      UpdateChansOk(s.chans, c, Taken(s.chans[c], s.ready[i]));
    case Process(c, d, env) =>
      ProcessedOk(cfg, s.chans[c], d, env);
      UpdateChansOk(s.chans, c, Processed(cfg, s.chans[c], d, env));
    case Execute(c) =>
      ExecutedOk(s.chans[c]);
      UpdateChansOk(s.chans, c, Executed(s.chans[c]));
    case LoseChannel(c) =>
      UpdateChansOk(s.chans, c, Chan(s.chans[c].nextTag, [], []));
  }

  // ---------------------------------------------------------------- no loss

  /** A channel holds the message in a way no pending Ack gives up: an unacknowledged delivery with no
      Ack in the pipe, or a copy about to be published. */
  predicate Holds(ch: Chan, id: nat) {
    || (exists d :: d in ch.unacked && d.msg.id == id && Ack(d.tag) !in ch.pipe)
    || (exists c :: c in ch.pipe && c.Publish? && c.msg.id == id)
  }

  predicate Safe(s: State, id: nat) {
    || id in s.handled
    || id in s.dead
    || (exists m :: m in s.ready && m.id == id)
    || (exists c :: 0 <= c < |s.chans| && Holds(s.chans[c], id))
  }

  /** What an operator can see: the message was handled, or some copy of it still exists. */
  predicate Accounted(s: State, id: nat) {
    || id in s.handled
    || id in s.dead
    || (exists m :: m in s.ready && m.id == id)
    || (exists c, d :: 0 <= c < |s.chans| && d in s.chans[c].unacked && d.msg.id == id)
  }

  lemma HoldsInUnacked(ch: Chan, id: nat)
    requires ChanOk(ch) && Holds(ch, id)
    ensures exists d :: d in ch.unacked && d.msg.id == id
  {
    if c :| c in ch.pipe && c.Publish? && c.msg.id == id {
      var i :| 0 <= i < |ch.pipe| && ch.pipe[i] == c;
      assert BackedBy(ch, i);
    }
  }

  lemma AppendedHolds(ch: Chan, d: nat, commands: seq<Command>, id: nat)
    requires ChanOk(ch) && d < |ch.unacked| && !ch.unacked[d].settled && BlockFor(ch.unacked[d], commands)
    requires Holds(ch, id)
    ensures Holds(Appended(ch, d, commands), id)
      || (ch.unacked[d].msg.id == id && commands == [Ack(ch.unacked[d].tag)])
  {
    var dl := ch.unacked[d];
    var t := Appended(ch, d, commands);
    if c :| c in ch.pipe && c.Publish? && c.msg.id == id {
      assert c in t.pipe;
    } else {
      var x :| x in ch.unacked && x.msg.id == id && Ack(x.tag) !in ch.pipe;
      var k :| 0 <= k < |ch.unacked| && ch.unacked[k] == x;
      if k != d {
        assert t.unacked[k] == x;
        assert Ack(x.tag) !in commands;
      } else if |commands| == 2 {
        assert t.pipe[|ch.pipe|] == commands[0];
        assert commands[0] in t.pipe;
      } else {
        assert t.unacked[d] in t.unacked;
        assert Ack(dl.tag) in commands ==> commands == [Ack(dl.tag)];
      }
    }
  }

  lemma LoneAckMeansHandled(cfg: Config, dl: Delivery, env: Env)
    requires Settle(cfg.maxRetries, dl.tag, dl.msg, env).commands == [Ack(dl.tag)]
    ensures dl.msg.body.Envelope? && env.handler.Handled?
  {
  }

  lemma ExecutedHolds(ch: Chan, id: nat)
    requires ChanOk(ch) && ch.pipe != [] && Holds(ch, id)
    ensures Holds(Executed(ch), id)
      || (ch.pipe[0].Publish? && ch.pipe[0].msg.id == id)
      || (ch.pipe[0].Nack? && ch.unacked[IndexOf(ch.unacked, ch.pipe[0].tag)].msg.id == id)
  {
    var head, t := ch.pipe[0], Executed(ch);
    assert ch.pipe == [head] + t.pipe;
    if IsSettle(head) {
      HeadIsKnown(ch);
      RemovedByTag(ch.unacked, IndexOf(ch.unacked, head.tag));
    }
    if c :| c in ch.pipe && c.Publish? && c.msg.id == id {
      assert c == head || c in t.pipe;
    } else {
      var x :| x in ch.unacked && x.msg.id == id && Ack(x.tag) !in ch.pipe;
      assert Ack(x.tag) !in t.pipe;
      if IsSettle(head) && x.tag == head.tag {
        SameTagSameDelivery(ch, x, IndexOf(ch.unacked, head.tag));
      } else {
        assert x in t.unacked;
      }
    }
  }

  lemma SameTagSameDelivery(ch: Chan, x: Delivery, i: nat)
    requires TagsOk(ch) && x in ch.unacked && i < |ch.unacked| && ch.unacked[i].tag == x.tag
    ensures ch.unacked[i] == x
  {
    var k :| 0 <= k < |ch.unacked| && ch.unacked[k] == x;
  }

  lemma QueuedStaysSafe(cfg: Config, s: State, a: Action, m: Message)
    requires ChansOk(s.chans) && Enabled(s, a) && m in s.ready
    ensures Safe(Step(cfg, s, a), m.id)
  {
    var t := Step(cfg, s, a);
    if a.Deliver? {
      var k :| 0 <= k < |s.ready| && s.ready[k] == m;
      if k == a.i {
        TakenHolds(s.chans[a.c], m, m.id);
        SafeByChannel(t, m.id, a.c);
      } else {
        assert m == t.ready[if k < a.i then k else k - 1];
      }
    } else {
      assert m in t.ready;
    }
  }

  lemma EnteredIsSafe(cfg: Config, s: State, m: Message)
    ensures Safe(Step(cfg, s, Enter(m)), m.id)
  {
    assert m in Step(cfg, s, Enter(m)).ready;
  }

  lemma StepSafe(cfg: Config, s: State, a: Action, id: nat)
    requires cfg.deadLetters && ChansOk(s.chans) && Enabled(s, a) && Safe(s, id)
    ensures Safe(Step(cfg, s, a), id)
  {
    if id in s.handled || id in s.dead {
    } else if m :| m in s.ready && m.id == id {
      QueuedStaysSafe(cfg, s, a, m);
    } else {
      var c :| 0 <= c < |s.chans| && Holds(s.chans[c], id);
      HeldStaysSafe(cfg, s, a, id, c);
    }
  }

  lemma FreshTagNotAcked(ch: Chan)
    requires ChanOk(ch)
    ensures Ack(ch.nextTag) !in ch.pipe
  {
    forall i | 0 <= i < |ch.pipe| ensures ch.pipe[i] != Ack(ch.nextTag) {
      if ch.pipe[i].Ack? {
        assert SettlesKnown(ch, ch.pipe[i]);
      }
    }
  }

  lemma TakenHolds(ch: Chan, m: Message, id: nat)
    requires ChanOk(ch) && (Holds(ch, id) || m.id == id)
    ensures Holds(Taken(ch, m), id)
  {
    var t := Taken(ch, m);
    FreshTagNotAcked(ch);
    assert t.unacked[|ch.unacked|] in t.unacked;
    assert forall d :: d in ch.unacked ==> d in t.unacked;
  }

  lemma SafeByChannel(s: State, id: nat, c: nat)
    requires c < |s.chans| && Holds(s.chans[c], id)
    ensures Safe(s, id)
  {
  }

  lemma HeldStaysSafe(cfg: Config, s: State, a: Action, id: nat, c: nat)
    requires cfg.deadLetters && ChansOk(s.chans) && Enabled(s, a)
    requires c < |s.chans| && Holds(s.chans[c], id)
    ensures Safe(Step(cfg, s, a), id)
  {
    if (a.Enter? || a.OpenChannel?) || a.c != c {
      HeldElsewhere(cfg, s, a, id, c);
    } else if a.Deliver? {
      TakenHolds(s.chans[c], s.ready[a.i], id);
      SafeByChannel(Step(cfg, s, a), id, c);
    } else if a.Process? {
      HeldIsProcessed(cfg, s, a, id);
    } else if a.Execute? {
      HeldIsExecuted(cfg, s, a, id);
    } else {
      HeldIsRequeued(cfg, s, a, id);
    }
  }

  lemma HeldElsewhere(cfg: Config, s: State, a: Action, id: nat, c: nat)
    requires Enabled(s, a) && c < |s.chans| && Holds(s.chans[c], id)
    requires (a.Enter? || a.OpenChannel?) || a.c != c
    ensures Safe(Step(cfg, s, a), id)
  {
    assert Step(cfg, s, a).chans[c] == s.chans[c];
    SafeByChannel(Step(cfg, s, a), id, c);
  }

  lemma HeldIsProcessed(cfg: Config, s: State, a: Action, id: nat)
    requires ChansOk(s.chans) && a.Process? && Enabled(s, a) && Holds(s.chans[a.c], id)
    ensures Safe(Step(cfg, s, a), id)
  {
    var ch := s.chans[a.c];
    var commands := Settle(cfg.maxRetries, ch.unacked[a.d].tag, ch.unacked[a.d].msg, a.env).commands;
    SettleIsBlock(cfg, ch.unacked[a.d], a.env);
    AppendedHolds(ch, a.d, commands, id);
    if Holds(Appended(ch, a.d, commands), id) {
      SafeByChannel(Step(cfg, s, a), id, a.c);
    } else {
      LoneAckMeansHandled(cfg, ch.unacked[a.d], a.env);
    }
  }

  lemma HeldIsExecuted(cfg: Config, s: State, a: Action, id: nat)
    requires cfg.deadLetters && ChansOk(s.chans) && a.Execute? && Enabled(s, a) && Holds(s.chans[a.c], id)
    ensures Safe(Step(cfg, s, a), id)
  {
    var ch, t := s.chans[a.c], Step(cfg, s, a);
    var head := ch.pipe[0];
    ExecutedHolds(ch, id);
    if Holds(Executed(ch), id) {
      SafeByChannel(t, id, a.c);
    } else if head.Publish? {
      assert t.ready[|s.ready|] == head.msg;
      assert head.msg in t.ready;
    } else {
      HeadIsKnown(ch);
      var m := ch.unacked[IndexOf(ch.unacked, head.tag)].msg;
      if head.requeue {
        assert t.ready[|s.ready|] == m;
        assert m in t.ready;
      }
    }
  }

  lemma HeldIsRequeued(cfg: Config, s: State, a: Action, id: nat)
    requires ChansOk(s.chans) && a.LoseChannel? && Enabled(s, a) && Holds(s.chans[a.c], id)
    ensures Safe(Step(cfg, s, a), id)
  {
    var ch := s.chans[a.c];
    HoldsInUnacked(ch, id);
    var d :| d in ch.unacked && d.msg.id == id;
    var k :| 0 <= k < |ch.unacked| && ch.unacked[k] == d;
    assert Messages(ch.unacked)[k] == d.msg;
    assert d.msg in Step(cfg, s, a).ready;
  }

  predicate AllSafe(s: State) {
    ChansOk(s.chans) && forall id :: id in s.entered ==> Safe(s, id)
  }

  lemma {:induction false} RunsStaySafe(cfg: Config, s: State, acts: seq<Action>)
    requires cfg.deadLetters && AllSafe(s) && CanRun(cfg, s, acts)
    ensures AllSafe(Run(cfg, s, acts))
    decreases |acts|
  {
    if acts != [] {
      var t := Step(cfg, s, acts[0]);
      StepChansOk(cfg, s, acts[0]);
      forall id | id in t.entered ensures Safe(t, id) {
        if id in s.entered {
          StepSafe(cfg, s, acts[0], id);
        } else {
          EnteredIsSafe(cfg, s, acts[0].msg);
        }
      }
      RunsStaySafe(cfg, t, acts[1..]);
    }
  }

  ghost predicate NeverLoses(cfg: Config) {
    forall acts, id :: CanRun(cfg, INITIAL, acts) && id in Run(cfg, INITIAL, acts).entered
      ==> Accounted(Run(cfg, INITIAL, acts), id)
  }

  lemma SafeIsAccounted(s: State, id: nat)
    requires ChansOk(s.chans) && Safe(s, id)
    ensures Accounted(s, id)
  {
    if c :| 0 <= c < |s.chans| && Holds(s.chans[c], id) {
      HoldsInUnacked(s.chans[c], id);
    }
  }

  /** A poison message is delivered, rejected, and the rejection executed. */
  function PoisonRun(m: Message): seq<Action> {
    var env := Env(Handled, false, Sent);
    [Enter(m)] + ([OpenChannel] + ([Deliver(0, 0)] + ([Process(0, 0, env)] + ([Execute(0)] + []))))
  }

  lemma PoisonRuns(cfg: Config, m: Message) returns (t: State)
    requires !cfg.deadLetters && m.body.Garbled?
    ensures CanRun(cfg, INITIAL, PoisonRun(m)) && Run(cfg, INITIAL, PoisonRun(m)) == t
    ensures t.ready == [] && t.chans == [Chan(1, [], [])] && t.dead == INITIAL.dead && t.handled == {}
    ensures m.id in t.entered
  {
    var env := Env(Handled, false, Sent);
    var dl := Delivery(0, m, false);
    var c3, c4 := Chan(1, [dl], []), Chan(1, [dl.(settled := true)], [Nack(0, false)]);
    var s1 := Step(cfg, INITIAL, Enter(m));
    var s2 := Step(cfg, s1, OpenChannel);
    assert s2.ready == [m] && s2.chans == [Chan(0, [], [])];
    assert Taken(s2.chans[0], m) == c3;
    var s3 := Step(cfg, s2, Deliver(0, 0));
    assert s3.ready == [] && s3.chans == [c3];
    PoisonRejected(cfg, m);
    var s4 := Step(cfg, s3, Process(0, 0, env));
    assert s4.chans == [c4];
    t := Step(cfg, s4, Execute(0));
    RunFirst(cfg, s4, Execute(0), []);
    RunFirst(cfg, s3, Process(0, 0, env), [Execute(0)] + []);
    RunFirst(cfg, s2, Deliver(0, 0), [Process(0, 0, env)] + ([Execute(0)] + []));
    RunFirst(cfg, s1, OpenChannel, [Deliver(0, 0)] + ([Process(0, 0, env)] + ([Execute(0)] + [])));
    RunFirst(cfg, INITIAL, Enter(m), [OpenChannel] + ([Deliver(0, 0)] + ([Process(0, 0, env)] + ([Execute(0)] + []))));
  }

  lemma PoisonRejected(cfg: Config, m: Message)
    requires m.body.Garbled?
    ensures var dl := Delivery(0, m, false);
      var rejected := Chan(1, [dl.(settled := true)], [Nack(0, false)]);
      && Processed(cfg, Chan(1, [dl], []), 0, Env(Handled, false, Sent)) == rejected
      && IndexOf(rejected.unacked, 0) == 0
      && Executed(rejected) == Chan(1, [], [])
  {
    var dl := Delivery(0, m, false);
    var rejected := Chan(1, [dl.(settled := true)], [Nack(0, false)]);
    assert Processed(cfg, Chan(1, [dl], []), 0, Env(Handled, false, Sent)).unacked == rejected.unacked;
    assert Processed(cfg, Chan(1, [dl], []), 0, Env(Handled, false, Sent)).pipe == rejected.pipe;
    assert IndexOf(rejected.unacked, 0) == 0;
    assert Executed(rejected).unacked == [] && Executed(rejected).pipe == [];
  }

  /** A poison message on a queue without a dead-letter exchange disappears. */
  lemma PoisonIsLost(cfg: Config)
    requires !cfg.deadLetters
    ensures !NeverLoses(cfg)
  {
    var m := Message(7, Garbled("{not json"), map[]);
    var t := PoisonRuns(cfg, m);
    assert 7 in t.entered && !Accounted(t, 7);
    assert !Accounted(Run(cfg, INITIAL, PoisonRun(m)), 7);
  }

  /** In every run, with any handler outcomes, republish errors, cancellations and channel losses,
      each message is queued, unacknowledged, dead-lettered or was handled: exactly when the queue
      dead-letters. */
  lemma NoLossIffDeadLetters(cfg: Config)
    ensures NeverLoses(cfg) <==> cfg.deadLetters
  {
    if cfg.deadLetters {
      forall acts, id | CanRun(cfg, INITIAL, acts) && id in Run(cfg, INITIAL, acts).entered
        ensures Accounted(Run(cfg, INITIAL, acts), id)
      {
        RunsStaySafe(cfg, INITIAL, acts);
        SafeIsAccounted(Run(cfg, INITIAL, acts), id);
      }
    } else {
      PoisonIsLost(cfg);
    }
  }

  /** Of the queues that are not streams, the five dead-letter queues are the ones that can lose. */
  lemma NoLossOnWorkQueues(queue: string, maxRetries: nat)
    requires DefaultQueueArguments(queue).Quorum?
    ensures NeverLoses(Config(maxRetries, DeadLetters(queue))) <==> queue !in DEAD_LETTER_QUEUES
  {
    NoLossIffDeadLetters(Config(maxRetries, DeadLetters(queue)));
  }
}
