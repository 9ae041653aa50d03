/** How often a handler can run, and why a queue drains: potential functions over whole runs. */
module RabbitBounds {
  import opened RabbitConsumer
  import opened RabbitBroker
  import opened Totals

  /** A weight for queued messages, for deliveries and for pending commands. */
  datatype Weights = Weights(queued: Message -> nat, held: Delivery -> nat, pending: Command -> nat)

  function ChanWeight(w: Weights): Chan -> nat {
    (ch: Chan) => Total(w.held, ch.unacked) + Total(w.pending, ch.pipe)
  }

  function Potential(w: Weights, s: State): nat {
    Total(w.queued, s.ready) + Total(ChanWeight(w), s.chans)
  }

  // ---------------------------------------------------------------- potential along the steps

  lemma TakenWeight(w: Weights, ch: Chan, m: Message)
    ensures ChanWeight(w)(Taken(ch, m)) == ChanWeight(w)(ch) + w.held(Delivery(ch.nextTag, m, false))
  {
    var dl := Delivery(ch.nextTag, m, false);
    TotalConcat(w.held, ch.unacked, [dl]);
    TotalOne(w.held, dl);
  }

  lemma AppendedWeight(w: Weights, ch: Chan, d: nat, commands: seq<Command>)
    requires d < |ch.unacked|
    ensures ChanWeight(w)(Appended(ch, d, commands)) + w.held(ch.unacked[d])
         == ChanWeight(w)(ch) + w.held(ch.unacked[d].(settled := true)) + Total(w.pending, commands)
  {
    TotalUpdate(w.held, ch.unacked, d, ch.unacked[d].(settled := true));
    TotalConcat(w.pending, ch.pipe, commands);
  }

  lemma ExecutedWeight(w: Weights, ch: Chan)
    requires ChanOk(ch) && ch.pipe != []
    ensures ch.pipe[0].Publish? ==> ChanWeight(w)(Executed(ch)) + w.pending(ch.pipe[0]) == ChanWeight(w)(ch)
    ensures IsSettle(ch.pipe[0]) ==>
      var i := IndexOf(ch.unacked, ch.pipe[0].tag);
      && i < |ch.unacked| && ch.unacked[i].settled
      && ChanWeight(w)(Executed(ch)) + w.pending(ch.pipe[0]) + w.held(ch.unacked[i]) == ChanWeight(w)(ch)
  {
    if IsSettle(ch.pipe[0]) {
      HeadIsKnown(ch);
      TotalRemove(w.held, ch.unacked, IndexOf(ch.unacked, ch.pipe[0].tag));
    }
  }

  /** Replacing one channel and appending to the queue moves the potential by the difference. */
  lemma PotentialMoves(w: Weights, s: State, c: nat, ch: Chan, more: seq<Message>)
    requires c < |s.chans|
    ensures Total(ChanWeight(w), s.chans[c := ch]) + ChanWeight(w)(s.chans[c])
         == Total(ChanWeight(w), s.chans) + ChanWeight(w)(ch)
    ensures Total(w.queued, s.ready + more) == Total(w.queued, s.ready) + Total(w.queued, more)
  {
    TotalUpdate(ChanWeight(w), s.chans, c, ch);
    TotalConcat(w.queued, s.ready, more);
  }

  // ---------------------------------------------------------------- bounded redelivery

  /** Handler runs from a retry count that fits in 32 bits: up to the limit, or up to the count that wraps
      to a negative one. */
  function RunsFrom(maxRetries: nat, count: int): (n: nat)
    requires count <= MAX_INT32
    ensures 1 <= n <= maxRetries + 1
  {
    if 0 <= count < maxRetries then Min(maxRetries + 1 - count, MAX_INT32 + 2 - count) else 1
  }

  function Min(a: int, b: int): int {
    if a < b then a else b
  }

  /** Handler runs a copy can still cause without being put back. */
  function RunsLeft(maxRetries: nat, m: Message): (n: nat)
    ensures n <= maxRetries + 1
  {
    if m.body.Garbled? then 0
    else if Attempt(m) <= MAX_INT32 then RunsFrom(maxRetries, Attempt(m))
    else if Attempt(m) >= maxRetries then 1
    else 1 + RunsFrom(maxRetries, ToInt32(Attempt(m) + 1))
  }

  /** A republished copy has one run less left, wrapped counts included. */
  lemma CopyHasOneLess(maxRetries: nat, m: Message)
    requires m.body.Envelope? && 0 <= Attempt(m) < maxRetries
    ensures RunsLeft(maxRetries, RetryCopy(m)) + 1 <= RunsLeft(maxRetries, m)
  {
    CopyKeepsTheMessage(m);
  }

  function RunsLeftOf(maxRetries: nat, id: nat): Message -> nat {
    (m: Message) => if m.id == id then RunsLeft(maxRetries, m) else 0
  }

  function LineageWeights(maxRetries: nat, id: nat): Weights {
    Weights(RunsLeftOf(maxRetries, id),
            (d: Delivery) => if d.settled || d.msg.id != id then 0 else RunsLeft(maxRetries, d.msg),
            (c: Command) => if c.Publish? && c.msg.id == id then RunsLeft(maxRetries, c.msg) else 0)
  }

  /** n allowances of k runs each. */
  function Allowance(k: nat, n: nat): nat {
    if n == 0 then 0 else k + Allowance(k, n - 1)
  }

  lemma {:induction false} AllowanceIsProduct(k: nat, n: nat)
    ensures Allowance(k, n) == k * n
  {
    if n > 0 {
      AllowanceIsProduct(k, n - 1);
      assert k * n == k * (n - 1) + k;
    }
  }

  lemma {:induction false} AllowanceAdds(k: nat, m: nat, n: nat)
    ensures Allowance(k, m + n) == Allowance(k, m) + Allowance(k, n)
  {
    if n > 0 {
      AllowanceAdds(k, m, n - 1);
    }
  }

  /** The chances a message has had: entering, and each time a handled copy was put back. */
  function Chances(s: State, id: nat): nat {
    s.entered[id] + s.putBacks[id]
  }

  predicate WithinBudget(maxRetries: nat, s: State, id: nat) {
    s.runs[id] + Potential(LineageWeights(maxRetries, id), s) <= Allowance(maxRetries + 1, Chances(s, id))
  }

  /** One handler run uses up one unit of what the delivery was worth. */
  lemma SettleSpendsOne(maxRetries: nat, tag: nat, m: Message, env: Env, id: nat)
    ensures Total(LineageWeights(maxRetries, id).pending, Settle(maxRetries, tag, m, env).commands)
      + (if m.id == id && m.body.Envelope? then 1 else 0)
      <= RunsLeftOf(maxRetries, id)(m)
  {
    var f := LineageWeights(maxRetries, id).pending;
    var commands := Settle(maxRetries, tag, m, env).commands;
    if m.body.Envelope? && 0 <= Attempt(m) < maxRetries {
      CopyKeepsTheMessage(m);
      CopyHasOneLess(maxRetries, m);
    }
    if |commands| == 1 {
      TotalOne(f, commands[0]);
    } else if |commands| == 2 {
      assert commands == [commands[0]] + [commands[1]];
      TotalConcat(f, [commands[0]], [commands[1]]);
      TotalOne(f, commands[0]);
      TotalOne(f, commands[1]);
    }
  }

  /** A lost channel gives back unhandled deliveries at their worth, and handled ones at most K each. */
  lemma {:induction false} LostDeliveriesWeight(maxRetries: nat, id: nat, u: seq<Delivery>)
    ensures Total(RunsLeftOf(maxRetries, id), Messages(u))
      <= Total(LineageWeights(maxRetries, id).held, u) + Allowance(maxRetries + 1, SettledIds(u)[id])
  {
    if u != [] {
      LostDeliveriesWeight(maxRetries, id, u[1..]);
      assert Messages(u)[1..] == Messages(u[1..]);
      var n := SettledIds(u[1..])[id];
      assert SettledIds(u)[id] == n + (if u[0].settled && u[0].msg.id == id then 1 else 0);
      assert Allowance(maxRetries + 1, n + 1) == maxRetries + 1 + Allowance(maxRetries + 1, n);
    }
  }

  lemma StepWithinBudget(cfg: Config, s: State, a: Action, id: nat)
    requires ChansOk(s.chans) && Enabled(s, a)
    requires WithinBudget(cfg.maxRetries, s, id)
    ensures WithinBudget(cfg.maxRetries, Step(cfg, s, a), id)
  {
    match a
    case Enter(_) => EnterWithinBudget(cfg, s, a, id);
    case OpenChannel => OpenWithinBudget(cfg, s, a, id);
    case Deliver(_, _) => DeliverWithinBudget(cfg, s, a, id);
    case Process(_, _, _) => ProcessWithinBudget(cfg, s, a, id);
    case Execute(_) => ExecuteWithinBudget(cfg, s, a, id);
    case LoseChannel(_) => LossWithinBudget(cfg, s, a, id);
  }

  lemma OpenWithinBudget(cfg: Config, s: State, a: Action, id: nat)
    requires a.OpenChannel? && Enabled(s, a) && WithinBudget(cfg.maxRetries, s, id)
    ensures WithinBudget(cfg.maxRetries, Step(cfg, s, a), id)
  {
    var w := LineageWeights(cfg.maxRetries, id);
    TotalConcat(ChanWeight(w), s.chans, [Chan(0, [], [])]);
    TotalOne(ChanWeight(w), Chan(0, [], []));
  }

  lemma EnterWithinBudget(cfg: Config, s: State, a: Action, id: nat)
    requires a.Enter? && Enabled(s, a) && WithinBudget(cfg.maxRetries, s, id)
    ensures WithinBudget(cfg.maxRetries, Step(cfg, s, a), id)
  {
    var m := a.msg;
    var w := LineageWeights(cfg.maxRetries, id);
    TotalConcat(w.queued, s.ready, [m]);
    TotalOne(w.queued, m);
    assert Chances(Step(cfg, s, a), id) == Chances(s, id) + (if m.id == id then 1 else 0);
    AllowanceAdds(cfg.maxRetries + 1, Chances(s, id), 1);
    assert Allowance(cfg.maxRetries + 1, 1) == cfg.maxRetries + 1 + Allowance(cfg.maxRetries + 1, 0);
  }

  lemma DeliverWithinBudget(cfg: Config, s: State, a: Action, id: nat)
    requires a.Deliver? && Enabled(s, a) && WithinBudget(cfg.maxRetries, s, id)
    ensures WithinBudget(cfg.maxRetries, Step(cfg, s, a), id)
  {
    var Deliver(c, i) := a;
    var w := LineageWeights(cfg.maxRetries, id);
    TotalRemove(w.queued, s.ready, i);
    TakenWeight(w, s.chans[c], s.ready[i]);
    PotentialMoves(w, s, c, Taken(s.chans[c], s.ready[i]), []);
  }

  lemma ProcessMoves(cfg: Config, w: Weights, s: State, c: nat, d: nat, env: Env)
    requires Enabled(s, Process(c, d, env))
    ensures var dl := s.chans[c].unacked[d];
      Potential(w, Step(cfg, s, Process(c, d, env))) + w.held(dl)
      == Potential(w, s) + w.held(dl.(settled := true))
         + Total(w.pending, Settle(cfg.maxRetries, dl.tag, dl.msg, env).commands)
  {
    var dl := s.chans[c].unacked[d];
    var commands := Settle(cfg.maxRetries, dl.tag, dl.msg, env).commands;
    AppendedWeight(w, s.chans[c], d, commands);
    PotentialMoves(w, s, c, Appended(s.chans[c], d, commands), []);
    assert s.ready + [] == s.ready;
  }

  lemma ProcessWithinBudget(cfg: Config, s: State, a: Action, id: nat)
    requires a.Process? && Enabled(s, a) && WithinBudget(cfg.maxRetries, s, id)
    ensures WithinBudget(cfg.maxRetries, Step(cfg, s, a), id)
  {
    var Process(c, d, env) := a;
    var dl := s.chans[c].unacked[d];
    ProcessMoves(cfg, LineageWeights(cfg.maxRetries, id), s, c, d, env);
    SettleSpendsOne(cfg.maxRetries, dl.tag, dl.msg, env, id);
  }

  lemma LossMoves(cfg: Config, w: Weights, s: State, c: nat)
    requires Enabled(s, LoseChannel(c))
    ensures Potential(w, Step(cfg, s, LoseChannel(c))) + ChanWeight(w)(s.chans[c])
      == Potential(w, s) + Total(w.queued, Messages(s.chans[c].unacked))
  {
    var ch := s.chans[c];
    PotentialMoves(w, s, c, Chan(ch.nextTag, [], []), Messages(ch.unacked));
  }

  /** New chances pay for the potential they bring. */
  lemma ChancesPay(maxRetries: nat, s: State, t: State, id: nat, more: nat)
    requires WithinBudget(maxRetries, s, id) && t.runs == s.runs && Chances(t, id) == Chances(s, id) + more
    requires var w := LineageWeights(maxRetries, id);
      Potential(w, t) <= Potential(w, s) + Allowance(maxRetries + 1, more)
    ensures WithinBudget(maxRetries, t, id)
  {
    AllowanceAdds(maxRetries + 1, Chances(s, id), more);
  }

  lemma LossWithinBudget(cfg: Config, s: State, a: Action, id: nat)
    requires a.LoseChannel? && Enabled(s, a) && WithinBudget(cfg.maxRetries, s, id)
    ensures WithinBudget(cfg.maxRetries, Step(cfg, s, a), id)
  {
    var ch := s.chans[a.c];
    LostDeliveriesWeight(cfg.maxRetries, id, ch.unacked);
    LossMoves(cfg, LineageWeights(cfg.maxRetries, id), s, a.c);
    ChancesPay(cfg.maxRetries, s, Step(cfg, s, a), id, SettledIds(ch.unacked)[id]);
  }

  /** What executing a command adds to the queue. */
  function Requeued(s: State, c: nat): seq<Message>
    requires Enabled(s, Execute(c))
  {
    var head, u := s.chans[c].pipe[0], s.chans[c].unacked;
    if head.Publish? then [head.msg]
    else if head.Nack? && head.requeue && IndexOf(u, head.tag) < |u| then [u[IndexOf(u, head.tag)].msg]
    else []
  }

  lemma ExecuteMoves(cfg: Config, w: Weights, s: State, c: nat)
    requires ChansOk(s.chans) && Enabled(s, Execute(c))
    ensures var t := Step(cfg, s, Execute(c)); var ch := s.chans[c];
      && t.ready == s.ready + Requeued(s, c)
      && Potential(w, t) + w.pending(ch.pipe[0])
         + (if IsSettle(ch.pipe[0]) then w.held(ch.unacked[IndexOf(ch.unacked, ch.pipe[0].tag)]) else 0)
         == Potential(w, s) + Total(w.queued, Requeued(s, c))
  {
    ExecutedWeight(w, s.chans[c]);
    PotentialMoves(w, s, c, Executed(s.chans[c]), Requeued(s, c));
  }

  lemma ExecuteWithinBudget(cfg: Config, s: State, a: Action, id: nat)
    requires ChansOk(s.chans) && a.Execute? && Enabled(s, a) && WithinBudget(cfg.maxRetries, s, id)
    ensures WithinBudget(cfg.maxRetries, Step(cfg, s, a), id)
  {
    var c := a.c;
    var w := LineageWeights(cfg.maxRetries, id);
    var t := Step(cfg, s, a);
    ExecuteMoves(cfg, w, s, c);
    RequeuedIsPaidFor(cfg, s, c, id);
    assert Allowance(cfg.maxRetries + 1, 1) == cfg.maxRetries + 1 + Allowance(cfg.maxRetries + 1, 0);
    ChancesPay(cfg.maxRetries, s, t, id, Chances(t, id) - Chances(s, id));
  }

  /** A published copy takes its worth along; a requeued delivery is a new chance. */
  lemma RequeuedIsPaidFor(cfg: Config, s: State, c: nat, id: nat)
    requires ChansOk(s.chans) && Enabled(s, Execute(c))
    ensures var w := LineageWeights(cfg.maxRetries, id);
      var t := Step(cfg, s, Execute(c));
      var worth := Total(w.queued, Requeued(s, c));
      && t.runs == s.runs
      && (Chances(t, id) == Chances(s, id) || Chances(t, id) == Chances(s, id) + 1)
      && (Chances(t, id) == Chances(s, id) ==> worth <= w.pending(s.chans[c].pipe[0]))
      && worth <= w.pending(s.chans[c].pipe[0]) + cfg.maxRetries + 1
  {
    var w := LineageWeights(cfg.maxRetries, id);
    var back := Requeued(s, c);
    if back != [] {
      TotalOne(w.queued, back[0]);
      assert back == [back[0]];
    }
  }

  lemma {:induction false} RunsWithinBudget(cfg: Config, s: State, acts: seq<Action>, id: nat)
    requires ChansOk(s.chans) && WithinBudget(cfg.maxRetries, s, id)
    requires CanRun(cfg, s, acts)
    ensures WithinBudget(cfg.maxRetries, Run(cfg, s, acts), id)
    decreases |acts|
  {
    if acts != [] {
      StepChansOk(cfg, s, acts[0]);
      StepWithinBudget(cfg, s, acts[0], id);
      RunsWithinBudget(cfg, Step(cfg, s, acts[0]), acts[1..], id);
    }
  }

  /** Over every run, a message that entered E times causes at most (maxRetries + 1) * (E + R) handler
      runs over all its copies, where R counts deliveries put back after their handler was done. */
  lemma BoundedRedelivery(cfg: Config, acts: seq<Action>, id: nat)
    requires CanRun(cfg, INITIAL, acts)
    ensures var t := Run(cfg, INITIAL, acts); t.runs[id] <= (cfg.maxRetries + 1) * (t.entered[id] + t.putBacks[id])
  {
    InitialWithinBudget(cfg.maxRetries, id);
    RunsWithinBudget(cfg, INITIAL, acts, id);
    BudgetBoundsRuns(cfg.maxRetries, Run(cfg, INITIAL, acts), id);
  }

  lemma InitialWithinBudget(maxRetries: nat, id: nat)
    ensures WithinBudget(maxRetries, INITIAL, id)
  {
  }

  lemma BudgetBoundsRuns(maxRetries: nat, s: State, id: nat)
    requires WithinBudget(maxRetries, s, id)
    ensures s.runs[id] <= (maxRetries + 1) * (s.entered[id] + s.putBacks[id])
  {
    AllowanceIsProduct(maxRetries + 1, Chances(s, id));
  }

  // ---------------------------------------------------------------- retry counts

  const MIN_INT32 := -0x8000_0000

  predicate CountOk(lowest: int, maxRetries: nat, m: Message) { lowest <= Attempt(m) <= maxRetries }

  /** Republishing keeps counts at or above the lowest: no count can wrap, or wrapped counts are allowed. */
  predicate Fits(lowest: int, maxRetries: nat) {
    lowest <= MIN_INT32 || (lowest <= 0 && maxRetries <= MAX_INT32)
  }

  predicate CountsOkIn(lowest: int, maxRetries: nat, ch: Chan) {
    && (forall d :: d in ch.unacked ==> CountOk(lowest, maxRetries, d.msg))
    && (forall c :: c in ch.pipe && c.Publish? ==> CountOk(lowest, maxRetries, c.msg))
  }

  predicate CountsOk(lowest: int, maxRetries: nat, s: State) {
    && (forall m :: m in s.ready ==> CountOk(lowest, maxRetries, m))
    && ChansCountsOk(lowest, maxRetries, s.chans)
  }

  predicate EntersOk(maxRetries: nat, acts: seq<Action>) {
    forall a :: a in acts && a.Enter? ==> CountOk(0, maxRetries, a.msg)
  }

  lemma ProcessedCounts(lowest: int, cfg: Config, ch: Chan, d: nat, env: Env)
    requires Fits(lowest, cfg.maxRetries) && d < |ch.unacked| && CountsOkIn(lowest, cfg.maxRetries, ch)
    ensures CountsOkIn(lowest, cfg.maxRetries, Processed(cfg, ch, d, env))
  {
    var dl := ch.unacked[d];
    assert dl in ch.unacked;
    if dl.msg.body.Envelope? && 0 <= Attempt(dl.msg) {
      CopyKeepsTheMessage(dl.msg);
    }
  }

  lemma ExecutedCounts(lowest: int, maxRetries: nat, ch: Chan)
    requires ChanOk(ch) && ch.pipe != [] && CountsOkIn(lowest, maxRetries, ch)
    ensures CountsOkIn(lowest, maxRetries, Executed(ch))
  {
    assert ch.pipe == [ch.pipe[0]] + ch.pipe[1..];
    if IsSettle(ch.pipe[0]) {
      HeadIsKnown(ch);
      RemovedByTag(ch.unacked, IndexOf(ch.unacked, ch.pipe[0].tag));
    }
  }

  predicate ChansCountsOk(lowest: int, maxRetries: nat, chans: seq<Chan>) {
    forall c :: 0 <= c < |chans| ==> CountsOkIn(lowest, maxRetries, chans[c])
  }

  lemma UpdateChansCounts(lowest: int, maxRetries: nat, chans: seq<Chan>, c: nat, ch: Chan)
    requires c < |chans| && CountsOkIn(lowest, maxRetries, ch) && ChansCountsOk(lowest, maxRetries, chans)
    ensures ChansCountsOk(lowest, maxRetries, chans[c := ch])
  {
  }

  lemma StepCounts(lowest: int, cfg: Config, s: State, a: Action)
    requires Fits(lowest, cfg.maxRetries) && ChansOk(s.chans) && Enabled(s, a)
    requires a.Enter? ==> CountOk(lowest, cfg.maxRetries, a.msg)
    requires CountsOk(lowest, cfg.maxRetries, s)
    ensures CountsOk(lowest, cfg.maxRetries, Step(cfg, s, a))
  {
    match a
    case Enter(_) =>
    case OpenChannel =>
    case Deliver(c, i) =>
      UpdateChansCounts(lowest, cfg.maxRetries, s.chans, c, Taken(s.chans[c], s.ready[i]));
    case Process(c, d, env) =>
      ProcessedCounts(lowest, cfg, s.chans[c], d, env);
      UpdateChansCounts(lowest, cfg.maxRetries, s.chans, c, Processed(cfg, s.chans[c], d, env));
    case Execute(c) =>
      ExecutedCounts(lowest, cfg.maxRetries, s.chans[c]);
      UpdateChansCounts(lowest, cfg.maxRetries, s.chans, c, Executed(s.chans[c]));
      RequeuedCounts(lowest, cfg, s, c);
    case LoseChannel(c) =>
      UpdateChansCounts(lowest, cfg.maxRetries, s.chans, c, Chan(s.chans[c].nextTag, [], []));
      var ms := Messages(s.chans[c].unacked);
      forall m | m in ms ensures CountOk(lowest, cfg.maxRetries, m) {
        var k :| 0 <= k < |ms| && ms[k] == m;
        assert s.chans[c].unacked[k] in s.chans[c].unacked;
      }
  }

  lemma RequeuedCounts(lowest: int, cfg: Config, s: State, c: nat)
    requires ChansOk(s.chans) && Enabled(s, Execute(c)) && CountsOk(lowest, cfg.maxRetries, s)
    ensures forall m :: m in Step(cfg, s, Execute(c)).ready ==> CountOk(lowest, cfg.maxRetries, m)
  {
    var ch := s.chans[c];
    assert ch.pipe[0] in ch.pipe;
    forall m | m in Requeued(s, c) ensures CountOk(lowest, cfg.maxRetries, m) {
      if IsSettle(ch.pipe[0]) {
        assert ch.unacked[IndexOf(ch.unacked, ch.pipe[0].tag)] in ch.unacked;
      }
    }
    ExecuteMoves(cfg, DrainWeights(cfg.maxRetries), s, c);
  }

  /** If messages enter with counts from 0 to maxRetries, every copy keeps within the range. */
  lemma {:induction false} CountsStayInRange(lowest: int, cfg: Config, s: State, acts: seq<Action>)
    requires Fits(lowest, cfg.maxRetries) && ChansOk(s.chans) && CountsOk(lowest, cfg.maxRetries, s)
    requires CanRun(cfg, s, acts) && EntersOk(cfg.maxRetries, acts)
    ensures CountsOk(lowest, cfg.maxRetries, Run(cfg, s, acts))
    decreases |acts|
  {
    if acts != [] {
      StepChansOk(cfg, s, acts[0]);
      StepCounts(lowest, cfg, s, acts[0]);
      CountsStayInRange(lowest, cfg, Step(cfg, s, acts[0]), acts[1..]);
    }
  }

  /** No copy ever carries a count above maxRetries, for any limit. */
  lemma CountsNeverExceed(cfg: Config, acts: seq<Action>)
    requires CanRun(cfg, INITIAL, acts) && EntersOk(cfg.maxRetries, acts)
    ensures CountsOk(MIN_INT32, cfg.maxRetries, Run(cfg, INITIAL, acts))
  {
    CountsStayInRange(MIN_INT32, cfg, INITIAL, acts);
  }

  ghost predicate NeverWraps(cfg: Config) {
    forall acts :: CanRun(cfg, INITIAL, acts) && EntersOk(cfg.maxRetries, acts)
      ==> CountsOk(0, cfg.maxRetries, Run(cfg, INITIAL, acts))
  }

  /** Counts stay from 0 to maxRetries in every run, if and only if the limit fits in 32 bits. */
  lemma CountsInRangeIffFits(cfg: Config)
    ensures NeverWraps(cfg) <==> cfg.maxRetries <= MAX_INT32
  {
    if cfg.maxRetries <= MAX_INT32 {
      forall acts | CanRun(cfg, INITIAL, acts) && EntersOk(cfg.maxRetries, acts)
        ensures CountsOk(0, cfg.maxRetries, Run(cfg, INITIAL, acts))
      {
        CountsStayInRange(0, cfg, INITIAL, acts);
      }
    } else {
      var acts, t := WrapRun(cfg);
      assert !CountOk(0, cfg.maxRetries, t.chans[0].unacked[0].msg);
      assert t.chans[0].unacked[0] in t.chans[0].unacked;
    }
  }

  // ---------------------------------------------------------------- a count that wraps

  predicate Reaches(cfg: Config, acts: seq<Action>, t: State) {
    CanRun(cfg, INITIAL, acts) && Run(cfg, INITIAL, acts) == t
  }

  lemma {:induction false} RunSnoc(cfg: Config, s: State, acts: seq<Action>, a: Action)
    requires CanRun(cfg, s, acts) && Enabled(Run(cfg, s, acts), a)
    ensures CanRun(cfg, s, acts + [a]) && Run(cfg, s, acts + [a]) == Step(cfg, Run(cfg, s, acts), a)
    decreases |acts|
  {
    if acts == [] {
      RunFirst(cfg, s, a, []);
      assert acts + [a] == [a] + [];
    } else {
      RunSnoc(cfg, Step(cfg, s, acts[0]), acts[1..], a);
      assert (acts + [a])[1..] == acts[1..] + [a];
    }
  }

  lemma Then(cfg: Config, acts: seq<Action>, s: State, a: Action, t: State) returns (more: seq<Action>)
    requires Reaches(cfg, acts, s) && Enabled(s, a) && Step(cfg, s, a) == t
    ensures Reaches(cfg, more, t) && more == acts + [a]
  {
    RunSnoc(cfg, INITIAL, acts, a);
    more := acts + [a];
  }

  const RETRYING := Env(TransientFailure, false, Sent)

  /** A message that has been retried 2^31 - 1 times, and the copy that is made of it. */
  const LAST := Message(1, Envelope("", "order"), map[HEADER_RETRY_COUNT := Int32(MAX_INT32)])

  lemma LastWraps(maxRetries: nat)
    requires maxRetries > MAX_INT32
    ensures Attempt(LAST) == MAX_INT32 && Attempt(RetryCopy(LAST)) == MIN_INT32
    ensures Settle(maxRetries, 0, LAST, RETRYING).commands == [Publish(RetryCopy(LAST)), Ack(0)]
    ensures Settle(maxRetries, 1, RetryCopy(LAST), RETRYING).commands == []
  {
  }

  /** With a limit above 2^31 - 1 the count wraps, the handler fails once more, and the negative count stops
      the consumer: the delivery stays unsettled. */
  lemma WrapRun(cfg: Config) returns (acts: seq<Action>, t: State)
    requires cfg.maxRetries > MAX_INT32
    ensures Reaches(cfg, acts, t) && EntersOk(cfg.maxRetries, acts)
    ensures t.ready == [] && t.chans == [Chan(2, [Delivery(1, RetryCopy(LAST), true)], [])]
  {
    var copy := RetryCopy(LAST);
    LastWraps(cfg.maxRetries);
    var c1, c2 := Chan(1, [Delivery(0, LAST, false)], []), Chan(1, [Delivery(0, LAST, true)], [Publish(copy), Ack(0)]);
    var s := INITIAL.(ready := [LAST], entered := multiset{1});
    acts := Then(cfg, [], INITIAL, Enter(LAST), s);
    var s1 := s.(chans := [Chan(0, [], [])]);
    acts := Then(cfg, acts, s, OpenChannel, s1);
    var s2 := s1.(ready := [], chans := [c1]);
    assert Taken(s1.chans[0], LAST) == c1;
    acts := Then(cfg, acts, s1, Deliver(0, 0), s2);
    var s3 := s2.(chans := [c2], runs := multiset{1});
    ProcessedTo(cfg, c1, c2);
    acts := Then(cfg, acts, s2, Process(0, 0, RETRYING), s3);
    acts, t := WrapEnds(cfg, acts, s3);
  }

  lemma ProcessedTo(cfg: Config, ch: Chan, t: Chan)
    requires |ch.unacked| == 1 && t.nextTag == ch.nextTag && t.unacked == [ch.unacked[0].(settled := true)]
    requires t.pipe == ch.pipe + Settle(cfg.maxRetries, ch.unacked[0].tag, ch.unacked[0].msg, RETRYING).commands
    ensures Processed(cfg, ch, 0, RETRYING) == t
  {
    assert ch.unacked[0 := ch.unacked[0].(settled := true)] == t.unacked;
  }

  lemma WrapEnds(cfg: Config, acts: seq<Action>, s: State) returns (more: seq<Action>, t: State)
    requires cfg.maxRetries > MAX_INT32 && Reaches(cfg, acts, s) && EntersOk(cfg.maxRetries, acts)
    requires s.ready == [] && s.runs == multiset{1}
    requires s.chans == [Chan(1, [Delivery(0, LAST, true)], [Publish(RetryCopy(LAST)), Ack(0)])]
    ensures Reaches(cfg, more, t) && EntersOk(cfg.maxRetries, more)
    ensures t.ready == [] && t.chans == [Chan(2, [Delivery(1, RetryCopy(LAST), true)], [])]
  {
    var copy := RetryCopy(LAST);
    LastWraps(cfg.maxRetries);
    var c3, c4 := Chan(1, [Delivery(0, LAST, true)], [Ack(0)]), Chan(1, [], []);
    var s1 := s.(chans := [c3], ready := [copy]);
    assert Executed(s.chans[0]) == c3;
    more := Then(cfg, acts, s, Execute(0), s1);
    var s2 := s1.(chans := [c4]);
    assert IndexOf(c3.unacked, 0) == 0 && RemoveAt(c3.unacked, 0) == [];
    assert Executed(c3) == c4;
    more := Then(cfg, more, s1, Execute(0), s2);
    more, t := WrapSticks(cfg, more, s2);
  }

  lemma WrapSticks(cfg: Config, acts: seq<Action>, s: State) returns (more: seq<Action>, t: State)
    requires cfg.maxRetries > MAX_INT32 && Reaches(cfg, acts, s) && EntersOk(cfg.maxRetries, acts)
    requires s.ready == [RetryCopy(LAST)] && s.runs == multiset{1} && s.chans == [Chan(1, [], [])]
    ensures Reaches(cfg, more, t) && EntersOk(cfg.maxRetries, more)
    ensures t.ready == [] && t.chans == [Chan(2, [Delivery(1, RetryCopy(LAST), true)], [])]
  {
    var copy := RetryCopy(LAST);
    LastWraps(cfg.maxRetries);
    var c5, c6 := Chan(2, [Delivery(1, copy, false)], []), Chan(2, [Delivery(1, copy, true)], []);
    var s1 := s.(chans := [c5], ready := []);
    assert Taken(Chan(1, [], []), copy) == c5;
    more := Then(cfg, acts, s, Deliver(0, 0), s1);
    t := s1.(chans := [c6], runs := multiset{1, 1});
    ProcessedTo(cfg, c5, c6);
    more := Then(cfg, more, s1, Process(0, 0, RETRYING), t);
  }

  // ---------------------------------------------------------------- draining

  /** What a copy is worth while draining; a poison message still has to be dead-lettered. */
  function DrainWorth(maxRetries: nat, m: Message): (n: nat)
    ensures n >= 1
  {
    if m.body.Garbled? then 1 else RunsLeft(maxRetries, m)
  }

  function DrainWeights(maxRetries: nat): Weights {
    Weights((m: Message) => 5 * DrainWorth(maxRetries, m),
            (d: Delivery) => if d.settled then 0 else 5 * DrainWorth(maxRetries, d.msg) - 1,
            (c: Command) => if c.Publish? then 5 * DrainWorth(maxRetries, c.msg) + 1 else 1)
  }

  /** Steps of the broker and of an undisturbed consumer: no new message, no requeue, no lost channel. */
  predicate Quiet(s: State, a: Action)
    requires Enabled(s, a)
  {
    match a
    case Deliver(_, _) => true
    case Process(_, _, env) => !env.cancelledInDelay && env.republish.Sent?
    case Execute(c) => !(s.chans[c].pipe[0].Nack? && s.chans[c].pipe[0].requeue)
    case _ => false
  }

  predicate QuietRun(cfg: Config, s: State, acts: seq<Action>)
    decreases |acts|
  {
    acts == []
    || (Enabled(s, acts[0]) && Quiet(s, acts[0]) && QuietRun(cfg, Step(cfg, s, acts[0]), acts[1..]))
  }

  lemma QuietSettleCosts(maxRetries: nat, tag: nat, m: Message, env: Env)
    requires !env.cancelledInDelay && env.republish.Sent?
    ensures Total(DrainWeights(maxRetries).pending, Settle(maxRetries, tag, m, env).commands)
      < 5 * DrainWorth(maxRetries, m) - 1
  {
    var f := DrainWeights(maxRetries).pending;
    var commands := Settle(maxRetries, tag, m, env).commands;
    if m.body.Envelope? && 0 <= Attempt(m) < maxRetries {
      CopyKeepsTheMessage(m);
      CopyHasOneLess(maxRetries, m);
    }
    if |commands| == 1 {
      TotalOne(f, commands[0]);
    } else if |commands| == 2 {
      assert commands == [commands[0]] + [commands[1]];
      TotalConcat(f, [commands[0]], [commands[1]]);
      TotalOne(f, commands[0]);
      TotalOne(f, commands[1]);
    }
  }

  lemma QuietStepCosts(cfg: Config, s: State, a: Action)
    requires ChansOk(s.chans) && Enabled(s, a) && Quiet(s, a)
    ensures Potential(DrainWeights(cfg.maxRetries), Step(cfg, s, a)) < Potential(DrainWeights(cfg.maxRetries), s)
  {
    var w := DrainWeights(cfg.maxRetries);
    match a
    case Deliver(c, i) =>
      TotalRemove(w.queued, s.ready, i);
      TakenWeight(w, s.chans[c], s.ready[i]);
      PotentialMoves(w, s, c, Taken(s.chans[c], s.ready[i]), []);
    case Process(c, d, env) =>
      var dl := s.chans[c].unacked[d];
      AppendedWeight(w, s.chans[c], d, Settle(cfg.maxRetries, dl.tag, dl.msg, env).commands);
      QuietSettleCosts(cfg.maxRetries, dl.tag, dl.msg, env);
      PotentialMoves(w, s, c, Processed(cfg, s.chans[c], d, env), []);
    case Execute(c) =>
      ExecuteMoves(cfg, w, s, c);
      if Requeued(s, c) != [] {
        TotalOne(w.queued, Requeued(s, c)[0]);
        assert Requeued(s, c) == [Requeued(s, c)[0]];
      }
  }

  lemma {:induction false} QuietRunsAreShort(cfg: Config, s: State, acts: seq<Action>)
    requires ChansOk(s.chans) && QuietRun(cfg, s, acts)
    ensures CanRun(cfg, s, acts)
    ensures |acts| <= Potential(DrainWeights(cfg.maxRetries), s)
    decreases |acts|
  {
    if acts != [] {
      StepChansOk(cfg, s, acts[0]);
      QuietStepCosts(cfg, s, acts[0]);
      QuietRunsAreShort(cfg, Step(cfg, s, acts[0]), acts[1..]);
    }
  }

  ghost predicate Quiescent(s: State) {
    forall a :: !(Enabled(s, a) && Quiet(s, a))
  }

  predicate RequeuePending(s: State) {
    exists c :: 0 <= c < |s.chans| && exists q :: q in s.chans[c].pipe && q.Nack? && q.requeue
  }

  predicate Empty(s: State) {
    s.ready == [] && forall c :: 0 <= c < |s.chans| ==> s.chans[c].unacked == [] && s.chans[c].pipe == []
  }

  /** As long as anything is queued, held or pending, some quiet step is possible. */
  lemma QuiescentIsEmpty(cfg: Config, s: State)
    requires ChansOk(s.chans) && CountsOk(0, cfg.maxRetries, s) && s.chans != [] && !RequeuePending(s)
    ensures Quiescent(s) ==> Empty(s)
  {
    if s.ready != [] {
      assert Enabled(s, Deliver(0, 0)) && Quiet(s, Deliver(0, 0));
    } else if c :| 0 <= c < |s.chans| && (s.chans[c].unacked != [] || s.chans[c].pipe != []) {
      var ch := s.chans[c];
      if ch.pipe != [] {
        assert ch.pipe[0] in ch.pipe;
        assert Enabled(s, Execute(c)) && Quiet(s, Execute(c));
      } else {
        NothingPendingNothingSettled(cfg.maxRetries, ch);
        var env := Env(Handled, false, Sent);
        assert Enabled(s, Process(c, 0, env)) && Quiet(s, Process(c, 0, env));
      }
    }
  }

  lemma NothingPendingNothingSettled(maxRetries: nat, ch: Chan)
    requires ChanOk(ch) && CountsOkIn(0, maxRetries, ch) && ch.pipe == [] && ch.unacked != []
    ensures !ch.unacked[0].settled
  {
    assert ch.unacked[0] in ch.unacked;
    assert !HasSettle(ch.pipe, ch.unacked[0].tag);
  }

  /** Nothing is left anywhere, and each message was handled or is dead-lettered. */
  ghost predicate Drained(t: State) {
    Empty(t) && forall id :: id in t.entered ==> id in t.handled || id in t.dead
  }

  /** The consumer has a channel, no requeue is pending and no quiet step is left. */
  ghost predicate Settled(t: State) {
    Quiescent(t) && !RequeuePending(t) && t.chans != []
  }

  /** Wherever a quiet run settles, from any run before it, the queue is drained. */
  ghost predicate DrainsClean(cfg: Config) {
    forall before, quiet :: CanRun(cfg, INITIAL, before) && EntersOk(cfg.maxRetries, before)
      && QuietRun(cfg, Run(cfg, INITIAL, before), quiet) && CanRun(cfg, Run(cfg, INITIAL, before), quiet)
      && Settled(Run(cfg, Run(cfg, INITIAL, before), quiet))
      ==> Drained(Run(cfg, Run(cfg, INITIAL, before), quiet))
  }

  lemma SettledIsDrained(cfg: Config, before: seq<Action>, quiet: seq<Action>)
    requires cfg.deadLetters && cfg.maxRetries <= MAX_INT32
    requires CanRun(cfg, INITIAL, before) && EntersOk(cfg.maxRetries, before)
    requires QuietRun(cfg, Run(cfg, INITIAL, before), quiet) && CanRun(cfg, Run(cfg, INITIAL, before), quiet)
    ensures var t := Run(cfg, Run(cfg, INITIAL, before), quiet); Settled(t) ==> Drained(t)
  {
    var s := Run(cfg, INITIAL, before);
    RunsStaySafe(cfg, INITIAL, before);
    CountsStayInRange(0, cfg, INITIAL, before);
    QuietEnters(cfg, s, quiet);
    RunsStaySafe(cfg, s, quiet);
    CountsStayInRange(0, cfg, s, quiet);
    var t := Run(cfg, s, quiet);
    if Settled(t) {
      QuiescentIsEmpty(cfg, t);
      forall id | id in t.entered ensures id in t.handled || id in t.dead {
        SafeIsAccounted(t, id);
      }
    }
  }

  /** With no requeue and no lost channel, consuming a finite queue ends: a quiet run is no longer than the
      potential it starts from. */
  lemma DrainingTerminates(cfg: Config, before: seq<Action>, quiet: seq<Action>)
    requires CanRun(cfg, INITIAL, before) && QuietRun(cfg, Run(cfg, INITIAL, before), quiet)
    ensures var s := Run(cfg, INITIAL, before);
      CanRun(cfg, s, quiet) && |quiet| <= Potential(DrainWeights(cfg.maxRetries), s)
  {
    RunsKeepChansOk(cfg, INITIAL, before);
    QuietRunsAreShort(cfg, Run(cfg, INITIAL, before), quiet);
  }

  lemma {:induction false} RunsKeepChansOk(cfg: Config, s: State, acts: seq<Action>)
    requires ChansOk(s.chans) && CanRun(cfg, s, acts)
    ensures ChansOk(Run(cfg, s, acts).chans)
    decreases |acts|
  {
    if acts != [] {
      StepChansOk(cfg, s, acts[0]);
      RunsKeepChansOk(cfg, Step(cfg, s, acts[0]), acts[1..]);
    }
  }

  /** Where draining ends every message was handled or is dead-lettered, with nothing left anywhere else: if and
      only if the queue dead-letters and the retry limit fits in 32 bits. */
  lemma DrainsCleanIff(cfg: Config)
    ensures DrainsClean(cfg) <==> cfg.deadLetters && cfg.maxRetries <= MAX_INT32
  {
    if cfg.maxRetries > MAX_INT32 {
      var before, t := WrapRun(cfg);
      StuckRun(cfg, before, t);
      assert !Empty(t);
    } else if !cfg.deadLetters {
      var m := Message(7, Garbled("{not json"), map[]);
      var t := PoisonRuns(cfg, m);
      StuckRun(cfg, PoisonRun(m), t);
      assert 7 in t.entered && 7 !in t.handled && 7 !in t.dead;
    } else {
      forall before, quiet | CanRun(cfg, INITIAL, before) && EntersOk(cfg.maxRetries, before)
        && QuietRun(cfg, Run(cfg, INITIAL, before), quiet) && CanRun(cfg, Run(cfg, INITIAL, before), quiet)
        && Settled(Run(cfg, Run(cfg, INITIAL, before), quiet))
        ensures Drained(Run(cfg, Run(cfg, INITIAL, before), quiet))
      {
        SettledIsDrained(cfg, before, quiet);
      }
    }
  }

  /** A run that ends where no quiet step is left, without being drained. */
  lemma StuckRun(cfg: Config, before: seq<Action>, t: State)
    requires CanRun(cfg, INITIAL, before) && Run(cfg, INITIAL, before) == t && EntersOk(cfg.maxRetries, before)
    requires t.ready == [] && |t.chans| == 1 && t.chans[0].pipe == []
    requires forall d :: d in t.chans[0].unacked ==> d.settled
    ensures DrainsClean(cfg) ==> Drained(t)
  {
    assert QuietRun(cfg, t, []) && CanRun(cfg, t, []) && Run(cfg, t, []) == t;
    assert Settled(t);
  }

  lemma {:induction false} QuietEnters(cfg: Config, s: State, acts: seq<Action>)
    requires QuietRun(cfg, s, acts)
    ensures forall a :: a in acts ==> !a.Enter?
    decreases |acts|
  {
    if acts != [] {
      QuietEnters(cfg, Step(cfg, s, acts[0]), acts[1..]);
      assert acts == [acts[0]] + acts[1..];
    }
  }
}
