/** The RabbitMQ consumer: one delivery is settled by commands written to its channel, in order.
    `Consumer.HandleDelivery` follows the source statement by statement; `Settle` is what it is
    proved to do, and the broker model builds its runs from `Settle`. */
module RabbitConsumer {
  import opened Wrappers

  /** The dynamic types an AMQP header field can carry; anything else is `Text`. */
  datatype HeaderValue =
    | Int32(i32: int)
    | Int64(i64: int)
    | Int(i: int)
    | Float64(f: real)
    | Text(text: string)

  type Headers = map<string, HeaderValue>

  /** A body either decodes to an event envelope or does not. */
  datatype Body = Garbled(raw: string) | Envelope(traceId: string, payload: string)

  datatype Message = Message(id: nat, body: Body, headers: Headers)

  datatype Command = Publish(msg: Message) | Ack(tag: nat) | Nack(tag: nat, requeue: bool)

  datatype HandlerResult = Handled | PermanentFailure | TransientFailure

  /** How the republish call ends. An error can be reported after the frames already left. */
  datatype RepublishResult = Sent | FailedUnsent | FailedSent

  /** Everything the environment decides while one delivery is handled. */
  datatype Env = Env(handler: HandlerResult, cancelledInDelay: bool, republish: RepublishResult)

  /** The commands written for a delivery, and the counter increments. */
  datatype Effect = Effect(commands: seq<Command>, consumed: nat, failed: nat, dlq: nat, retried: nat, panicked: bool)

  const HEADER_RETRY_COUNT := "x-retry-count"
  const HEADER_TRACE_ID := "x-trace-id"
  const MAX_INT32 := 0x7fff_ffff

  /** Go's conversion to int32 keeps the low 32 bits. */
  function ToInt32(x: int): int {
    (x + 0x8000_0000) % 0x1_0000_0000 - 0x8000_0000
  }

  /** Go's conversion of a float to an int truncates toward zero. */
  function Truncate(r: real): int {
    if r >= 0.0 then r.Floor else -((-r).Floor)
  }

  function HeaderString(headers: Headers, key: string): string {
    if key in headers && headers[key].Text? then headers[key].text else ""
  }

  function HeaderRetryCount(headers: Headers): int {
    if HEADER_RETRY_COUNT !in headers then 0
    else match headers[HEADER_RETRY_COUNT]
      case Int32(v) => v
      case Int64(v) => v
      case Int(v) => v
      case Float64(r) => Truncate(r)
      case Text(_) => 0
  }

  function Attempt(m: Message): int {
    HeaderRetryCount(m.headers)
  }

  function TraceId(m: Message): string
    requires m.body.Envelope?
  {
    var t := HeaderString(m.headers, HEADER_TRACE_ID);
    if t == "" then m.body.traceId else t
  }

  /** The message republished after a transient failure. */
  function RetryCopy(m: Message): Message
    requires m.body.Envelope?
  {
    var counted := m.headers[HEADER_RETRY_COUNT := Int32(ToInt32(Attempt(m) + 1))];
    var t := TraceId(m);
    m.(headers := if t == "" then counted else counted[HEADER_TRACE_ID := Text(t)])
  }

  function Settle(maxRetries: nat, tag: nat, m: Message, env: Env): Effect {
    if m.body.Garbled? then Effect([Nack(tag, false)], 0, 1, 1, 0, false)
    else match env.handler
      case Handled => Effect([Ack(tag)], 1, 0, 0, 0, false)
      case PermanentFailure => Effect([Nack(tag, false)], 0, 1, 1, 0, false)
      case TransientFailure =>
        if Attempt(m) >= maxRetries then Effect([Nack(tag, false)], 0, 1, 1, 0, false)
        else if Attempt(m) < 0 then Effect([], 0, 0, 0, 1, true)
        else if env.cancelledInDelay then Effect([Nack(tag, true)], 0, 0, 0, 1, false)
        else match env.republish
          case Sent => Effect([Publish(RetryCopy(m)), Ack(tag)], 0, 0, 0, 1, false)
          case FailedUnsent => Effect([Nack(tag, true)], 0, 0, 0, 1, false)
          case FailedSent => Effect([Publish(RetryCopy(m)), Nack(tag, true)], 0, 0, 0, 1, false)
  }

  /** The command side of an AMQP channel: a FIFO of what has been written to it. */
  class Channel {
    var pipe: seq<Command>

    constructor ()
      ensures pipe == []
    {
      pipe := [];
    }

    method PublishRetry(m: Message, result: RepublishResult) returns (err: bool)
      modifies this
      ensures err == !result.Sent?
      ensures pipe == old(pipe) + (if result.FailedUnsent? then [] else [Publish(m)])
    {
      if !result.FailedUnsent? {
        pipe := pipe + [Publish(m)];
      }
      err := !result.Sent?;
    }

    method SendAck(tag: nat)
      modifies this
      ensures pipe == old(pipe) + [Ack(tag)]
    {
      pipe := pipe + [Ack(tag)];
    }

    method SendNack(tag: nat, requeue: bool)
      modifies this
      ensures pipe == old(pipe) + [Nack(tag, requeue)]
    {
      pipe := pipe + [Nack(tag, requeue)];
    }
  }

  /** What the select over the context and the delivery stream produces next. */
  datatype Event = Cancelled | Closed | Arrived(tag: nat, msg: Message, env: Env)

  datatype LoopEnd = Stopped | ChannelClosed | Panicked | Waiting

  predicate Panics(maxRetries: nat, e: Event) {
    e.Arrived? && Settle(maxRetries, e.tag, e.msg, e.env).panicked
  }

  function Commands(maxRetries: nat, e: Event): seq<Command> {
    if e.Arrived? then Settle(maxRetries, e.tag, e.msg, e.env).commands else []
  }

  /** The commands written for a list of deliveries. */
  function Written(maxRetries: nat, events: seq<Event>): seq<Command> {
    if events == [] then [] else Commands(maxRetries, events[0]) + Written(maxRetries, events[1..])
  }

  class Consumer {
    const maxRetries: nat
    var consumed: nat
    var failed: nat
    var dlq: nat
    var retried: nat

    constructor (configuredRetries: int)
      ensures maxRetries == if configuredRetries <= 0 then 3 else configuredRetries
      ensures consumed == failed == dlq == retried == 0
    {
      maxRetries := if configuredRetries <= 0 then 3 else configuredRetries;
      consumed, failed, dlq, retried := 0, 0, 0, 0;
    }

    method HandleDelivery(ch: Channel, tag: nat, msg: Message, env: Env) returns (panicked: bool)
      modifies this, ch
      ensures var e := Settle(maxRetries, tag, msg, env);
        && ch.pipe == old(ch.pipe) + e.commands
        && consumed == old(consumed) + e.consumed
        && failed == old(failed) + e.failed
        && dlq == old(dlq) + e.dlq
        && retried == old(retried) + e.retried
        && panicked == e.panicked
      ensures msg.body.Envelope? && env.handler.Handled? ==>
        ch.pipe == old(ch.pipe) + [Ack(tag)] && consumed == old(consumed) + 1
      ensures msg.body.Garbled? || env.handler.PermanentFailure? ==>
        ch.pipe == old(ch.pipe) + [Nack(tag, false)] && dlq == old(dlq) + 1
    {
      panicked := false;
      if msg.body.Garbled? {
        failed := failed + 1;
        ch.SendNack(tag, false);
        dlq := dlq + 1;
        return;
      }
      var traceId := HeaderString(msg.headers, HEADER_TRACE_ID);
      if traceId == "" {
        traceId := msg.body.traceId;
      }
      if env.handler.Handled? {
        ch.SendAck(tag);
        consumed := consumed + 1;
        return;
      }
      if env.handler.PermanentFailure? {
        failed := failed + 1;
        ch.SendNack(tag, false);
        dlq := dlq + 1;
        return;
      }
      var attempt := HeaderRetryCount(msg.headers);
      if attempt < maxRetries {
        retried := retried + 1;
        if attempt < 0 {
          return true; // a negative shift count stops the program
        }
        if env.cancelledInDelay {
          ch.SendNack(tag, true);
          return;
        }
        var headers := msg.headers;
        headers := headers[HEADER_RETRY_COUNT := Int32(ToInt32(attempt + 1))];
        if traceId != "" {
          headers := headers[HEADER_TRACE_ID := Text(traceId)];
        }
        var err := ch.PublishRetry(msg.(headers := headers), env.republish);
        if err {
          ch.SendNack(tag, true);
          return;
        }
        ch.SendAck(tag);
        return;
      }
      failed := failed + 1;
      ch.SendNack(tag, false);
      dlq := dlq + 1;
    }

    /** The deliveries counted so far: as consumed, as retried or as dead-lettered. */
    function Counted(): int
      reads this
    {
      consumed + retried + dlq
    }

    /** Failures that are not dead letters. */
    function Skew(): int
      reads this
    {
      failed - dlq
    }

    /** A delivery out of the stream is counted exactly once, and a failure is a dead letter. */
    method HandleNext(ch: Channel, e: Event) returns (panicked: bool)
      requires e.Arrived?
      modifies this, ch
      ensures ch.pipe == old(ch.pipe) + Commands(maxRetries, e)
      ensures Counted() == old(Counted()) + 1
      ensures Skew() == old(Skew())
      ensures panicked == Panics(maxRetries, e)
    {
      panicked := HandleDelivery(ch, e.tag, e.msg, e.env);
    }

    /** The loop handles deliveries up to a cancellation, a closed stream or a panic, writes their
        commands in order, and counts each once: as consumed, as retried or as dead-lettered. */
    method ConsumeLoop(ch: Channel, events: seq<Event>) returns (end: LoopEnd, deliveries: nat)
      modifies this, ch
      ensures deliveries <= |events|
      ensures forall i :: 0 <= i < deliveries ==> events[i].Arrived?
      ensures forall i :: 0 <= i < deliveries - 1 ==> !Panics(maxRetries, events[i])
      ensures ch.pipe == old(ch.pipe) + Written(maxRetries, events[..deliveries])
      ensures Counted() == old(Counted()) + deliveries
      ensures Skew() == old(Skew())
      ensures end ==
        if deliveries > 0 && Panics(maxRetries, events[deliveries - 1]) then Panicked
        else if deliveries == |events| then Waiting
        else if events[deliveries].Closed? then ChannelClosed
        else Stopped
      ensures end.Stopped? ==> events[deliveries].Cancelled?
    {
      deliveries := 0;
      ghost var before, counted, skew := ch.pipe, Counted(), Skew();
      while deliveries < |events|
        invariant 0 <= deliveries <= |events|
        invariant forall i :: 0 <= i < deliveries ==> events[i].Arrived? && !Panics(maxRetries, events[i])
        invariant ch.pipe == before + Written(maxRetries, events[..deliveries])
        invariant Counted() == counted + deliveries
        invariant Skew() == skew
      {
        var e := events[deliveries];
        if e.Cancelled? {
          return Stopped, deliveries;
        }
        if e.Closed? {
          return ChannelClosed, deliveries;
        }
        PipeGrows(before, maxRetries, events, deliveries);
        var panicked := HandleNext(ch, e);
        deliveries := deliveries + 1;
        if panicked {
          return Panicked, deliveries;
        }
      }
      end := Waiting;
    }
  }

  lemma PipeGrows(pipe: seq<Command>, maxRetries: nat, events: seq<Event>, n: nat)
    requires n < |events|
    ensures pipe + Written(maxRetries, events[..n]) + Commands(maxRetries, events[n])
      == pipe + Written(maxRetries, events[..n + 1])
  {
    WrittenSnoc(maxRetries, events[..n], events[n]);
    assert events[..n + 1] == events[..n] + [events[n]];
  }

  lemma {:induction false} WrittenSnoc(maxRetries: nat, events: seq<Event>, e: Event)
    ensures Written(maxRetries, events + [e]) == Written(maxRetries, events) + Commands(maxRetries, e)
  {
    if events == [] {
      assert events + [e] == [e];
      assert [e][1..] == [];
      assert Commands(maxRetries, e) + [] == [] + Commands(maxRetries, e);
    } else {
      assert (events + [e])[1..] == events[1..] + [e];
      WrittenSnoc(maxRetries, events[1..], e);
    }
  }

  // ---------------------------------------------------------------- what settling means

  predicate Settles(c: Command, tag: nat) {
    (c.Ack? || c.Nack?) && c.tag == tag
  }

  /** Exactly one Ack or Nack, for this delivery, and it is the last command: a copy is always
      written before the original is given up. Only a negative retry header settles nothing. */
  lemma SettledExactlyOnce(maxRetries: nat, tag: nat, m: Message, env: Env)
    ensures var e := Settle(maxRetries, tag, m, env);
      && (e.panicked <==> m.body.Envelope? && env.handler.TransientFailure? && Attempt(m) < 0)
      && (e.panicked ==> e.commands == [])
      && (!e.panicked ==>
            && e.commands != []
            && (forall i :: 0 <= i < |e.commands| ==>
                  (Settles(e.commands[i], tag) <==> i == |e.commands| - 1)
                  && (i < |e.commands| - 1 ==> e.commands[i].Publish?)))
      && (Ack(tag) in e.commands ==>
            (m.body.Envelope? && env.handler.Handled?)
            || (exists c :: c in e.commands && c.Publish? && c.msg.id == m.id && c.msg.body == m.body))
  {
    var e := Settle(maxRetries, tag, m, env);
    if m.body.Envelope? && env.handler.TransientFailure? && Ack(tag) in e.commands {
      assert e.commands[0] == Publish(RetryCopy(m));
    }
  }

  /** A delivery that is refused: it cannot be read, its handler refuses it for good, or it has failed as often
      as it may. */
  predicate Refused(maxRetries: nat, m: Message, env: Env) {
    || m.body.Garbled?
    || env.handler.PermanentFailure?
    || (env.handler.TransientFailure? && Attempt(m) >= maxRetries)
  }

  /** What each outcome comes to. A handled delivery is acknowledged and nothing else is. A refused one is
      rejected, and no other goes to the dead letters. One that may be retried goes back to the queue, by a copy or
      by being put back: a wait that is cut short and a republish that failed put it back, and it is acknowledged
      only when the copy is known to be there. Each is counted under its own name. */
  lemma SettledByOutcome(maxRetries: nat, tag: nat, m: Message, env: Env)
    ensures var e, cmds := Settle(maxRetries, tag, m, env), Settle(maxRetries, tag, m, env).commands;
      var retried := m.body.Envelope? && env.handler.TransientFailure? && Attempt(m) < maxRetries;
      var waited := retried && Attempt(m) >= 0 && !env.cancelledInDelay;
      && (cmds == [Ack(tag)] <==> m.body.Envelope? && env.handler.Handled?)
      && (Nack(tag, false) in cmds <==> Refused(maxRetries, m, env))
      && (Nack(tag, false) in cmds ==> cmds == [Nack(tag, false)])
      && (cmds == [Nack(tag, true)]
          <==> retried && Attempt(m) >= 0 && (env.cancelledInDelay || env.republish.FailedUnsent?))
      && (|cmds| == 2 <==> waited && !env.republish.FailedUnsent?)
      && (|cmds| == 2 ==>
            cmds == [Publish(RetryCopy(m)), if env.republish.Sent? then Ack(tag) else Nack(tag, true)])
      && e.consumed == (if m.body.Envelope? && env.handler.Handled? then 1 else 0)
      && e.failed == e.dlq == (if Refused(maxRetries, m, env) then 1 else 0)
      && e.retried == (if retried then 1 else 0)
  {
  }

  /** A count is read from any kind of number, a fraction toward zero; anything else reads as none. */
  lemma CountIsRead(h: Headers)
    ensures HEADER_RETRY_COUNT !in h || h[HEADER_RETRY_COUNT].Text? ==> HeaderRetryCount(h) == 0
    ensures HEADER_RETRY_COUNT in h ==>
      match h[HEADER_RETRY_COUNT]
      case Int32(v) => HeaderRetryCount(h) == v
      case Int64(v) => HeaderRetryCount(h) == v
      case Int(v) => HeaderRetryCount(h) == v
      case Float64(r) =>
        var n := HeaderRetryCount(h) as real;
        if r >= 0.0 then 0.0 <= n <= r < n + 1.0 else n - 1.0 < r <= n <= 0.0
      case Text(_) => true
  {
  }

  /** The republished copy is the same message: only the retry count changes, and the trace id is
      made explicit. Reading the count back gives one more, exactly while it fits in 32 bits. */
  lemma CopyKeepsTheMessage(m: Message)
    requires m.body.Envelope? && 0 <= Attempt(m)
    ensures RetryCopy(m).id == m.id && RetryCopy(m).body == m.body
    ensures forall k :: k != HEADER_RETRY_COUNT && k != HEADER_TRACE_ID ==>
      (k in RetryCopy(m).headers <==> k in m.headers)
      && (k in m.headers ==> RetryCopy(m).headers[k] == m.headers[k])
    ensures TraceId(RetryCopy(m)) == TraceId(m)
    ensures HeaderString(m.headers, HEADER_TRACE_ID) == "" && m.body.traceId != "" ==>
      HEADER_TRACE_ID in RetryCopy(m).headers && RetryCopy(m).headers[HEADER_TRACE_ID] == Text(m.body.traceId)
    ensures HEADER_TRACE_ID in m.headers && m.headers[HEADER_TRACE_ID].Text? && m.headers[HEADER_TRACE_ID].text != ""
      ==> HEADER_TRACE_ID in RetryCopy(m).headers
          && RetryCopy(m).headers[HEADER_TRACE_ID] == m.headers[HEADER_TRACE_ID]
    ensures HEADER_RETRY_COUNT in RetryCopy(m).headers && RetryCopy(m).headers[HEADER_RETRY_COUNT].Int32?
    ensures Attempt(RetryCopy(m)) == ToInt32(Attempt(m) + 1)
    ensures Attempt(RetryCopy(m)) == Attempt(m) + 1 <==> Attempt(m) < MAX_INT32
  {
    assert |HEADER_RETRY_COUNT| != |HEADER_TRACE_ID|;
  }

  // ---------------------------------------------------------------- queue arguments

  datatype QueueArguments = Stream | Quorum(deadLetterExchange: Option<string>, routingKey: Option<string>)

  const DLX_FANOUT := "delivery.dlx.fanout"
  const DLX_DIRECT := "delivery.dlx.direct"

  const STREAM_QUEUES: set<string> := {"analytics.events.queue", "realtime.broadcast.queue"}

  const DEAD_LETTER_QUEUES: set<string> := {
    "delivery.dlq.queue", "orders.dlq.queue", "payments.dlq.queue", "notifications.dlq.queue", "drivers.dlq.queue"
  }

  const QUEUE_DLQ: map<string, string> := map[
    "orders.created.queue" := "orders.dlq",
    "orders.status.queue" := "orders.dlq",
    "payments.authorized.queue" := "payments.dlq",
    "payments.failed.queue" := "payments.dlq",
    "payments.refunded.queue" := "payments.dlq",
    "notifications.email.queue" := "notifications.dlq",
    "notifications.sms.queue" := "notifications.dlq",
    "notifications.push.queue" := "notifications.dlq",
    "dispatch.requests.queue" := "drivers.dlq",
    "dispatch.responses.queue" := "drivers.dlq",
    "drivers.events.queue" := "drivers.dlq",
    "media.uploaded.queue" := "notifications.dlq",
    "media.processed.queue" := "notifications.dlq",
    "realtime.broadcast.queue" := "orders.dlq",
    "search.index.queue" := "orders.dlq",
    "users.created.queue" := "notifications.dlq",
    "users.updated.queue" := "notifications.dlq",
    "analytics.events.queue" := "notifications.dlq"
  ]

  function DefaultQueueArguments(queue: string): QueueArguments {
    if queue in STREAM_QUEUES then Stream
    else if queue in DEAD_LETTER_QUEUES then Quorum(None, None)
    else if queue in QUEUE_DLQ then Quorum(Some(DLX_DIRECT), Some(QUEUE_DLQ[queue]))
    else Quorum(Some(DLX_FANOUT), None)
  }

  predicate DeadLetters(queue: string) {
    var args := DefaultQueueArguments(queue);
    args.Quorum? && args.deadLetterExchange.Some?
  }

  /** Where each queue's rejected messages go: by the direct exchange to a dead-letter queue that exists, or, without a
      route of its own, by the fanout exchange. Dead-letter queues pass nothing on. */
  lemma RejectedGoesTo(queue: string)
    ensures var args := DefaultQueueArguments(queue);
      && (args.Stream? <==> queue in STREAM_QUEUES)
      && (args.Quorum? && queue in DEAD_LETTER_QUEUES ==> args.deadLetterExchange.None? && args.routingKey.None?)
      && (args.Quorum? && queue in QUEUE_DLQ ==>
            && args.deadLetterExchange == Some("delivery.dlx.direct") && args.routingKey.Some?
            && args.routingKey.value + ".queue" in DEAD_LETTER_QUEUES)
      && (args.Quorum? && queue !in DEAD_LETTER_QUEUES && queue !in QUEUE_DLQ ==>
            args.deadLetterExchange == Some("delivery.dlx.fanout") && args.routingKey.None?)
  {
    if queue in QUEUE_DLQ {
      RouteExists(QUEUE_DLQ[queue]);
    }
  }

  lemma RouteExists(key: string)
    requires key in {"orders.dlq", "payments.dlq", "notifications.dlq", "drivers.dlq"}
    ensures key + ".queue" in DEAD_LETTER_QUEUES
  {
    assert "orders.dlq" + ".queue" == "orders.dlq.queue";
    assert "payments.dlq" + ".queue" == "payments.dlq.queue";
    assert "notifications.dlq" + ".queue" == "notifications.dlq.queue";
    assert "drivers.dlq" + ".queue" == "drivers.dlq.queue";
  }
}
