/** The Kafka consumer: each fetched message is tried several times, then sent to a dead-letter topic, and its
    offset is committed in either case. One partition; offsets are positions in its log. */
module KafkaConsumer {
  import opened Wrappers

  datatype HandlerResult = Success | Failure(error: string) | Permanent(error: string)

  /** Why processing was given up: the error that the consumer passes on. */
  datatype Reason = PermanentError(error: string) | Exhausted(retries: nat, error: string) | ContextDone

  datatype HeaderValue = Raw(bytes: string) | ReasonText(reason: Reason)

  datatype Header = Header(key: string, value: HeaderValue)

  datatype Message = Message(key: string, value: string, headers: seq<Header>)

  const REASON_HEADER := "x-dlq-reason"

  /** What the handler answers at each attempt on a message, and before which attempts the context is found
      to be done during the wait. */
  datatype Script = Script(results: nat -> HandlerResult, cancelled: nat -> bool)

  /** `reason` is absent if the handler succeeded. */
  datatype Verdict = Verdict(reason: Option<Reason>, calls: nat)

  datatype Config = Config(maxRetries: nat, hasDlq: bool)

  function NewConfig(maxRetries: int, hasDlq: bool): Config {
    Config(if maxRetries <= 0 then 3 else maxRetries, hasDlq)
  }

  // ---------------------------------------------------------------- processing one message

  /** Attempts from number k on. */
  function Process(c: Config, s: Script, k: nat): Verdict
    requires k <= c.maxRetries
    decreases c.maxRetries - k
  {
    if k > 0 && s.cancelled(k) then Verdict(Some(ContextDone), k)
    else match s.results(k)
      case Success => Verdict(None, k + 1)
      case Permanent(e) => Verdict(Some(PermanentError(e)), k + 1)
      case Failure(e) =>
        if k < c.maxRetries then Process(c, s, k + 1) else Verdict(Some(Exhausted(c.maxRetries, e)), k + 1)
  }

  /** The verdict is decided by the first attempt that does not simply fail, or by the first wait that is cut
      short, or by running out of retries. */
  lemma {:induction false} ProcessStopsAtFirst(c: Config, s: Script, k: nat)
    requires k <= c.maxRetries && !(k > 0 && s.cancelled(k))
    ensures var v := Process(c, s, k);
      && k < v.calls <= c.maxRetries + 1
      && (forall j :: k <= j < v.calls - 1 ==> s.results(j).Failure?)
      && (forall j :: k < j < v.calls ==> !s.cancelled(j))
      && (s.results(v.calls - 1).Failure? && v.calls <= c.maxRetries ==> s.cancelled(v.calls))
      && (v.reason == None <==> s.results(v.calls - 1).Success?)
      && (forall e :: (v.reason == Some(PermanentError(e)) <==> s.results(v.calls - 1) == Permanent(e)))
      && (v.reason == Some(ContextDone)
          <==> s.results(v.calls - 1).Failure? && v.calls <= c.maxRetries && s.cancelled(v.calls))
      && (forall e :: (v.reason == Some(Exhausted(c.maxRetries, e))
                       <==> v.calls == c.maxRetries + 1 && s.results(c.maxRetries) == Failure(e)))
    decreases c.maxRetries - k
  {
    if s.results(k).Failure? && k < c.maxRetries && !s.cancelled(k + 1) {
      ProcessStopsAtFirst(c, s, k + 1);
    }
  }

  /** The record of a failed message on the dead-letter topic. */
  function DeadLetter(m: Message, reason: Reason): Message {
    Message(m.key, m.value, m.headers + [Header(REASON_HEADER, ReasonText(reason))])
  }

  /** `record` is the message with the reason added: the key, the value and the headers are its own. */
  predicate RecordOf(m: Message, reason: Reason, record: Message) {
    && record.key == m.key && record.value == m.value
    && record.headers == m.headers + [Header("x-dlq-reason", ReasonText(reason))]
  }

  // ---------------------------------------------------------------- the consumer

  class Reader {
    const log: seq<Message>
    var position: nat
    var committed: nat

    constructor (log: seq<Message>, committed: nat)
      ensures this.log == log && this.position == committed && this.committed == committed
    {
      this.log := log;
      this.position, this.committed := committed, committed;
    }

    method Fetch() returns (m: Message)
      requires position < |log|
      modifies this`position
      ensures m == log[old(position)] && position == old(position) + 1
    {
      m := log[position];
      position := position + 1;
    }

    /** `effective` is false if the commit fails. */
    method Commit(offset: nat, effective: bool)
      modifies this`committed
      ensures committed == if effective then offset + 1 else old(committed)
    {
      if effective {
        committed := offset + 1;
      }
    }
  }

  class Topic {
    var records: seq<Message>

    constructor ()
      ensures records == []
    {
      records := [];
    }

    method Write(m: Message, written: bool)
      modifies this
      ensures records == if written then old(records) + [m] else old(records)
    {
      if written {
        records := records + [m];
      }
    }
  }

  /** What a fetch yields to the loop: the context is done, a passing coordinator state (during which the
      context may end), another error, or a message with all that happens to it. */
  datatype Event =
    | Stop
    | Transient(done: bool)
    | FetchError
    | Delivery(script: Script, written: bool, committed: bool)

  datatype View = View(position: nat, committed: nat, dlq: seq<Message>)

  function AfterMessage(c: Config, log: seq<Message>, v: View, e: Event): View
    requires e.Delivery? && v.position < |log|
  {
    var reason := Process(c, e.script, 0).reason;
    var dead := if reason.Some? && c.hasDlq && e.written then [DeadLetter(log[v.position], reason.value)] else [];
    View(v.position + 1, if e.committed then v.position + 1 else v.committed, v.dlq + dead)
  }

  predicate Stops(e: Event) {
    e == Stop || e == Transient(true)
  }

  /** There is a message for each delivery. */
  predicate Feeds(log: seq<Message>, position: nat, events: seq<Event>)
    decreases |events|
  {
    events == [] || Stops(events[0])
    || (if events[0].Delivery? then position < |log| && Feeds(log, position + 1, events[1..])
        else Feeds(log, position, events[1..]))
  }

  function AfterEvents(c: Config, log: seq<Message>, v: View, events: seq<Event>): View
    requires Feeds(log, v.position, events)
    decreases |events|
  {
    if events == [] || Stops(events[0]) then v
    else if events[0].Delivery? then AfterEvents(c, log, AfterMessage(c, log, v, events[0]), events[1..])
    else AfterEvents(c, log, v, events[1..])
  }

  class Consumer {
    const reader: Reader
    const dlqProducer: Topic?
    const maxRetries: nat

    constructor (reader: Reader, maxRetries: int, dlq: Topic?)
      ensures this.reader == reader && dlqProducer == dlq
      ensures Configured() == NewConfig(maxRetries, dlq != null)
      ensures this.maxRetries == if maxRetries <= 0 then 3 else maxRetries
    {
      this.reader := reader;
      this.maxRetries := if maxRetries <= 0 then 3 else maxRetries;
      this.dlqProducer := dlq;
    }

    function Configured(): Config {
      Config(maxRetries, dlqProducer != null)
    }

    function Now(): View
      reads reader, if dlqProducer == null then {} else {dlqProducer}
    {
      View(reader.position, reader.committed, if dlqProducer == null then [] else dlqProducer.records)
    }

    method ProcessWithRetry(s: Script) returns (v: Verdict)
      ensures v == Process(Configured(), s, 0)
    {
      var attempt, last := 0, "";
      while attempt <= maxRetries
        invariant attempt <= maxRetries ==> Process(Configured(), s, 0) == Process(Configured(), s, attempt)
        invariant attempt == maxRetries + 1 ==>
          Process(Configured(), s, 0) == Verdict(Some(Exhausted(maxRetries, last)), attempt)
        invariant attempt <= maxRetries + 1
      {
        if attempt > 0 {
          if s.cancelled(attempt) {
            return Verdict(Some(ContextDone), attempt);
          }
        }
        match s.results(attempt) {
          case Success => return Verdict(None, attempt + 1);
          case Permanent(e) => return Verdict(Some(PermanentError(e)), attempt + 1);
          case Failure(e) => last := e;
        }
        attempt := attempt + 1;
      }
      v := Verdict(Some(Exhausted(maxRetries, last)), attempt);
    }

    method RouteToDLQ(m: Message, reason: Reason, written: bool)
      modifies if dlqProducer == null then {} else {dlqProducer}
      ensures dlqProducer != null ==>
        dlqProducer.records == old(dlqProducer.records) + if written then [DeadLetter(m, reason)] else []
      ensures dlqProducer != null && written ==>
        RecordOf(m, reason, dlqProducer.records[|dlqProducer.records| - 1])
    {
      if dlqProducer == null {
        return;
      }
      var headers := m.headers + [Header(REASON_HEADER, ReasonText(reason))];
      dlqProducer.Write(Message(m.key, m.value, headers), written);
    }

    method Run(events: seq<Event>)
      requires Feeds(reader.log, reader.position, events)
      modifies reader, if dlqProducer == null then {} else {dlqProducer}
      ensures Now() == AfterEvents(Configured(), reader.log, old(Now()), events)
    {
      var i := 0;
      while i < |events|
        invariant i <= |events|
        invariant Feeds(reader.log, reader.position, events[i..])
        invariant AfterEvents(Configured(), reader.log, old(Now()), events)
          == AfterEvents(Configured(), reader.log, Now(), events[i..])
      {
        assert events[i..][1..] == events[i + 1..];
        match events[i] {
          case Stop => return;
          case Transient(done) => if done { return; }
          case FetchError =>
          case Delivery(script, written, committed) => HandleOne(events[i]);
        }
        i := i + 1;
      }
    }

    /** One round of the loop, for a fetched message. */
    method HandleOne(e: Event)
      requires e.Delivery? && reader.position < |reader.log|
      modifies reader, if dlqProducer == null then {} else {dlqProducer}
      ensures Now() == AfterMessage(Configured(), reader.log, old(Now()), e)
      ensures reader.position == old(reader.position) + 1
      ensures reader.committed == if e.committed then reader.position else old(reader.committed)
    {
      var offset := reader.position;
      var m := reader.Fetch();
      var v := ProcessWithRetry(e.script);
      if v.reason.Some? {
        RouteToDLQ(m, v.reason.value, e.written);
      }
      reader.Commit(offset, e.committed);
    }
  }
}
