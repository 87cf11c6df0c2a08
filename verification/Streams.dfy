/** The two streaming machines: events sent as they come (`create_sse_stream`), and events held
    back until the end (`create_buffered_sse_stream`). */
module Streams {
  import opened Wrappers
  import opened Json

  // ----- Around the machines -----

  datatype Event = Event(name: string, data: Value)

  datatype KiroEvent = KiroEvent(kind: string, payload: Value)

  /** What is done to a stream context; its behaviour may depend on everything done before. */
  datatype Op = Initial | Process(event: KiroEvent) | Final

  datatype Usage = Usage(input: int, output: int, cacheCreation: int, cacheRead: int, credits: real)

  /** The frame decoder and the stream context, as functions of what was done to them so far. */
  datatype World = World(
    decode: (seq<string>, string) -> seq<KiroEvent>,
    emit: (seq<Op>, Op) -> seq<Event>,
    resolved: seq<Op> -> Usage,
    toolJsonError: seq<Op> -> bool)

  /** What a machine is woken up by. */
  datatype Input = Chunk(bytes: string) | ReadError | End | Tick

  datatype Out = Ping | Sse(event: Event)

  datatype Status = Ok | Error | Interrupted

  datatype Conclusion = Conclusion(status: Status, sentBytes: Option<nat>)

  datatype Books = Books(records: seq<(Usage, Status)>, conclusions: seq<Conclusion>, commits: nat)

  const EMPTY_BOOKS := Books([], [], 0)

  function Wrap(events: seq<Event>): seq<Out> {
    seq(|events|, i requires 0 <= i < |events| => Sse(events[i]))
  }

  function Pings(n: nat): seq<Out> {
    seq(n, i => Ping)
  }

  /** All the events a context gives for a list of operations. */
  function EventsOf(world: World, ops: seq<Op>): seq<Event> {
    if ops == [] then []
    else EventsOf(world, ops[..|ops| - 1]) + world.emit(ops[..|ops| - 1], ops[|ops| - 1])
  }

  function Processing(events: seq<KiroEvent>): seq<Op> {
    seq(|events|, i requires 0 <= i < |events| => Process(events[i]))
  }

  /** The bookkeeping of a finished stream: one record, one conclusion, and a commit if and only
      if the upstream ended cleanly and no tool arguments were malformed. */
  function Concluded(world: World, ops: seq<Op>, ending: Input, sentBytes: nat): Books {
    var usage := world.resolved(ops);
    if ending == ReadError then Books([(usage, Error)], [Conclusion(Interrupted, Some(sentBytes))], 0)
    else if world.toolJsonError(ops) then Books([(usage, Error)], [Conclusion(Error, None)], 0)
    else Books([(usage, Ok)], [Conclusion(Ok, None)], 1)
  }

  // ----- The live stream -----

  datatype Live = Live(
    chunks: seq<string>,
    ops: seq<Op>,
    pending: Option<seq<Event>>,
    finished: bool,
    sentBytes: nat,
    books: Books)

  function LiveStart(world: World): Live {
    Live([], [Initial], Some(world.emit([], Initial)), false, 0, EMPTY_BOOKS)
  }

  /** The events for a list of upstream events, from the context `ops` on. */
  function Produced(world: World, ops: seq<Op>, events: seq<KiroEvent>): seq<Event> {
    if events == [] then []
    else
      var n := |events| - 1;
      Produced(world, ops, events[..n]) + world.emit(ops + Processing(events[..n]), Process(events[n]))
  }

  function LiveStep(world: World, s: Live, input: Input): (Live, seq<Out>) {
    if s.finished then (s, [])
    else
      match input
      case Tick => (s, if s.pending.None? then [Ping] else [])
      case Chunk(bytes) =>
        var events := world.decode(s.chunks, bytes);
        (s.(chunks := s.chunks + [bytes], ops := s.ops + Processing(events), pending := None,
            sentBytes := s.sentBytes + |bytes|),
         Wrap(s.pending.GetOr([]) + Produced(world, s.ops, events)))
      case _ =>
        var ops := s.ops + [Final];
        (s.(ops := ops, pending := None, finished := true, books := Concluded(world, ops, input, s.sentBytes)),
         Wrap(s.pending.GetOr([]) + world.emit(s.ops, Final)))
  }

  class LiveStream {
    const world: World
    var chunks: seq<string>
    var ops: seq<Op>
    var pending: Option<seq<Event>>
    var finished: bool
    var sentBytes: nat
    var records: seq<(Usage, Status)>
    var conclusions: seq<Conclusion>
    var commits: nat

    ghost function View(): Live
      reads this
    {
      Live(chunks, ops, pending, finished, sentBytes, Books(records, conclusions, commits))
    }

    ghost predicate Valid()
      reads this
    {
      !finished ==> View().books == EMPTY_BOOKS
    }

    constructor (world: World)
      ensures Valid() && this.world == world && View() == LiveStart(world)
    {
      this.world := world;
      chunks, ops, finished, sentBytes := [], [Initial], false, 0;
      pending := Some(world.emit([], Initial));
      records, conclusions, commits := [], [], 0;
    }

    /** `ctx.process_kiro_event` and its like: an operation on the context. */
    method Do(op: Op) returns (events: seq<Event>)
      modifies this`ops
      ensures ops == old(ops) + [op] && events == world.emit(old(ops), op)
    {
      events := world.emit(ops, op);
      ops := ops + [op];
    }

    method Conclude(status: Status, conclusion: Conclusion)
      modifies this`records, this`conclusions
      ensures records == old(records) + [(world.resolved(ops), status)]
      ensures conclusions == old(conclusions) + [conclusion]
      ensures old(records) == [] ==> records == [(world.resolved(ops), status)]
      ensures old(conclusions) == [] ==> conclusions == [conclusion]
    {
      records := records + [(world.resolved(ops), status)];
      conclusions := conclusions + [conclusion];
    }

    method TakeChunk(bytes: string) returns (events: seq<Event>)
      modifies this`chunks, this`ops, this`pending, this`sentBytes
      ensures chunks == old(chunks) + [bytes] && pending == None && sentBytes == old(sentBytes) + |bytes|
      ensures var decoded := world.decode(old(chunks), bytes);
              && ops == old(ops) + Processing(decoded)
              && events == old(pending).GetOr([]) + Produced(world, old(ops), decoded)
    {
      sentBytes := sentBytes + |bytes|;
      events := pending.GetOr([]);
      pending := None;
      var decoded := world.decode(chunks, bytes);
      chunks := chunks + [bytes];
      ghost var before := events;
      for i := 0 to |decoded|
        invariant chunks == old(chunks) + [bytes] && pending == None && sentBytes == old(sentBytes) + |bytes|
        invariant ops == old(ops) + Processing(decoded[..i])
        invariant events == before + Produced(world, old(ops), decoded[..i])
      {
        var more := Do(Process(decoded[i]));
        assert decoded[..i + 1][..i] == decoded[..i];
        events := events + more;
      }
      assert decoded[..|decoded|] == decoded;
    }

    method Step(input: Input) returns (out: seq<Out>)
      requires Valid()
      modifies this
      ensures Valid()
      ensures (View(), out) == LiveStep(world, old(View()), input)
    {
      hide Produced, Processing, Wrap;
      if finished {
        return [];
      }
      match input {
        case Chunk(bytes) =>
          var events := TakeChunk(bytes);
          out := Wrap(events);
        case ReadError =>
          var events := pending.GetOr([]);
          pending := None;
          var last := Do(Final);
          Conclude(Error, Conclusion(Interrupted, Some(sentBytes)));
          finished := true;
          out := Wrap(events + last);
        case End =>
          var events := pending.GetOr([]);
          pending := None;
          var last := Do(Final);
          if world.toolJsonError(ops) {
            Conclude(Error, Conclusion(Error, None));
          } else {
            Conclude(Ok, Conclusion(Ok, None));
            commits := commits + 1;
          }
          finished := true;
          out := Wrap(events + last);
        case Tick =>
          out := if pending.None? then [Ping] else [];
      }
    }
  }

  // ----- The buffered stream -----

  datatype Buffered = Buffered(
    chunks: seq<string>,
    ops: seq<Op>,
    buffer: seq<Event>,
    initialGenerated: bool,
    finished: bool,
    firstChunkSeen: bool,
    sentBytes: nat,
    books: Books)

  const BUFFERED_START := Buffered([], [], [], false, false, false, 0, EMPTY_BOOKS)

  /** `usage["..."] = ...` on an event's usage. */
  function CorrectedUsage(usage: Value, u: Usage): Value {
    if usage.Obj? || usage.Null? then
      Obj((if usage.Obj? then usage.fields else map[])
          ["input_tokens" := Int(u.input)]
          ["cache_creation_input_tokens" := Int(u.cacheCreation)]
          ["cache_read_input_tokens" := Int(u.cacheRead)])
    else usage
  }

  /** A `message_start` that carries usage gets the final figures; other events stay. */
  function Corrected(e: Event, u: Usage): Event {
    var message := Get(e.data, "message");
    if e.name == "message_start" && message.Some? && Get(message.value, "usage").Some? then
      var usage := CorrectedUsage(message.value.fields["usage"], u);
      e.(data := Obj(e.data.fields["message" := Obj(message.value.fields["usage" := usage])]))
    else e
  }

  function CorrectedAll(events: seq<Event>, u: Usage): seq<Event> {
    seq(|events|, i requires 0 <= i < |events| => Corrected(events[i], u))
  }

  function UsageOf(e: Event): Option<Value> {
    match Get(e.data, "message")
    case Some(message) => Get(message, "usage")
    case None => None
  }

  /** A start message with a usage object tells the final figures, each under its name, and all else as before; every
      other event stays as it is. */
  lemma StartTellsFinalUsage(e: Event, u: Usage, k: string)
    ensures e.name != "message_start" ==> Corrected(e, u) == e
    ensures e.name == "message_start" && UsageOf(e).Some? && UsageOf(e).value.Obj? ==>
              var usage := UsageOf(Corrected(e, u));
              && usage.Some?
              && Get(usage.value, k) ==
                 (match k
                  case "input_tokens" => Some(Int(u.input))
                  case "cache_creation_input_tokens" => Some(Int(u.cacheCreation))
                  case "cache_read_input_tokens" => Some(Int(u.cacheRead))
                  case _ => Get(UsageOf(e).value, k))
              && (k != "message" ==> Get(Corrected(e, u).data, k) == Get(e.data, k))
              && (k != "usage" ==>
                    Get(Get(Corrected(e, u).data, "message").value, k) == Get(Get(e.data, "message").value, k))
  {
  }

  /** The initial operation, unless it was done already. */
  function Opened(ops: seq<Op>): seq<Op> {
    if ops == [] then [Initial] else ops
  }

  function BufferedStep(world: World, s: Buffered, input: Input): (Buffered, seq<Out>) {
    if s.finished then (s, [])
    else
      match input
      case Tick => (s, if s.firstChunkSeen then [Ping] else [])
      case Chunk(bytes) =>
        var events := world.decode(s.chunks, bytes);
        var ops := if events == [] then s.ops else Opened(s.ops) + Processing(events);
        (s.(chunks := s.chunks + [bytes], ops := ops, buffer := EventsOf(world, ops), initialGenerated := ops != [],
            firstChunkSeen := true, sentBytes := s.sentBytes + |bytes|),
         if s.firstChunkSeen then [] else [Ping])
      case _ =>
        var ops := Opened(s.ops) + [Final];
        (s.(ops := ops, buffer := [], initialGenerated := true, finished := true,
            books := Concluded(world, ops, input, s.sentBytes)),
         Wrap(CorrectedAll(EventsOf(world, ops), world.resolved(Opened(s.ops)))))
  }

  lemma ProcessingSnoc(before: seq<Op>, events: seq<KiroEvent>, i: nat)
    requires i < |events|
    ensures before + Processing(events[..i + 1]) == before + Processing(events[..i]) + [Process(events[i])]
    ensures before + Processing(events[..0]) == before
  {
    assert Processing(events[..i + 1]) == Processing(events[..i]) + [Process(events[i])];
  }

  class BufferedStream {
    const world: World
    var chunks: seq<string>
    var ops: seq<Op>
    var buffer: seq<Event>
    var initialGenerated: bool
    var finished: bool
    var firstChunkSeen: bool
    var sentBytes: nat
    var records: seq<(Usage, Status)>
    var conclusions: seq<Conclusion>
    var commits: nat

    ghost function View(): Buffered
      reads this
    {
      Buffered(chunks, ops, buffer, initialGenerated, finished, firstChunkSeen, sentBytes,
               Books(records, conclusions, commits))
    }

    ghost predicate Valid()
      reads this
    {
      && initialGenerated == (ops != [])
      && (!finished ==> View().books == EMPTY_BOOKS && buffer == EventsOf(world, ops))
    }

    constructor (world: World)
      ensures Valid() && this.world == world && View() == BUFFERED_START
    {
      this.world := world;
      chunks, ops, buffer, initialGenerated, finished, firstChunkSeen, sentBytes := [], [], [], false, false, false, 0;
      records, conclusions, commits := [], [], 0;
    }

    method Buffer(op: Op)
      modifies this`ops, this`buffer
      ensures ops == old(ops) + [op]
      ensures old(buffer) == EventsOf(world, old(ops)) ==> buffer == EventsOf(world, ops)
    {
      buffer := buffer + world.emit(ops, op);
      ops := ops + [op];
      assert ops[..|ops| - 1] == old(ops);
    }

    method OpenOnce()
      requires initialGenerated == (ops != []) && buffer == EventsOf(world, ops)
      modifies this`ops, this`buffer, this`initialGenerated
      ensures initialGenerated && ops == Opened(old(ops)) && buffer == EventsOf(world, ops)
    {
      if !initialGenerated {
        Buffer(Initial);
        initialGenerated := true;
      }
    }

    /** `process_and_buffer`. */
    method ProcessAndBuffer(event: KiroEvent)
      requires initialGenerated == (ops != []) && buffer == EventsOf(world, ops)
      modifies this`ops, this`buffer, this`initialGenerated
      ensures initialGenerated && buffer == EventsOf(world, ops)
      ensures ops == Opened(old(ops)) + [Process(event)]
    {
      OpenOnce();
      Buffer(Process(event));
    }

    method BufferAll(decoded: seq<KiroEvent>)
      requires initialGenerated == (ops != []) && buffer == EventsOf(world, ops)
      modifies this`ops, this`buffer, this`initialGenerated
      ensures initialGenerated == (ops != []) && buffer == EventsOf(world, ops)
      ensures ops == if decoded == [] then old(ops) else Opened(old(ops)) + Processing(decoded)
    {
      for i := 0 to |decoded|
        invariant initialGenerated == (ops != []) && buffer == EventsOf(world, ops)
        invariant ops == if i == 0 then old(ops) else Opened(old(ops)) + Processing(decoded[..i])
      {
        ProcessAndBuffer(decoded[i]);
        ProcessingSnoc(Opened(old(ops)), decoded, i);
      }
      assert decoded[..|decoded|] == decoded;
    }

    method TakeChunk(bytes: string)
      requires initialGenerated == (ops != []) && buffer == EventsOf(world, ops)
      modifies this`chunks, this`ops, this`buffer, this`initialGenerated, this`sentBytes
      ensures initialGenerated == (ops != []) && buffer == EventsOf(world, ops)
      ensures chunks == old(chunks) + [bytes] && sentBytes == old(sentBytes) + |bytes|
      ensures var decoded := world.decode(old(chunks), bytes);
              ops == if decoded == [] then old(ops) else Opened(old(ops)) + Processing(decoded)
    {
      sentBytes := sentBytes + |bytes|;
      var decoded := world.decode(chunks, bytes);
      chunks := chunks + [bytes];
      BufferAll(decoded);
    }

    /** `finish_and_get_all_events`: everything at once, with the final usage. */
    method Finish() returns (events: seq<Event>)
      requires initialGenerated == (ops != []) && buffer == EventsOf(world, ops)
      modifies this`ops, this`buffer, this`initialGenerated
      ensures initialGenerated && buffer == [] && ops == Opened(old(ops)) + [Final]
      ensures events == CorrectedAll(EventsOf(world, ops), world.resolved(Opened(old(ops))))
    {
      OpenOnce();
      var usage := world.resolved(ops);
      Buffer(Final);
      events := [];
      for i := 0 to |buffer|
        invariant events == CorrectedAll(buffer, usage)[..i]
      {
        events := events + [Corrected(buffer[i], usage)];
      }
      buffer := [];
    }

    method Conclude(status: Status, conclusion: Conclusion)
      modifies this`records, this`conclusions
      ensures records == old(records) + [(world.resolved(ops), status)]
      ensures conclusions == old(conclusions) + [conclusion]
      ensures old(records) == [] ==> records == [(world.resolved(ops), status)]
      ensures old(conclusions) == [] ==> conclusions == [conclusion]
    {
      records := records + [(world.resolved(ops), status)];
      conclusions := conclusions + [conclusion];
    }

    method Terminate(input: Input) returns (out: seq<Out>)
      requires Valid() && !finished && (input.ReadError? || input.End?)
      modifies this
      ensures Valid()
      ensures (View(), out) == BufferedStep(world, old(View()), input)
    {
      hide EventsOf, CorrectedAll, Concluded, Opened, Wrap;
      var events := Finish();
      Book(input);
      finished := true;
      out := Wrap(events);
    }

    method Book(ending: Input)
      requires records == [] && conclusions == [] && commits == 0 && (ending.ReadError? || ending.End?)
      modifies this`records, this`conclusions, this`commits
      ensures Books(records, conclusions, commits) == Concluded(world, ops, ending, sentBytes)
    {
      if ending.ReadError? {
        Conclude(Error, Conclusion(Interrupted, Some(sentBytes)));
      } else if world.toolJsonError(ops) {
        Conclude(Error, Conclusion(Error, None));
      } else {
        Conclude(Ok, Conclusion(Ok, None));
        commits := commits + 1;
      }
    }

    method Step(input: Input) returns (out: seq<Out>)
      requires Valid()
      modifies this
      ensures Valid()
      ensures (View(), out) == BufferedStep(world, old(View()), input)
    {
      hide EventsOf, CorrectedAll, Concluded, Opened, Processing, Wrap;
      if finished {
        return [];
      }
      match input {
        case Tick =>
          out := if firstChunkSeen then [Ping] else [];
        case Chunk(bytes) =>
          TakeChunk(bytes);
          out := [];
          if !firstChunkSeen {
            firstChunkSeen := true;
            out := [Ping];
          }
        case _ =>
          out := Terminate(input);
      }
    }
  }
}
