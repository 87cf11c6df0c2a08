/** Whole runs of the two streaming machines, over every schedule of chunks, ticks, read errors
    and ends. */
module StreamRuns {
  import opened Wrappers
  import opened Streams

  // ----- What a schedule amounts to, ticks aside -----

  /** The chunks before the read error or end that finishes a stream, and that ending. */
  datatype Heard = Heard(chunks: seq<string>, ending: Option<Input>)

  function Hears(h: Heard, input: Input): Heard {
    if h.ending.Some? then h
    else
      match input
      case Tick => h
      case Chunk(bytes) => h.(chunks := h.chunks + [bytes])
      case _ => h.(ending := Some(input))
  }

  function HeardIn(inputs: seq<Input>): Heard {
    if inputs == [] then Heard([], None)
    else Hears(HeardIn(inputs[..|inputs| - 1]), inputs[|inputs| - 1])
  }

  function TotalLength(chunks: seq<string>): nat {
    if chunks == [] then 0 else TotalLength(chunks[..|chunks| - 1]) + |chunks[|chunks| - 1]|
  }

  /** The upstream events the chunks decode to. */
  function Decoded(world: World, chunks: seq<string>): seq<KiroEvent> {
    if chunks == [] then []
    else
      var n := |chunks| - 1;
      Decoded(world, chunks[..n]) + world.decode(chunks[..n], chunks[n])
  }

  /** The context's history before and at the end of a stream. */
  function OpsSoFar(world: World, chunks: seq<string>): seq<Op> {
    [Initial] + Processing(Decoded(world, chunks))
  }

  function FullOps(world: World, chunks: seq<string>): seq<Op> {
    OpsSoFar(world, chunks) + [Final]
  }

  function BooksAt(world: World, h: Heard): Books {
    if h.ending.None? then EMPTY_BOOKS
    else Concluded(world, FullOps(world, h.chunks), h.ending.value, TotalLength(h.chunks))
  }

  /** Nothing has come from the upstream yet. */
  predicate Quiet(h: Heard) {
    h.chunks == [] && h.ending.None?
  }

  lemma ChunkSnoc(world: World, chunks: seq<string>, bytes: string)
    ensures var decoded := world.decode(chunks, bytes);
            && TotalLength(chunks + [bytes]) == TotalLength(chunks) + |bytes|
            && Decoded(world, chunks + [bytes]) == Decoded(world, chunks) + decoded
            && OpsSoFar(world, chunks + [bytes]) == OpsSoFar(world, chunks) + Processing(decoded)
  {
    assert (chunks + [bytes])[..|chunks|] == chunks;
  }

  function NonPing(out: seq<Out>): seq<Event> {
    if out == [] then []
    else
      var last := out[|out| - 1];
      NonPing(out[..|out| - 1]) + if last.Sse? then [last.event] else []
  }

  // ----- Sequences -----

  lemma {:induction false} NonPingAppend(a: seq<Out>, b: seq<Out>)
    ensures NonPing(a + b) == NonPing(a) + NonPing(b)
    decreases |b|
  {
    if b == [] {
      assert a + b == a;
    } else {
      var n := |b| - 1;
      assert (a + b)[..|a + b| - 1] == a + b[..n];
      NonPingAppend(a, b[..n]);
    }
  }

  lemma {:induction false} NonPingWrap(events: seq<Event>)
    ensures NonPing(Wrap(events)) == events
    decreases |events|
  {
    if events != [] {
      var n := |events| - 1;
      assert Wrap(events)[..n] == Wrap(events[..n]);
      NonPingWrap(events[..n]);
    }
  }

  lemma {:induction false} NonPingPings(n: nat)
    ensures NonPing(Pings(n)) == []
  {
    if n > 0 {
      assert Pings(n)[..n - 1] == Pings(n - 1);
      NonPingPings(n - 1);
    }
  }

  lemma {:induction false} EventsOfProcessing(world: World, ops: seq<Op>, events: seq<KiroEvent>)
    ensures EventsOf(world, ops + Processing(events)) == EventsOf(world, ops) + Produced(world, ops, events)
    decreases |events|
  {
    if events == [] {
      assert ops + Processing(events) == ops;
    } else {
      var n := |events| - 1;
      var all := ops + Processing(events);
      assert all[..|all| - 1] == ops + Processing(events[..n]);
      EventsOfProcessing(world, ops, events[..n]);
    }
  }

  lemma EventsOfSnoc(world: World, ops: seq<Op>, op: Op)
    ensures EventsOf(world, ops + [op]) == EventsOf(world, ops) + world.emit(ops, op)
  {
    assert (ops + [op])[..|ops|] == ops;
  }

  lemma EventsOfInitial(world: World)
    ensures EventsOf(world, [Initial]) == world.emit([], Initial)
  {
    EventsOfSnoc(world, [], Initial);
  }

  // ----- The live stream -----

  function LiveRun(world: World, inputs: seq<Input>): (Live, seq<Out>) {
    if inputs == [] then (LiveStart(world), [])
    else
      var (s, out) := LiveRun(world, inputs[..|inputs| - 1]);
      var (next, more) := LiveStep(world, s, inputs[|inputs| - 1]);
      (next, out + more)
  }

  function LiveAt(world: World, h: Heard): Live {
    Live(h.chunks, if h.ending.Some? then FullOps(world, h.chunks) else OpsSoFar(world, h.chunks),
         if Quiet(h) then Some(world.emit([], Initial)) else None,
         h.ending.Some?, TotalLength(h.chunks), BooksAt(world, h))
  }

  lemma LiveStepIs(world: World, h: Heard, input: Input)
    ensures LiveStep(world, LiveAt(world, h), input).0 == LiveAt(world, Hears(h, input))
  {
    if h.ending.None? && input.Chunk? {
      ChunkSnoc(world, h.chunks, input.bytes);
    }
  }

  /** The state is a function of the chunks and the ending: ticks do not matter. */
  lemma {:induction false} LiveStateIs(world: World, inputs: seq<Input>)
    ensures LiveRun(world, inputs).0 == LiveAt(world, HeardIn(inputs))
    decreases |inputs|
  {
    if inputs == [] {
      assert OpsSoFar(world, []) == [Initial];
    } else {
      var n := |inputs| - 1;
      LiveStateIs(world, inputs[..n]);
      LiveStepIs(world, HeardIn(inputs[..n]), inputs[n]);
    }
  }

  /** Nothing goes out while it is quiet; after that, the initial events go out first, and what
      goes out besides pings is at every moment exactly what the context gave, in order. */
  lemma {:induction false} LiveOutputIs(world: World, inputs: seq<Input>)
    ensures var (s, out), h := LiveRun(world, inputs), HeardIn(inputs);
            && (Quiet(h) ==> out == [])
            && (!Quiet(h) ==> NonPing(out) == EventsOf(world, s.ops) && Wrap(world.emit([], Initial)) <= out)
    decreases |inputs|
  {
    hide LiveStep, EventsOf, NonPing;
    if inputs != [] {
      var n := |inputs| - 1;
      LiveOutputIs(world, inputs[..n]);
      LiveStateIs(world, inputs[..n]);
      var h := HeardIn(inputs[..n]);
      assert OpsSoFar(world, []) == [Initial];
      LiveStepOutput(world, LiveAt(world, h), LiveRun(world, inputs[..n]).1, inputs[n], Quiet(h));
    }
  }

  lemma LiveStepOutput(world: World, s: Live, out: seq<Out>, input: Input, quiet: bool)
    requires s.pending == if quiet then Some(world.emit([], Initial)) else None
    requires quiet ==> out == [] && s.ops == [Initial] && !s.finished
    requires !quiet ==> NonPing(out) == EventsOf(world, s.ops) && Wrap(world.emit([], Initial)) <= out
    ensures var (next, more) := LiveStep(world, s, input);
            if quiet && input.Tick? then out + more == []
            else NonPing(out + more) == EventsOf(world, next.ops) && Wrap(world.emit([], Initial)) <= out + more
  {
    hide EventsOf, Produced;
    var initial := world.emit([], Initial);
    var (next, more) := LiveStep(world, s, input);
    NonPingAppend(out, more);
    if !s.finished {
      EventsOfInitial(world);
      match input {
        case Chunk(bytes) =>
          var events := world.decode(s.chunks, bytes);
          EventsOfProcessing(world, s.ops, events);
          NonPingWrap(s.pending.GetOr([]) + Produced(world, s.ops, events));
          WrapStarts(initial, Produced(world, s.ops, events));
        case Tick =>
          NonPingPings(1);
          assert Pings(1) == [Ping];
        case _ =>
          EventsOfSnoc(world, s.ops, Final);
          NonPingWrap(s.pending.GetOr([]) + world.emit(s.ops, Final));
          WrapStarts(initial, world.emit(s.ops, Final));
      }
    }
  }

  lemma WrapStarts(a: seq<Event>, b: seq<Event>)
    ensures Wrap(a) <= Wrap(a + b)
    ensures [] + b == b && [] + Wrap(a + b) == Wrap(a + b)
  {
  }

  // ----- The buffered stream -----

  function BufferedRun(world: World, inputs: seq<Input>): (Buffered, seq<Out>) {
    if inputs == [] then (BUFFERED_START, [])
    else
      var (s, out) := BufferedRun(world, inputs[..|inputs| - 1]);
      var (next, more) := BufferedStep(world, s, inputs[|inputs| - 1]);
      (next, out + more)
  }

  function BufferedOps(world: World, h: Heard): seq<Op> {
    if h.ending.Some? then FullOps(world, h.chunks)
    else if Decoded(world, h.chunks) == [] then []
    else OpsSoFar(world, h.chunks)
  }

  function BufferedAt(world: World, h: Heard): Buffered {
    var ops := BufferedOps(world, h);
    Buffered(h.chunks, ops, if h.ending.Some? then [] else EventsOf(world, ops), ops != [],
             h.ending.Some?, h.chunks != [], TotalLength(h.chunks), BooksAt(world, h))
  }

  lemma OpenedIsSoFar(world: World, h: Heard)
    requires h.ending.None?
    ensures Opened(BufferedOps(world, h)) == OpsSoFar(world, h.chunks)
  {
    if Decoded(world, h.chunks) == [] {
      assert OpsSoFar(world, h.chunks) == [Initial];
    }
  }

  lemma BufferedStepIs(world: World, h: Heard, input: Input)
    ensures BufferedStep(world, BufferedAt(world, h), input).0 == BufferedAt(world, Hears(h, input))
  {
    hide EventsOf, CorrectedAll, Wrap, Processing, Concluded, Decoded;
    if h.ending.None? {
      OpenedIsSoFar(world, h);
      if input.Chunk? {
        ChunkSnoc(world, h.chunks, input.bytes);
        ChunkOps(world, h, input.bytes);
        OpsOpened(world, h, input.bytes);
        hide BufferedOps, Opened;
      }
    }
  }

  lemma OpsOpened(world: World, h: Heard, bytes: string)
    ensures Opened(BufferedOps(world, h)) != []
  {
  }

  lemma ChunkOps(world: World, h: Heard, bytes: string)
    requires h.ending.None?
    ensures var decoded, ops := world.decode(h.chunks, bytes), BufferedOps(world, h);
            BufferedOps(world, Hears(h, Chunk(bytes))) ==
            if decoded == [] then ops else Opened(ops) + Processing(decoded)
  {
    ChunkSnoc(world, h.chunks, bytes);
    OpenedIsSoFar(world, h);
    if world.decode(h.chunks, bytes) == [] {
      assert Decoded(world, h.chunks + [bytes]) == Decoded(world, h.chunks);
    } else {
      assert Decoded(world, h.chunks + [bytes]) != [];
    }
  }

  lemma {:induction false} BufferedStateIs(world: World, inputs: seq<Input>)
    ensures BufferedRun(world, inputs).0 == BufferedAt(world, HeardIn(inputs))
    decreases |inputs|
  {
    if inputs != [] {
      var n := |inputs| - 1;
      BufferedStateIs(world, inputs[..n]);
      BufferedStepIs(world, HeardIn(inputs[..n]), inputs[n]);
    }
  }

  /** The events at the end of a buffered stream. */
  function FinalEvents(world: World, chunks: seq<string>): seq<Event> {
    CorrectedAll(EventsOf(world, FullOps(world, chunks)), FinalUsage(world, chunks))
  }

  /** Only pings go out before the end, none while it is quiet, one at least after the first
      chunk; then all events at once, with the final usage. */
  lemma {:induction false} BufferedOutputIs(world: World, inputs: seq<Input>) returns (pings: nat)
    ensures var out, h := BufferedRun(world, inputs).1, HeardIn(inputs);
            && (pings == 0 <==> h.chunks == [])
            && out == Pings(pings) + if h.ending.Some? then Wrap(FinalEvents(world, h.chunks)) else []
    decreases |inputs|
  {
    if inputs == [] {
      pings := 0;
      assert Pings(0) + [] == [];
    } else {
      var n := |inputs| - 1;
      var before := BufferedOutputIs(world, inputs[..n]);
      BufferedStateIs(world, inputs[..n]);
      pings := BufferedStepOutput(world, HeardIn(inputs[..n]), BufferedRun(world, inputs[..n]).1, inputs[n], before);
    }
  }

  lemma BufferedStepOutput(world: World, h: Heard, out: seq<Out>, input: Input, before: nat) returns (pings: nat)
    requires before == 0 <==> h.chunks == []
    requires out == Pings(before) + if h.ending.Some? then Wrap(FinalEvents(world, h.chunks)) else []
    ensures var h' := Hears(h, input);
            && (pings == 0 <==> h'.chunks == [])
            && out + BufferedStep(world, BufferedAt(world, h), input).1 ==
               Pings(pings) + if h'.ending.Some? then Wrap(FinalEvents(world, h'.chunks)) else []
  {
    pings := before;
    if h.ending.Some? {
      assert out + [] == out;
    } else {
      OpenedIsSoFar(world, h);
      PingsSnoc(before);
      if BufferedStep(world, BufferedAt(world, h), input).1 == [Ping] && !(input.ReadError? || input.End?) {
        pings := before + 1;
      }
    }
  }

  lemma PingsSnoc(n: nat)
    ensures Pings(n) + [] == Pings(n) && Pings(n + 1) + [] == Pings(n) + [Ping] && Pings(n) + [] + [] == Pings(n)
  {
  }

  /** The usage known once all chunks are processed. */
  function FinalUsage(world: World, chunks: seq<string>): Usage {
    world.resolved(OpsSoFar(world, chunks))
  }

  // ----- Results over both machines -----

  lemma {:induction false} EndsTwoWays(inputs: seq<Input>)
    ensures HeardIn(inputs).ending in {None, Some(ReadError), Some(End)}
    decreases |inputs|
  {
    if inputs != [] {
      EndsTwoWays(inputs[..|inputs| - 1]);
    }
  }

  /** Exactly one usage record and one trace conclusion on every finished run, none before; both are a success, and
      the cache is committed, if and only if the stream ended cleanly with no malformed tool arguments.  An
      interruption, and only that, is concluded with the bytes sent so far. */
  lemma ConcludedOnce(world: World, inputs: seq<Input>)
    ensures var h := HeardIn(inputs);
            var books := BooksAt(world, h);
            var malformed := world.toolJsonError(FullOps(world, h.chunks));
            && LiveRun(world, inputs).0.books == BufferedRun(world, inputs).0.books == books
            && |books.records| == |books.conclusions| == (if h.ending.Some? then 1 else 0)
            && books.commits == (if h.ending == Some(End) && !malformed then 1 else 0)
            && (h.ending.Some? ==>
                  var (usage, status) := books.records[0];
                  var concluded := books.conclusions[0];
                  && usage == world.resolved(FullOps(world, h.chunks))
                  && (status == Ok <==> h.ending == Some(End) && !malformed) && status != Interrupted
                  && (concluded.status == Ok <==> status == Ok)
                  && (concluded.status == Interrupted <==> h.ending == Some(ReadError))
                  && concluded.sentBytes ==
                     if h.ending == Some(ReadError) then Some(TotalLength(h.chunks)) else None)
  {
    EndsTwoWays(inputs);
    LiveStateIs(world, inputs);
    BufferedStateIs(world, inputs);
  }

  /** After the ending nothing changes and nothing is sent, whatever still comes. */
  lemma {:induction false} NothingAfterwards(world: World, inputs: seq<Input>, more: seq<Input>)
    requires HeardIn(inputs).ending.Some?
    ensures LiveRun(world, inputs + more) == LiveRun(world, inputs)
    ensures BufferedRun(world, inputs + more) == BufferedRun(world, inputs)
    decreases |more|
  {
    if more == [] {
      assert inputs + more == inputs;
    } else {
      var n := |more| - 1;
      assert (inputs + more)[..|inputs + more| - 1] == inputs + more[..n];
      NothingAfterwards(world, inputs, more[..n]);
      LiveStateIs(world, inputs);
      BufferedStateIs(world, inputs);
      assert LiveRun(world, inputs).1 + [] == LiveRun(world, inputs).1;
      assert BufferedRun(world, inputs).1 + [] == BufferedRun(world, inputs).1;
    }
  }

  /** The two machines tell the same story: on schedules with the same chunks and ending, and any
      ticks, they book the same, and the buffered stream sends the events of the live stream with
      the usage corrected. */
  lemma MachinesAgree(world: World, live: seq<Input>, buffered: seq<Input>)
    requires HeardIn(live) == HeardIn(buffered) && HeardIn(live).ending.Some?
    ensures LiveRun(world, live).0.books == BufferedRun(world, buffered).0.books
    ensures NonPing(BufferedRun(world, buffered).1) ==
            CorrectedAll(NonPing(LiveRun(world, live).1), FinalUsage(world, HeardIn(live).chunks))
  {
    var chunks := HeardIn(live).chunks;
    ConcludedOnce(world, live);
    ConcludedOnce(world, buffered);
    LiveStateIs(world, live);
    LiveOutputIs(world, live);
    var pings := BufferedOutputIs(world, buffered);
    var events := FinalEvents(world, chunks);
    NonPingAppend(Pings(pings), Wrap(events));
    NonPingPings(pings);
    NonPingWrap(events);
  }
}
