/** Starting a deferred stream: the spawned loop task and the handler that waits for its verdict,
    joined by a bounded channel and a one-shot (`StreamFirstByteMarker`, `render_deferred_sse`). */
module Startup {
  import opened Wrappers

  /** What goes through the channel to the client. */
  datatype Item = Ping | Event(text: string) | ErrorEvent

  datatype Verdict = Started | Refused

  const CAPACITY: nat := 32

  function Wrap(events: seq<string>): seq<Item> {
    seq(|events|, i requires 0 <= i < |events| => Event(events[i]))
  }

  // ----- The spawned task on its own -----

  /** What the loop returns: the rendered events of its reply, or an error response. */
  type LoopResult = Option<seq<string>>

  /** Everything the loop task sends to a client that stays: a ping if the upstream began to answer,
      then the reply; an error event only after a ping, for otherwise the request is refused. */
  function TaskLog(chunked: bool, loop: LoopResult): seq<Item> {
    (if chunked then [Ping] else []) +
    match loop
    case Some(events) => Wrap(events)
    case None => if chunked then [ErrorEvent] else []
  }

  function TaskVerdict(chunked: bool, loop: LoopResult): Verdict {
    if chunked || loop.Some? then Started else Refused
  }

  /** The marker: `armed` while the one-shot sender is still there; `sent` and `verdicts` are what
      went into its two senders. */
  class StreamFirstByteMarker {
    var started: bool
    var armed: bool
    var sent: seq<Item>
    var verdicts: seq<Verdict>

    ghost predicate Valid()
      reads this
    {
      && armed == !started
      && |verdicts| == (if armed then 0 else 1)
    }

    constructor ()
      ensures Valid() && !started && sent == [] && verdicts == []
    {
      started, armed, sent, verdicts := false, true, [], [];
    }

    method Decide(verdict: Verdict)
      modifies this`armed, this`verdicts
      ensures !armed && verdicts == old(verdicts) + if old(armed) then [verdict] else []
    {
      if armed {
        armed := false;
        verdicts := verdicts + [verdict];
      }
    }

    method MarkFirstUpstreamChunk()
      requires Valid()
      modifies this
      ensures Valid() && started
      ensures old(started) ==> sent == old(sent) && verdicts == old(verdicts)
      ensures !old(started) ==> sent == old(sent) + [Ping] && verdicts == [Started]
    {
      if started {
        return;
      }
      started := true;
      sent := sent + [Ping];
      Decide(Started);
    }

    method MarkStartedBeforeFinalFlush()
      requires Valid()
      modifies this
      ensures Valid() && started && sent == old(sent)
      ensures verdicts == if old(started) then old(verdicts) else [Started]
    {
      if started {
        return;
      }
      started := true;
      Decide(Started);
    }

    method FailBeforeStart() returns (refused: bool)
      requires Valid()
      modifies this
      ensures Valid() && started && sent == old(sent)
      ensures refused == !old(started)
      ensures verdicts == if refused then [Refused] else old(verdicts)
    {
      if started {
        return false;
      }
      started := true;
      Decide(Refused);
      refused := true;
    }

    method Send(item: Item)
      modifies this`sent
      ensures sent == old(sent) + [item]
    {
      sent := sent + [item];
    }
  }

  /** The spawned task, for a client that stays: exactly one verdict, and the log above. */
  method RunTask(chunks: nat, loop: LoopResult) returns (sent: seq<Item>, verdicts: seq<Verdict>)
    ensures sent == TaskLog(chunks > 0, loop)
    ensures verdicts == [TaskVerdict(chunks > 0, loop)]
  {
    hide TaskLog, TaskVerdict;
    var marker := new StreamFirstByteMarker();
    for i := 0 to chunks
      invariant marker.Valid() && marker.started == (i > 0)
      invariant marker.sent == if i > 0 then [Ping] else []
      invariant marker.verdicts == if i > 0 then [Started] else []
    {
      marker.MarkFirstUpstreamChunk();
    }
    match loop {
      case Some(events) =>
        marker.MarkStartedBeforeFinalFlush();
        ghost var before := marker.sent;
        for i := 0 to |events|
          invariant marker.sent == before + Wrap(events)[..i] && marker.verdicts == [Started]
        {
          marker.Send(Event(events[i]));
        }
      case None =>
        var refused := marker.FailBeforeStart();
        if !refused {
          marker.Send(ErrorEvent);
        }
    }
    TaskLogIs(chunks > 0, loop);
    sent, verdicts := marker.sent, marker.verdicts;
  }

  lemma TaskLogIs(chunked: bool, loop: LoopResult)
    ensures loop.Some? ==>
              && TaskLog(chunked, loop) == (if chunked then [Ping] else []) + Wrap(loop.value)
              && TaskVerdict(chunked, loop) == Started
    ensures loop.None? ==> TaskLog(chunked, loop) == if chunked then [Ping, ErrorEvent] else []
    ensures loop.None? ==> TaskVerdict(chunked, loop) == if chunked then Started else Refused
  {
  }

  // ----- Task and handler together -----

  datatype Task =
    | Reading                      // inside the loop, waiting for the upstream
    | SendingPing                  // started, the ping not yet in the channel
    | SendingVerdict               // the ping sent, the verdict not yet
    | Flushing(rest: seq<Item>)
    | SendingError
    | Finished                     // both senders dropped

  datatype Handler = Waiting | Draining | Closed | RefusedResponse | BadGateway | Gone

  /** `chunked`, `sent` and `received` are history: whether an upstream chunk came, what went into
      the channel, and what the client took out of it. */
  datatype State = State(
    task: Task,
    started: bool,
    armed: bool,
    verdicts: seq<Verdict>,
    channel: seq<Item>,
    handler: Handler,
    chunked: bool,
    sent: seq<Item>,
    received: seq<Item>)

  datatype Step =
    | ChunkArrives | SendPing | SendVerdict | LoopReturns | SendNext | FlushEnds | SendErrorEvent
    | HearVerdict | MissVerdict | Receive | StreamEnds | Disconnect

  const INITIAL := State(Reading, false, true, [], [], Waiting, false, [], [])

  /** The receiving end of the channel still exists. */
  predicate Listening(s: State) {
    s.handler.Waiting? || s.handler.Draining?
  }

  /** A send goes through, or fails at once because nobody listens; it waits while the channel is full. */
  predicate CanSend(s: State) {
    !Listening(s) || |s.channel| < CAPACITY
  }

  predicate Enabled(s: State, step: Step) {
    match step
    case ChunkArrives => s.task.Reading? && !s.started
    case SendPing => s.task.SendingPing? && CanSend(s)
    case SendVerdict => s.task.SendingVerdict?
    case LoopReturns => s.task.Reading?
    case SendNext => s.task.Flushing? && s.task.rest != [] && CanSend(s)
    case FlushEnds => s.task.Flushing? && s.task.rest == []
    case SendErrorEvent => s.task.SendingError? && CanSend(s)
    case HearVerdict => s.handler.Waiting? && s.verdicts != []
    case MissVerdict => s.handler.Waiting? && s.verdicts == [] && s.task.Finished?
    case Receive => s.handler.Draining? && s.channel != []
    case StreamEnds => s.handler.Draining? && s.channel == [] && s.task.Finished?
    case Disconnect => Listening(s)
  }

  function Sent(s: State, item: Item): State {
    if Listening(s) then s.(channel := s.channel + [item], sent := s.sent + [item]) else s
  }

  function Decided(s: State, verdict: Verdict): State {
    if s.armed then s.(armed := false, verdicts := s.verdicts + [verdict]) else s
  }

  function Apply(s: State, step: Step, loop: LoopResult): State
    requires Enabled(s, step)
  {
    match step
    case ChunkArrives => s.(started := true, chunked := true, task := SendingPing)
    case SendPing => Sent(s, Ping).(task := SendingVerdict)
    case SendVerdict => Decided(s, Started).(task := Reading)
    case LoopReturns =>
      (match loop
       case Some(events) =>
         (if s.started then s else Decided(s, Started).(started := true)).(task := Flushing(Wrap(events)))
       case None =>
         if s.started then s.(task := SendingError) else Decided(s, Refused).(started := true, task := Finished))
    case SendNext => Sent(s, s.task.rest[0]).(task := if Listening(s) then Flushing(s.task.rest[1..]) else Finished)
    case FlushEnds => s.(task := Finished)
    case SendErrorEvent => Sent(s, ErrorEvent).(task := Finished)
    case HearVerdict =>
      if s.verdicts[0] == Started then s.(handler := Draining) else s.(handler := RefusedResponse, channel := [])
    case MissVerdict => s.(handler := BadGateway, channel := [])
    case Receive => s.(channel := s.channel[1..], received := s.received + [s.channel[0]])
    case StreamEnds => s.(handler := Closed)
    case Disconnect => s.(handler := Gone, channel := [])
  }

  /** The state after a list of steps, if each is possible in its turn. */
  function Run(loop: LoopResult, steps: seq<Step>): Option<State> {
    if steps == [] then Some(INITIAL)
    else
      var n := |steps| - 1;
      match Run(loop, steps[..n])
      case Some(s) => if Enabled(s, steps[n]) then Some(Apply(s, steps[n], loop)) else None
      case None => None
  }

  // ----- What every step keeps -----

  /** How far the loop task has come: its verdicts and, towards a client that stays, its messages. */
  predicate TaskInv(s: State, loop: LoopResult) {
    var stays := !s.handler.Gone?;
    match s.task
    case Reading =>
      s.started == s.chunked && s.verdicts == (if s.chunked then [Started] else []) &&
      (stays ==> s.sent == if s.chunked then [Ping] else [])
    case SendingPing => s.started && s.chunked && s.verdicts == [] && (stays ==> s.sent == [])
    case SendingVerdict => s.started && s.chunked && s.verdicts == [] && (stays ==> s.sent == [Ping])
    case Flushing(rest) =>
      s.started && loop.Some? && s.verdicts == [Started] && (stays ==> s.sent + rest == TaskLog(s.chunked, loop))
    case SendingError =>
      s.started && loop.None? && s.chunked && s.verdicts == [Started] && (stays ==> s.sent == [Ping])
    case Finished =>
      s.started && s.verdicts == [TaskVerdict(s.chunked, loop)] && (stays ==> s.sent == TaskLog(s.chunked, loop))
  }

  predicate HandlerInv(s: State) {
    match s.handler
    case Waiting => s.received == [] && s.sent == s.channel
    case Draining => s.verdicts == [Started] && s.sent == s.received + s.channel
    case Closed => s.verdicts == [Started] && s.task.Finished? && s.sent == s.received && s.channel == []
    case RefusedResponse => s.verdicts == [Refused] && s.received == [] && s.channel == []
    case BadGateway => false
    case Gone => s.channel == []
  }

  predicate Inv(s: State, loop: LoopResult) {
    && TaskInv(s, loop)
    && HandlerInv(s)
    && s.armed == (s.verdicts == [])
    && |s.channel| <= CAPACITY
  }

  lemma TaskStepKeeps(s: State, step: Step, loop: LoopResult)
    requires Inv(s, loop) && Enabled(s, step)
    requires step.ChunkArrives? || step.SendPing? || step.SendVerdict? || step.LoopReturns? || step.FlushEnds?
             || step.SendErrorEvent?
    ensures Inv(Apply(s, step, loop), loop)
  {
    if step.LoopReturns? && loop.Some? {
      assert [] + Wrap(loop.value) == Wrap(loop.value);
    }
    SentConcat(s, Ping);
    SentConcat(s, ErrorEvent);
  }

  lemma SentConcat(s: State, item: Item)
    ensures s.sent == s.received + s.channel ==> s.sent + [item] == s.received + (s.channel + [item])
    ensures [] + [item] == [item]
  {
  }

  lemma SendNextKeeps(s: State, loop: LoopResult)
    requires Inv(s, loop) && Enabled(s, SendNext)
    ensures Inv(Apply(s, SendNext, loop), loop)
  {
    var rest := s.task.rest;
    assert s.sent + rest == (s.sent + [rest[0]]) + rest[1..];
    SentConcat(s, rest[0]);
  }

  lemma HandlerStepKeeps(s: State, step: Step, loop: LoopResult)
    requires Inv(s, loop) && Enabled(s, step)
    requires step.HearVerdict? || step.MissVerdict? || step.Receive? || step.StreamEnds? || step.Disconnect?
    ensures Inv(Apply(s, step, loop), loop)
  {
    if step.Receive? {
      assert s.received + s.channel == (s.received + [s.channel[0]]) + s.channel[1..];
    }
  }

  lemma StepKeeps(s: State, step: Step, loop: LoopResult)
    requires Inv(s, loop) && Enabled(s, step)
    ensures Inv(Apply(s, step, loop), loop)
  {
    match step {
      case SendNext => SendNextKeeps(s, loop);
      case HearVerdict => HandlerStepKeeps(s, step, loop);
      case MissVerdict => HandlerStepKeeps(s, step, loop);
      case Receive => HandlerStepKeeps(s, step, loop);
      case StreamEnds => HandlerStepKeeps(s, step, loop);
      case Disconnect => HandlerStepKeeps(s, step, loop);
      case _ => TaskStepKeeps(s, step, loop);
    }
  }

  lemma {:induction false} RunKeeps(loop: LoopResult, steps: seq<Step>)
    requires Run(loop, steps).Some?
    ensures Inv(Run(loop, steps).value, loop)
    decreases |steps|
  {
    if steps != [] {
      var n := |steps| - 1;
      RunKeeps(loop, steps[..n]);
      StepKeeps(Run(loop, steps[..n]).value, steps[n], loop);
    }
  }

  // ----- Safety over every interleaving -----

  /** At most one verdict; before it at most one item is in the channel, so the sender is not held
      up by a full channel; the 502 branch is not taken; and the client has always received a
      beginning of the sender's log, nothing at all if the request was refused. */
  lemma EveryRunIsSafe(loop: LoopResult, steps: seq<Step>)
    requires Run(loop, steps).Some?
    ensures var s := Run(loop, steps).value;
            && |s.verdicts| <= 1
            && (s.verdicts == [] ==> |s.channel| <= 1 && CanSend(s))
            && s.handler != BadGateway
            && (Listening(s) ==> s.received <= TaskLog(s.chunked, loop))
            && (s.handler.RefusedResponse? ==> s.received == [] && !s.chunked && loop.None?)
  {
    RunKeeps(loop, steps);
    var s := Run(loop, steps).value;
    if Listening(s) {
      assert s.received <= s.sent;
      SentIsBeginning(s, loop);
    }
  }

  lemma SentIsBeginning(s: State, loop: LoopResult)
    requires TaskInv(s, loop) && !s.handler.Gone?
    ensures s.sent <= TaskLog(s.chunked, loop)
  {
    if s.task.Flushing? {
      assert s.sent <= s.sent + s.task.rest;
    }
  }

  // ----- Every run ends, and how -----

  predicate Over(s: State) {
    s.task.Finished? && !Listening(s)
  }

  /** No deadlock: until task and handler are both done, one of them can move. */
  lemma SomeStepIsEnabled(s: State, loop: LoopResult) returns (step: Step)
    requires Inv(s, loop) && !Over(s)
    ensures Enabled(s, step) && !step.Disconnect?
  {
    if CanSend(s) && !s.task.Finished? {
      step := match s.task
        case Reading => LoopReturns
        case SendingPing => SendPing
        case SendingVerdict => SendVerdict
        case Flushing(rest) => if rest == [] then FlushEnds else SendNext
        case _ => SendErrorEvent;
    } else if s.handler.Waiting? {
      step := HearVerdict;
    } else {
      step := if s.channel == [] then StreamEnds else Receive;
    }
  }

  function ToSend(loop: LoopResult): nat {
    if loop.Some? then |loop.value| else 1
  }

  /** Work left: two for an item to be sent and received, one for an item in the channel. */
  function Work(s: State, loop: LoopResult): nat {
    |s.channel| +
    (match s.task
     case Reading => 2 * ToSend(loop) + (if s.started then 6 else 10)
     case SendingPing => 2 * ToSend(loop) + 9
     case SendingVerdict => 2 * ToSend(loop) + 7
     case Flushing(rest) => 2 * |rest| + 4
     case SendingError => 5
     case Finished => 0) +
    (match s.handler
     case Waiting => 2
     case Draining => 1
     case _ => 0)
  }

  lemma StepWorks(s: State, step: Step, loop: LoopResult)
    requires Inv(s, loop) && Enabled(s, step)
    ensures Work(Apply(s, step, loop), loop) < Work(s, loop)
  {
    hide HandlerInv;
  }

  lemma {:induction false} RunsAreBounded(loop: LoopResult, steps: seq<Step>)
    requires Run(loop, steps).Some?
    ensures |steps| + Work(Run(loop, steps).value, loop) <= 2 * ToSend(loop) + 12
    decreases |steps|
  {
    if steps != [] {
      var n := |steps| - 1;
      RunsAreBounded(loop, steps[..n]);
      RunKeeps(loop, steps[..n]);
      StepWorks(Run(loop, steps[..n]).value, steps[n], loop);
    }
  }

  /** Every run stops after a bounded number of steps.  Where it stops there was exactly one
      verdict, the one of the loop task on its own; and a client that stayed has either been refused,
      with nothing received, or received the sender's log to the last item. */
  lemma EveryRunEnds(loop: LoopResult, steps: seq<Step>)
    requires Run(loop, steps).Some?
    ensures |steps| <= 2 * ToSend(loop) + 12
    ensures var s := Run(loop, steps).value;
            (forall step :: !Enabled(s, step)) ==>
              && s.task.Finished?
              && s.verdicts == [TaskVerdict(s.chunked, loop)]
              && (s.handler == Gone
                  || (s.handler == Closed && s.verdicts == [Started] && s.received == TaskLog(s.chunked, loop))
                  || (s.handler == RefusedResponse && s.verdicts == [Refused] && s.received == []))
  {
    RunsAreBounded(loop, steps);
    RunKeeps(loop, steps);
    var s := Run(loop, steps).value;
    if !Over(s) {
      var step := SomeStepIsEnabled(s, loop);
      assert Enabled(s, step);
    }
  }
}
