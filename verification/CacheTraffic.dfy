/** Many conversations on one cache: each reads its own last committed turn. */
module CacheTraffic {
  import opened Wrappers
  import opened CacheTable
  import opened CacheSegments
  import opened CacheChain
  import opened CachePlan
  import opened CacheIsolation

  /** A turn of some conversation. */
  datatype Turn = Turn(conversation: nat, keyed: Keyed)

  /** A turn is planned, a planned turn succeeds, or the table is cleaned, flushed or reloaded. */
  datatype Traffic =
    | Plan(turn: Turn, now: int)
    | Commit(turn: Turn, now: int, evicted: set<string>)
    | Upkeep(event: Event)

  function TurnSegments(turn: Turn, est: Estimators): seq<Segment> {
    Segments(turn.keyed.req, turn.keyed.keyId, est)
  }

  function TrafficEvent(t: Traffic, est: Estimators): Event {
    match t
    case Plan(turn, now) => LookedUp(now, TurnSegments(turn, est))
    case Commit(turn, now, evicted) => Recorded(now, TurnSegments(turn, est), RequestTtl(turn.keyed.req), evicted)
    case Upkeep(event) => event
  }

  function TrafficEvents(ts: seq<Traffic>, est: Estimators): seq<Event> {
    seq(|ts|, i requires 0 <= i < |ts| => TrafficEvent(ts[i], est))
  }

  /** Turns of one conversation continue its committed turns; turns of two conversations are kept apart. */
  predicate Related(earlier: Traffic, later: Turn)
    requires !earlier.Upkeep?
  {
    if earlier.turn.conversation == later.conversation then
      && earlier.turn.keyed.keyId == later.keyed.keyId
      && (earlier.Commit? ==> Continues(earlier.turn.keyed.req, later.keyed.req, later.keyed.keyId))
    else Apart(earlier.turn.keyed, later.keyed)
  }

  ghost predicate Conversations(ts: seq<Traffic>) {
    && (forall i | 0 <= i < |ts| && ts[i].Upkeep? :: !ts[i].event.Recorded?)
    && forall i, j | 0 <= i < j < |ts| && !ts[i].Upkeep? && !ts[j].Upkeep? :: Related(ts[i], ts[j].turn)
  }

  /** No commit evicts a segment that the turn at `n` looks up. */
  ghost predicate KeptFor(ts: seq<Traffic>, n: nat, est: Estimators)
    requires n < |ts| && !ts[n].Upkeep?
  {
    forall i, s | 0 <= i < n && ts[i].Commit? && s in TurnSegments(ts[n].turn, est) :: s.key !in ts[i].evicted
  }

  /** The last committed turn of a conversation. */
  function LastCommitOf(ts: seq<Traffic>, conversation: nat): Option<CommittedTurn> {
    if ts == [] then None
    else
      var last := ts[|ts| - 1];
      if last.Commit? && last.turn.conversation == conversation
      then Some(CommittedTurn(last.turn.keyed.req, last.now))
      else LastCommitOf(ts[..|ts| - 1], conversation)
  }

  // ----- The traffic as one conversation sees it -----

  function SeenAs(t: Traffic, conversation: nat, est: Estimators): Act {
    match t
    case Plan(turn, now) =>
      if turn.conversation == conversation then Planned(turn.keyed.req, now) else Other(TrafficEvent(t, est))
    case Commit(turn, now, evicted) =>
      if turn.conversation == conversation then Committed(turn.keyed.req, now, evicted) else Other(TrafficEvent(t, est))
    case Upkeep(event) => Other(event)
  }

  function SeenBy(ts: seq<Traffic>, conversation: nat, est: Estimators): seq<Act> {
    seq(|ts|, i requires 0 <= i < |ts| => SeenAs(ts[i], conversation, est))
  }

  lemma {:induction false} SameLastCommit(ts: seq<Traffic>, conversation: nat, est: Estimators)
    ensures LastCommit(SeenBy(ts, conversation, est)) == LastCommitOf(ts, conversation)
  {
    if ts != [] {
      var acts := SeenBy(ts, conversation, est);
      SameLastCommit(ts[..|ts| - 1], conversation, est);
      assert acts[..|acts| - 1] == SeenBy(ts[..|ts| - 1], conversation, est);
    }
  }

  lemma SameEvents(ts: seq<Traffic>, n: nat, est: Estimators)
    requires Conversations(ts) && n < |ts| && !ts[n].Upkeep?
    ensures var turn := ts[n].turn;
            Events(SeenBy(ts[..n], turn.conversation, est), turn.keyed.keyId, est) == TrafficEvents(ts[..n], est)
  {
    var turn := ts[n].turn;
    forall i | 0 <= i < n
      ensures EventOf(SeenAs(ts[i], turn.conversation, est), turn.keyed.keyId, est) == TrafficEvent(ts[i], est)
    {
      assert !ts[i].Upkeep? ==> Related(ts[i], turn);
    }
  }

  lemma OthersLeaveAlone(ts: seq<Traffic>, n: nat, est: Estimators)
    requires Conversations(ts) && n < |ts| && !ts[n].Upkeep? && KeptFor(ts, n, est)
    ensures Undisturbed(SeenBy(ts[..n], ts[n].turn.conversation, est), TurnSegments(ts[n].turn, est))
  {
    var turn, before := ts[n].turn, ts[..n];
    var acts, segs := SeenBy(before, turn.conversation, est), TurnSegments(turn, est);
    forall act, s | act in acts && s in segs
      ensures act.Committed? ==> s.key !in act.evicted
      ensures act.Other? && act.event.Recorded? ==> !HasKey(act.event.segs, s.key) && s.key !in act.event.evicted
    {
      var i :| 0 <= i < |acts| && acts[i] == act;
      assert act == SeenAs(ts[i], turn.conversation, est);
      if ts[i].Commit? && ts[i].turn.conversation != turn.conversation {
        assert Related(ts[i], turn);
        ApartShareNothing(ts[i].turn.keyed, turn.keyed, est, s.key);
      }
    }
  }

  lemma OwnTurnsContinue(ts: seq<Traffic>, n: nat, est: Estimators)
    requires Conversations(ts) && n < |ts| && !ts[n].Upkeep?
    ensures OneConversation(SeenBy(ts[..n], ts[n].turn.conversation, est), ts[n].turn.keyed.req, ts[n].turn.keyed.keyId)
  {
    var turn := ts[n].turn;
    var acts, keyId := SeenBy(ts[..n], turn.conversation, est), turn.keyed.keyId;
    forall act | act in acts && act.Committed?
      ensures Continues(act.req, turn.keyed.req, keyId)
    {
      var i :| 0 <= i < |acts| && acts[i] == act;
      assert act == SeenAs(ts[i], turn.conversation, est);
      assert Related(ts[i], turn);
    }
    forall i, j | 0 <= i < j < |acts| && acts[i].Committed? && acts[j].Committed?
      ensures Continues(acts[i].req, acts[j].req, keyId)
    {
      assert Related(ts[i], ts[j].turn) && Related(ts[j], turn);
    }
  }

  // ----- Each its own -----

  /** In any run of any number of conversations whose turns continue each other and that are kept apart from one
      another, every turn reads exactly what the last committed turn of its own conversation covered, until that
      turn expires, and else nothing. */
  lemma EachReadsItsOwn(states: seq<State>, ts: seq<Traffic>, est: Estimators, n: nat)
    requires Run(states, TrafficEvents(ts, est)) && Conversations(ts)
    requires n < |ts| && ts[n].Plan? && KeptFor(ts, n, est)
    ensures var keyed, now := ts[n].turn.keyed, ts[n].now;
            PlanOf(states[n].entries, keyed.req, keyed.keyId, est, now).usage.read ==
            match LastCommitOf(ts[..n], ts[n].turn.conversation)
            case Some(last) =>
              if now < ExpiryOf(last) then AsI32(Covered(Segments(last.req, keyed.keyId, est))) else 0
            case None => 0
  {
    hide Segments, Related, Undisturbed, OneConversation, Conversations, KeptFor;
    var turn, now, events := ts[n].turn, ts[n].now, TrafficEvents(ts, est);
    var acts := SeenBy(ts[..n], turn.conversation, est);
    RunPrefix(states, events, n);
    assert TrafficEvents(ts[..n], est) == events[..n];
    SameEvents(ts, n, est);
    SameLastCommit(ts[..n], turn.conversation, est);
    OthersLeaveAlone(ts, n, est);
    OwnTurnsContinue(ts, n, est);
    assert events[n].now == now && (n > 0 ==> events[n - 1].now <= events[n].now);
    assert n > 0 ==> EventOf(acts[n - 1], turn.keyed.keyId, est) == events[n - 1];
    TurnReadsLastCommit(states[..n + 1], acts, turn.keyed.req, turn.keyed.keyId, est, now);
  }

  // ----- Room for all -----

  /** The number of segments ever recorded. */
  function RecordedCount(events: seq<Event>): nat {
    if events == [] then 0
    else
      var last := events[|events| - 1];
      RecordedCount(events[..|events| - 1]) + if last.Recorded? then |last.segs| else 0
  }

  lemma {:induction false} CountGrows(events: seq<Event>, n: nat)
    requires n <= |events|
    ensures RecordedCount(events[..n]) <= RecordedCount(events)
    decreases |events|
  {
    if n == |events| {
      assert events[..n] == events;
    } else {
      assert events[..|events| - 1][..n] == events[..n];
      CountGrows(events[..|events| - 1], n);
    }
  }

  lemma {:induction false} InsertedSize(entries: Table, segs: seq<Segment>, expiresAt: int, now: int)
    ensures |Inserted(entries, segs, expiresAt, now)| <= |entries| + |segs|
    decreases |segs|
  {
    if segs != [] {
      var init, last := segs[..|segs| - 1], segs[|segs| - 1];
      InsertedSize(entries, init, expiresAt, now);
      var before := Inserted(entries, init, expiresAt, now);
      assert Inserted(entries, segs, expiresAt, now).Keys == before.Keys + {last.key};
    }
  }

  ghost predicate Within(s: State, n: nat) {
    |s.entries| <= n && |s.disk.GetOr(map[])| <= n
  }

  lemma TouchedSize(entries: Table, segs: seq<Segment>, now: int)
    ensures |Touched(entries, segs, now)| == |entries|
  {
    assert Touched(entries, segs, now).Keys == entries.Keys;
  }

  lemma StepWithin(s: State, e: Event, s': State, n: nat)
    requires Step(s, e, s') && Within(s, n) && n + (if e.Recorded? then |e.segs| else 0) <= CAPACITY
    ensures Within(s', n + if e.Recorded? then |e.segs| else 0)
    ensures e.Recorded? ==> e.evicted == {}
  {
    hide Inserted, Evicts;
    match e {
      case Recorded(now, segs, ttl, evicted) =>
        var all := Inserted(s.entries, segs, now + ClampTtl(ttl), now);
        InsertedSize(s.entries, segs, now + ClampTtl(ttl), now);
        NothingEvicted(all, evicted, s'.entries);
      case LookedUp(now, segs) =>
        TouchedSize(s.entries, segs, now);
      case Expired(now) =>
        UnexpiredAtMost(s.entries, now);
      case Flushed(_) =>
      case Reloaded(now) =>
        UnexpiredAtMost(s.disk.GetOr(map[]), now);
    }
  }

  lemma NothingEvicted(all: Table, evicted: set<string>, kept: Table)
    requires Evicts(all, evicted, kept) && |all| <= CAPACITY
    ensures evicted == {} && kept == all
  {
    assert all.Keys == kept.Keys + evicted && kept.Keys !! evicted;
    assert |all.Keys| == |kept.Keys| + |evicted|;
  }

  /** While no more segments have been recorded than the table holds, nothing is evicted. */
  lemma {:induction false} SmallRunsEvictNothing(states: seq<State>, events: seq<Event>)
    requires Run(states, events) && RecordedCount(events) <= CAPACITY
    ensures Within(states[|events|], RecordedCount(events))
    ensures forall e <- events | e.Recorded? :: e.evicted == {}
    decreases |events|
  {
    if events != [] {
      var n := |events| - 1;
      RunPrefix(states, events, n);
      SmallRunsEvictNothing(states[..n + 1], events[..n]);
      StepWithin(states[n], events[n], states[n + 1], RecordedCount(events[..n]));
      assert events == events[..n] + [events[n]];
    }
  }

  /** So in a run that records no more segments than the table holds, eviction is no concern. */
  lemma SmallRunsReadTheirOwn(states: seq<State>, ts: seq<Traffic>, est: Estimators, n: nat)
    requires Run(states, TrafficEvents(ts, est)) && Conversations(ts)
    requires n < |ts| && ts[n].Plan? && RecordedCount(TrafficEvents(ts[..n], est)) <= CAPACITY
    ensures var keyed, now := ts[n].turn.keyed, ts[n].now;
            PlanOf(states[n].entries, keyed.req, keyed.keyId, est, now).usage.read ==
            match LastCommitOf(ts[..n], ts[n].turn.conversation)
            case Some(last) =>
              if now < ExpiryOf(last) then AsI32(Covered(Segments(last.req, keyed.keyId, est))) else 0
            case None => 0
  {
    var events := TrafficEvents(ts, est);
    assert TrafficEvents(ts[..n], est) == events[..n];
    RunPrefix(states, events, n);
    SmallRunsEvictNothing(states[..n + 1], events[..n]);
    forall i | 0 <= i < n && ts[i].Commit?
      ensures ts[i].evicted == {}
    {
      assert events[..n][i] in events[..n];
    }
    EachReadsItsOwn(states, ts, est, n);
  }
}
