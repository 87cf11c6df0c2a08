/** The usage plan of one request (`compute_cache_usage`) and what conversations read back. */
module CachePlan {
  import opened Basics
  import opened Wrappers
  import opened Types
  import opened CacheSplit
  import opened CacheTable
  import opened CacheSegments
  import opened CacheChain
  import Json

  datatype Commit = Commit(segs: seq<Segment>, ttl: int)

  /** `commit` is what a successful request writes to the cache. */
  datatype Plan = Plan(usage: CacheUsage, commit: Option<Commit>)

  /** An unsigned 32-bit count cast to a signed one wraps. */
  function AsI32(n: nat): int {
    if n <= I32_MAX then n else n - 0x1_0000_0000
  }

  /** The index of the deepest segment that hits, or -1. */
  function DeepestHit(entries: Table, segs: seq<Segment>, now: int): int
    decreases |segs|
  {
    if segs == [] then -1
    else if HitAt(entries, segs[|segs| - 1].key, now) then |segs| - 1
    else DeepestHit(entries, segs[..|segs| - 1], now)
  }

  lemma {:induction false} DeepestHitMeaning(entries: Table, segs: seq<Segment>, now: int)
    ensures var i := DeepestHit(entries, segs, now);
            && -1 <= i < |segs|
            && (i >= 0 ==> HitAt(entries, segs[i].key, now))
            && forall j | i < j < |segs| :: !HitAt(entries, segs[j].key, now)
    decreases |segs|
  {
    if segs != [] && !HitAt(entries, segs[|segs| - 1].key, now) {
      DeepestHitMeaning(entries, segs[..|segs| - 1], now);
    }
  }

  function Covered(segs: seq<Segment>): nat {
    if segs == [] then 0 else segs[|segs| - 1].tokens
  }

  /** Tokens of the deepest segment that hits. */
  function ReadTokens(entries: Table, segs: seq<Segment>, now: int): nat {
    var hit := DeepestHit(entries, segs, now);
    DeepestHitMeaning(entries, segs, now);
    if hit < 0 then 0 else segs[hit].tokens
  }

  function PlanOf(entries: Table, req: MessagesRequest, keyId: nat, est: Estimators, now: int): Plan {
    var segs, prompt := Segments(req, keyId, est), FinalMeter(req, keyId, est).promptTokens;
    Plan(CacheUsage(AsI32(ReadTokens(entries, segs, now)), AsI32(Covered(segs)), AsI32(prompt)),
         if segs == [] then None else Some(Commit(segs, RequestTtl(req))))
  }

  lemma {:induction false} SegmentTtl(m: Meter, ops: seq<Op>, enabled: bool, ttl: int)
    requires m.segs == []
    ensures forall s <- RunOps(m, ops, enabled, ttl).segs :: s.ttl == ttl
    decreases |ops|
  {
    if ops != [] {
      SegmentTtl(m, ops[..|ops| - 1], enabled, ttl);
    }
  }

  lemma {:induction false} DeepestHitIs(entries: Table, segs: seq<Segment>, now: int, i: int)
    requires -1 <= i < |segs| && (i >= 0 ==> HitAt(entries, segs[i].key, now))
    requires forall j | i < j < |segs| :: !HitAt(entries, segs[j].key, now)
    ensures DeepestHit(entries, segs, now) == i
    decreases |segs|
  {
    if i < |segs| - 1 {
      DeepestHitIs(entries, segs[..|segs| - 1], now, i);
    }
  }

  /** `results.iter().rposition(|r| r.hit)`, or -1. */
  method LastTrue(hits: seq<bool>) returns (i: int)
    ensures -1 <= i < |hits| && (i >= 0 ==> hits[i]) && forall j | i < j < |hits| :: !hits[j]
  {
    i := |hits| - 1;
    while i >= 0 && !hits[i]
      invariant -1 <= i < |hits|
      invariant forall j | i < j < |hits| :: !hits[j]
    {
      i := i - 1;
    }
  }

  /** Looking up a request plans its usage and writes no new segment. */
  method ComputeCacheUsage(cache: CacheMeter, req: MessagesRequest, keyId: nat, est: Estimators, now: int)
    returns (plan: Plan)
    modifies cache`entries
    ensures plan == PlanOf(old(cache.entries), req, keyId, est, now)
    ensures Step(old(cache.View()), LookedUp(now, Segments(req, keyId, est)), cache.View())
  {
    ghost var was := cache.entries;
    var segs, prompt, enabled := ExtractSegments(req, keyId, est);
    if segs == [] {
      assert Touched(was, [], now) == was;
      return Plan(CacheUsage(0, 0, AsI32(prompt)), None);
    }
    if !enabled {
      DisabledHasNoSegments(StartMeter(req, keyId), RequestOps(req, est), RequestTtl(req));
    }
    var hits := cache.Lookup(segs, now);
    var deepest := LastTrue(hits);
    DeepestHitIs(was, segs, now, deepest);
    var covered := segs[|segs| - 1].tokens;
    var read := if deepest >= 0 then segs[deepest].tokens else 0;
    SegmentTtl(StartMeter(req, keyId), RequestOps(req, est), enabled, RequestTtl(req));
    assert segs[0] in segs;
    plan := Plan(CacheUsage(AsI32(read), AsI32(covered), AsI32(prompt)),
                 if enabled then Some(Commit(segs, segs[0].ttl)) else None);
  }

  /** Only success writes the planned segments. */
  method CommitSuccess(plan: Plan, cache: CacheMeter, now: int) returns (ghost evicted: set<string>)
    modifies cache`entries, cache`dirty
    ensures plan.commit.None? ==> cache.View() == old(cache.View())
    ensures plan.commit.Some? ==>
              var commit := plan.commit.value;
              Step(old(cache.View()), Recorded(now, commit.segs, commit.ttl, evicted), cache.View())
  {
    evicted := {};
    match plan.commit {
      case Some(commit) => evicted := cache.Record(commit.segs, commit.ttl, now);
      case None =>
    }
  }

  // ----- Ordering of the three estimates -----

  /** A plan orders read, covered and prompt estimates exactly when the prompt estimate fits a
      signed 32-bit integer. */
  lemma PlanOrdered(entries: Table, req: MessagesRequest, keyId: nat, est: Estimators, now: int)
    ensures PlanOf(entries, req, keyId, est, now).usage.Ordered() <==>
            FinalMeter(req, keyId, est).promptTokens <= I32_MAX
  {
    var segs := Segments(req, keyId, est);
    SegmentsIncrease(req, keyId, est);
    DeepestHitMeaning(entries, segs, now);
    if segs != [] {
      assert segs[|segs| - 1] in segs;
      var hit := DeepestHit(entries, segs, now);
      if hit >= 0 {
        assert segs[hit] in segs;
        assert segs[hit].tokens <= segs[|segs| - 1].tokens;
      }
    }
  }

  /** An image block without a source, `n` times. */
  function Images(n: nat): seq<Json.Value> {
    seq(n, i => BARE_IMAGE)
  }

  const BARE_IMAGE: Json.Value := Json.Obj(map["type" := Json.Str("image")])

  function ImageRequest(n: nat): MessagesRequest {
    MessagesRequest("", [Message("user", Json.Arr(Images(n)))], None, None, None)
  }

  /** What an image costs whose size cannot be read. */
  const IMAGE_TOKEN_FALLBACK: nat := 1600

  lemma BareImageOp(est: Estimators)
    requires est.image("", "") == IMAGE_TOKEN_FALLBACK
    ensures BlockOp(BARE_IMAGE, est).Feed? && BlockOp(BARE_IMAGE, est).tokens == IMAGE_TOKEN_FALLBACK
    ensures Json.Get(BARE_IMAGE, "cache_control").None?
  {
  }

  lemma {:induction false} ImagesCost(m: Meter, n: nat, est: Estimators, enabled: bool, ttl: int)
    requires est.image("", "") == IMAGE_TOKEN_FALLBACK
    requires m.promptTokens + IMAGE_TOKEN_FALLBACK * n <= U32_MAX
    ensures RunOps(m, BlockOps(Images(n), est), enabled, ttl).promptTokens == m.promptTokens + IMAGE_TOKEN_FALLBACK * n
  {
    if n > 0 {
      BareImageOp(est);
      ImagesCost(m, n - 1, est, enabled, ttl);
      assert Images(n)[..n - 1] == Images(n - 1);
      var op := BlockOp(BARE_IMAGE, est);
      assert BlockOps(Images(n), est) == BlockOps(Images(n - 1), est) + [op];
      RunOpsSnoc(m, BlockOps(Images(n - 1), est), op, enabled, ttl);
    }
  }

  lemma ImageRequestOps(n: nat, est: Estimators)
    ensures RequestOps(ImageRequest(n), est) == [Mark, Feed("user", 0)] + BlockOps(Images(n), est)
  {
    var msgs := ImageRequest(n).messages;
    assert msgs[..0] == [];
    assert HeadOps(ImageRequest(n), est) == [Mark];
    assert ConversationOps(msgs, est) == [] + [] + MessageOps(msgs[0], est);
  }

  /** Enough images whose size cannot be read, and the plan is out of order: from the 1,342,178th
      on their cost no longer fits a signed 32-bit integer. */
  lemma ManyImagesBreakTheOrder(n: nat, entries: Table, keyId: nat, est: Estimators, now: int)
    requires est.image("", "") == IMAGE_TOKEN_FALLBACK
    requires I32_MAX < IMAGE_TOKEN_FALLBACK * n <= U32_MAX
    ensures !PlanOf(entries, ImageRequest(n), keyId, est, now).usage.Ordered()
  {
    var req, m := ImageRequest(n), StartMeter(ImageRequest(n), keyId);
    var enabled, ttl := IsolationSeed(req, keyId).Some?, RequestTtl(req);
    ImageRequestOps(n, est);
    var head := [Mark, Feed("user", 0)];
    RunOpsAppend(m, head, BlockOps(Images(n), est), enabled, ttl);
    assert RunOps(m, head, enabled, ttl).promptTokens == 0 by {
      RunOpsSnoc(m, [Mark], Feed("user", 0), enabled, ttl);
      RunOpsSnoc(m, [], Mark, enabled, ttl);
      assert [] + [Mark] == [Mark] && [Mark] + [Feed("user", 0)] == head;
    }
    ImagesCost(RunOps(m, head, enabled, ttl), n, est, enabled, ttl);
    PlanOrdered(entries, req, keyId, est, now);
  }

  // ----- Conversations -----

  /** What happens to the cache: a turn is planned, a planned turn succeeds, or something else. */
  datatype Act =
    | Planned(req: MessagesRequest, now: int)
    | Committed(req: MessagesRequest, now: int, evicted: set<string>)
    | Other(event: Event)

  function EventOf(act: Act, keyId: nat, est: Estimators): Event {
    match act
    case Planned(req, now) => LookedUp(now, Segments(req, keyId, est))
    case Committed(req, now, evicted) => Recorded(now, Segments(req, keyId, est), RequestTtl(req), evicted)
    case Other(event) => event
  }

  function Events(acts: seq<Act>, keyId: nat, est: Estimators): seq<Event> {
    seq(|acts|, i requires 0 <= i < |acts| => EventOf(acts[i], keyId, est))
  }

  datatype CommittedTurn = CommittedTurn(req: MessagesRequest, at: int)

  function LastCommit(acts: seq<Act>): Option<CommittedTurn> {
    if acts == [] then None
    else
      match acts[|acts| - 1]
      case Committed(req, now, _) => Some(CommittedTurn(req, now))
      case _ => LastCommit(acts[..|acts| - 1])
  }

  /** Nothing but the conversation's own commits records its keys, and none of them is evicted. */
  ghost predicate Undisturbed(acts: seq<Act>, segs: seq<Segment>) {
    forall act <- acts, s <- segs ::
      && (act.Committed? ==> s.key !in act.evicted)
      && (act.Other? && act.event.Recorded? ==> !HasKey(act.event.segs, s.key) && s.key !in act.event.evicted)
  }

  /** Committed turns continue each other, and the present turn continues all of them. */
  ghost predicate OneConversation(acts: seq<Act>, req: MessagesRequest, keyId: nat) {
    && (forall act <- acts | act.Committed? :: Continues(act.req, req, keyId))
    && (forall i, j | 0 <= i < j < |acts| && acts[i].Committed? && acts[j].Committed? ::
          Continues(acts[i].req, acts[j].req, keyId))
  }

  lemma ChainAt(a: seq<Segment>, b: seq<Segment>)
    requires Chain(a) <= Chain(b)
    ensures |a| <= |b|
    ensures forall j | 0 <= j < |a| :: a[j].key == b[j].key && a[j].tokens == b[j].tokens
  {
    assert |Chain(a)| <= |Chain(b)|;
    forall j | 0 <= j < |a|
      ensures a[j].key == b[j].key && a[j].tokens == b[j].tokens
    {
      assert Chain(a)[j] == Chain(b)[j];
      assert Chain(a)[j] == Link(a[j].key, a[j].tokens) && Chain(b)[j] == Link(b[j].key, b[j].tokens);
    }
  }

  lemma HeldPrefix(a: seq<Segment>, b: seq<Segment>, i: nat)
    requires Chain(a) <= Chain(b) && Increasing(b) && i < |b|
    ensures HasKey(a, b[i].key) <==> i < |a|
  {
    ChainAt(a, b);
    if i < |a| {
      assert a[i] in a;
    }
    if HasKey(a, b[i].key) {
      var s :| s in a && s.key == b[i].key;
      var j :| 0 <= j < |a| && a[j] == s;
      assert j == i;
    }
  }

  /** Of a chain, an earlier turn of the conversation holds exactly the first links. */
  lemma EarlierTurnHolds(earlier: MessagesRequest, later: MessagesRequest, keyId: nat, est: Estimators, i: nat)
    requires Continues(earlier, later, keyId)
    requires i < |Segments(later, keyId, est)|
    ensures |Segments(earlier, keyId, est)| <= |Segments(later, keyId, est)|
    ensures HasKey(Segments(earlier, keyId, est), Segments(later, keyId, est)[i].key) <==>
            i < |Segments(earlier, keyId, est)|
    ensures i < |Segments(earlier, keyId, est)| ==>
              Segments(earlier, keyId, est)[i].tokens == Segments(later, keyId, est)[i].tokens
  {
    ChainGrows(earlier, later, keyId, est);
    SegmentsIncrease(later, keyId, est);
    ChainAt(Segments(earlier, keyId, est), Segments(later, keyId, est));
    HeldPrefix(Segments(earlier, keyId, est), Segments(later, keyId, est), i);
  }

  lemma {:induction false} NeverRecordedIsDead(events: seq<Event>, key: string, now: int)
    requires forall e <- events | e.Recorded? :: !HasKey(e.segs, key)
    ensures !Live(events, key, now)
    decreases |events|
  {
    if events != [] {
      assert events[|events| - 1] in events;
      NeverRecordedIsDead(events[..|events| - 1], key, now);
    }
  }

  lemma {:induction false} LastRecordDecides(events: seq<Event>, p: nat, key: string, now: int)
    requires p < |events| && events[p].Recorded?
    requires HasKey(events[p].segs, key) && key !in events[p].evicted
    requires forall j | p < j < |events| && events[j].Recorded? ::
               !HasKey(events[j].segs, key) && key !in events[j].evicted
    ensures Live(events, key, now) <==> now < events[p].now + ClampTtl(events[p].ttl)
    decreases |events|
  {
    if p < |events| - 1 {
      LastRecordDecides(events[..|events| - 1], p, key, now);
    }
  }

  lemma {:induction false} LastCommitPlace(acts: seq<Act>) returns (p: nat)
    requires LastCommit(acts).Some?
    ensures p < |acts| && acts[p].Committed?
    ensures LastCommit(acts).value == CommittedTurn(acts[p].req, acts[p].now)
    ensures forall j | p < j < |acts| :: !acts[j].Committed?
    decreases |acts|
  {
    if acts[|acts| - 1].Committed? {
      p := |acts| - 1;
    } else {
      p := LastCommitPlace(acts[..|acts| - 1]);
    }
  }

  lemma {:induction false} NoCommit(acts: seq<Act>)
    requires LastCommit(acts).None?
    ensures forall act <- acts :: !act.Committed?
    decreases |acts|
  {
    if acts != [] {
      NoCommit(acts[..|acts| - 1]);
    }
  }

  /** The premises under which a conversation is followed: see `TurnReadsLastCommit`. */
  ghost predicate Followed(
    states: seq<State>, acts: seq<Act>, req: MessagesRequest, keyId: nat, est: Estimators, now: int)
  {
    && Run(states, Events(acts, keyId, est))
    && (acts != [] ==> EventOf(acts[|acts| - 1], keyId, est).now <= now)
    && Undisturbed(acts, Segments(req, keyId, est))
    && OneConversation(acts, req, keyId)
  }

  /** The end of the time to live that a committed turn asked for. */
  function ExpiryOf(last: CommittedTurn): int {
    last.at + ClampTtl(RequestTtl(last.req))
  }

  /** A segment the last committed turn has is live until that turn expires. */
  lemma HeldIsLive(acts: seq<Act>, p: nat, req: MessagesRequest, keyId: nat, est: Estimators, now: int, seg: Segment)
    requires p < |acts| && acts[p].Committed?
    requires forall j | p < j < |acts| :: !acts[j].Committed?
    requires Undisturbed(acts, Segments(req, keyId, est)) && seg in Segments(req, keyId, est)
    requires HasKey(Segments(acts[p].req, keyId, est), seg.key)
    ensures Live(Events(acts, keyId, est), seg.key, now) <==> now < ExpiryOf(CommittedTurn(acts[p].req, acts[p].now))
  {
    var events := Events(acts, keyId, est);
    assert acts[p] in acts;
    forall j | p < j < |acts| && events[j].Recorded?
      ensures !HasKey(events[j].segs, seg.key) && seg.key !in events[j].evicted
    {
      assert acts[j] in acts;
    }
    LastRecordDecides(events, p, seg.key, now);
  }

  /** A segment no committed turn has is not live. */
  lemma UnheldIsDead(acts: seq<Act>, req: MessagesRequest, keyId: nat, est: Estimators, now: int, seg: Segment)
    requires Undisturbed(acts, Segments(req, keyId, est)) && seg in Segments(req, keyId, est)
    requires forall act <- acts | act.Committed? :: !HasKey(Segments(act.req, keyId, est), seg.key)
    ensures !Live(Events(acts, keyId, est), seg.key, now)
  {
    var events := Events(acts, keyId, est);
    forall e | e in events && e.Recorded?
      ensures !HasKey(e.segs, seg.key)
    {
      var j :| 0 <= j < |acts| && events[j] == e;
      assert acts[j] in acts;
    }
    NeverRecordedIsDead(events, seg.key, now);
  }

  /** What the last committed turn lacks, no earlier one has. */
  lemma BeyondLastCommit(acts: seq<Act>, p: nat, req: MessagesRequest, keyId: nat, est: Estimators, i: nat)
    requires p < |acts| && acts[p].Committed?
    requires forall j | p < j < |acts| :: !acts[j].Committed?
    requires OneConversation(acts, req, keyId)
    requires |Segments(acts[p].req, keyId, est)| <= i < |Segments(req, keyId, est)|
    ensures forall act <- acts | act.Committed? ::
              !HasKey(Segments(act.req, keyId, est), Segments(req, keyId, est)[i].key)
  {
    forall act | act in acts && act.Committed?
      ensures !HasKey(Segments(act.req, keyId, est), Segments(req, keyId, est)[i].key)
    {
      var j :| 0 <= j < |acts| && acts[j] == act;
      EarlierTurnHolds(act.req, req, keyId, est, i);
      if j < p {
        ChainGrows(act.req, acts[p].req, keyId, est);
        ChainAt(Segments(act.req, keyId, est), Segments(acts[p].req, keyId, est));
      }
    }
  }

  /** With `p` the last commit, segment `i` of the present turn is live exactly when that turn has it and has not
      expired. */
  lemma CommittedIsLive(
    acts: seq<Act>, p: nat, req: MessagesRequest, keyId: nat, est: Estimators, now: int, i: nat)
    requires p < |acts| && acts[p].Committed?
    requires forall j | p < j < |acts| :: !acts[j].Committed?
    requires Undisturbed(acts, Segments(req, keyId, est)) && OneConversation(acts, req, keyId)
    requires i < |Segments(req, keyId, est)|
    ensures Live(Events(acts, keyId, est), Segments(req, keyId, est)[i].key, now) <==>
            i < |Segments(acts[p].req, keyId, est)| && now < ExpiryOf(CommittedTurn(acts[p].req, acts[p].now))
  {
    var seg := Segments(req, keyId, est)[i];
    assert seg in Segments(req, keyId, est) && acts[p] in acts;
    assert Continues(acts[p].req, req, keyId);
    hide Segments, Undisturbed, OneConversation, Events, Live, Continues;
    if i < |Segments(acts[p].req, keyId, est)| {
      EarlierTurnHolds(acts[p].req, req, keyId, est, i);
      HeldIsLive(acts, p, req, keyId, est, now, seg);
    } else {
      BeyondLastCommit(acts, p, req, keyId, est, i);
      UnheldIsDead(acts, req, keyId, est, now, seg);
    }
  }

  lemma FollowedHits(
    states: seq<State>, acts: seq<Act>, req: MessagesRequest, keyId: nat, est: Estimators, now: int, key: string)
    requires Followed(states, acts, req, keyId, est, now)
    ensures HitAt(states[|acts|].entries, key, now) <==> Live(Events(acts, keyId, est), key, now)
  {
    hide Segments, Undisturbed, OneConversation, HitAt, Live;
    LookupMatchesHistory(states, Events(acts, keyId, est), key, now);
  }

  /** Segment `i` of the present turn hits exactly when the last committed turn has it and has not expired. */
  lemma SegmentHits(
    states: seq<State>, acts: seq<Act>, req: MessagesRequest, keyId: nat, est: Estimators, now: int, i: nat)
    requires Followed(states, acts, req, keyId, est, now)
    requires i < |Segments(req, keyId, est)|
    ensures HitAt(states[|acts|].entries, Segments(req, keyId, est)[i].key, now) <==>
            && LastCommit(acts).Some? && now < ExpiryOf(LastCommit(acts).value)
            && i < |Segments(LastCommit(acts).value.req, keyId, est)|
  {
    var seg := Segments(req, keyId, est)[i];
    assert seg in Segments(req, keyId, est);
    FollowedHits(states, acts, req, keyId, est, now, seg.key);
    hide Segments, Undisturbed, OneConversation, HitAt, Live, Run, Events;
    if LastCommit(acts).None? {
      NoCommit(acts);
      UnheldIsDead(acts, req, keyId, est, now, seg);
    } else {
      var p := LastCommitPlace(acts);
      CommittedIsLive(acts, p, req, keyId, est, now, i);
    }
  }

  /** The promise of the simulated cache.  In any run in which other traffic leaves the
      conversation's keys alone, a turn reads exactly what the last committed turn covered, until
      that turn expires; after that, or when no turn was committed, it reads nothing.  Turns that
      were planned but failed change nothing. */
  lemma TurnReadsLastCommit(
    states: seq<State>, acts: seq<Act>, req: MessagesRequest, keyId: nat, est: Estimators, now: int)
    requires Followed(states, acts, req, keyId, est, now)
    ensures PlanOf(states[|acts|].entries, req, keyId, est, now).usage.read ==
            match LastCommit(acts)
            case Some(last) =>
              if now < ExpiryOf(last) then PlanOf(states[|acts|].entries, last.req, keyId, est, now).usage.covered
              else 0
            case None => 0
  {
    var segs, entries := Segments(req, keyId, est), states[|acts|].entries;
    var held := if LastCommit(acts).Some? && now < ExpiryOf(LastCommit(acts).value)
                then Segments(LastCommit(acts).value.req, keyId, est) else [];
    forall i | 0 <= i < |segs|
      ensures HitAt(entries, segs[i].key, now) <==> i < |held|
    {
      SegmentHits(states, acts, req, keyId, est, now, i);
    }
    if LastCommit(acts).Some? {
      var p := LastCommitPlace(acts);
      assert acts[p] in acts;
      ChainGrows(acts[p].req, req, keyId, est);
    }
    ReadIsCovered(entries, segs, held, now);
  }

  lemma ReadIsCovered(entries: Table, segs: seq<Segment>, held: seq<Segment>, now: int)
    requires Chain(held) <= Chain(segs)
    requires forall i | 0 <= i < |segs| :: HitAt(entries, segs[i].key, now) <==> i < |held|
    ensures ReadTokens(entries, segs, now) == Covered(held)
  {
    ChainAt(held, segs);
    DeepestHitMeaning(entries, segs, now);
  }
}
