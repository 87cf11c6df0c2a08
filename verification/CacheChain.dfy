/** Properties of the prefix chain of a request: its links grow strictly, they are exactly the
    marked boundaries, a longer conversation has a longer chain, and client keys do not share links. */
module CacheChain {
  import opened Basics
  import opened Wrappers
  import opened Types
  import opened CacheTable
  import opened CacheSegments
  import Json

  /** A link of the chain: a segment without its time to live. */
  datatype Link = Link(key: string, tokens: nat)

  function Chain(segs: seq<Segment>): seq<Link> {
    seq(|segs|, i requires 0 <= i < |segs| => Link(segs[i].key, segs[i].tokens))
  }

  // ----- The chain grows strictly -----

  /** Later segments have strictly longer keys and no fewer tokens. */
  ghost predicate Increasing(segs: seq<Segment>) {
    && (forall i | 0 <= i < |segs| :: segs[i].tokens > 0)
    && (forall i, j | 0 <= i < j < |segs| :: |segs[i].key| < |segs[j].key| && segs[i].tokens <= segs[j].tokens)
  }

  ghost predicate Sound(m: Meter) {
    && Increasing(m.segs)
    && (forall i | 0 <= i < |m.segs| :: m.segs[i].key <= m.text && m.segs[i].tokens <= m.cacheTokens)
    && (m.segs != [] && m.segs[|m.segs| - 1].key == m.text ==> m.segs[|m.segs| - 1].tokens == m.cacheTokens)
    && m.cacheTokens <= m.promptTokens <= U32_MAX
  }

  /** Tokens are only counted for text that reaches the digest. */
  predicate Honest(op: Op) {
    op.Feed? && op.tokens > 0 ==> op.text != ""
  }

  lemma ApplySound(m: Meter, op: Op, enabled: bool, ttl: int)
    requires Sound(m) && Honest(op)
    ensures Sound(Apply(m, op, enabled, ttl))
  {
    var m' := Apply(m, op, enabled, ttl);
    match op {
      case Feed(text, _) =>
        if enabled && text == "" {
          assert m'.text == m.text;
        } else if enabled {
          forall i | 0 <= i < |m.segs|
            ensures m.segs[i].key <= m'.text && m.segs[i].key != m'.text
          {
            assert m.segs[i].key <= m.text;
            assert m'.text == m.text + text;
          }
        }
      case Uncached(_) =>
      case Mark =>
        if enabled {
          CommitSound(m, ttl);
        }
    }
  }

  lemma PrefixShorter(a: string, b: string)
    requires a <= b && a != b
    ensures |a| < |b|
  {
  }

  lemma IncreasingSnoc(segs: seq<Segment>, seg: Segment)
    requires Increasing(segs) && seg.tokens > 0
    requires segs != [] ==> |segs[|segs| - 1].key| < |seg.key| && segs[|segs| - 1].tokens <= seg.tokens
    ensures Increasing(segs + [seg])
  {
    var all, n := segs + [seg], |segs|;
    forall i, j | 0 <= i < j < |all|
      ensures |all[i].key| < |all[j].key| && all[i].tokens <= all[j].tokens
    {
      if j == n && i < n - 1 {
        assert |segs[i].key| < |segs[n - 1].key| && segs[i].tokens <= segs[n - 1].tokens;
      }
    }
  }

  lemma SameLinksIncrease(a: seq<Segment>, b: seq<Segment>)
    requires Increasing(a) && |a| == |b|
    requires forall i | 0 <= i < |a| :: a[i].key == b[i].key && a[i].tokens == b[i].tokens
    ensures Increasing(b)
  {
  }

  lemma CommitSound(m: Meter, ttl: int)
    requires Sound(m)
    ensures Sound(Commit(m, ttl))
  {
    var m', n := Commit(m, ttl), |m.segs|;
    if |m'.segs| > n {
      if n > 0 {
        PrefixShorter(m.segs[n - 1].key, m.text);
      }
      IncreasingSnoc(m.segs, m'.segs[n]);
    } else {
      SameLinksIncrease(m.segs, m'.segs);
    }
  }

  lemma {:induction false} RunSound(m: Meter, ops: seq<Op>, enabled: bool, ttl: int)
    requires Sound(m) && forall op <- ops :: Honest(op)
    ensures Sound(RunOps(m, ops, enabled, ttl))
    decreases |ops|
  {
    if ops != [] {
      RunSound(m, ops[..|ops| - 1], enabled, ttl);
      ApplySound(RunOps(m, ops[..|ops| - 1], enabled, ttl), ops[|ops| - 1], enabled, ttl);
    }
  }

  lemma BlockOpHonest(v: Json.Value, est: Estimators)
    ensures Honest(BlockOp(v, est))
  {
    assert BlockSignature(v) != "";
  }

  lemma {:induction false} BlockOpsHonest(blocks: seq<Json.Value>, est: Estimators)
    ensures forall op <- BlockOps(blocks, est) :: Honest(op)
    decreases |blocks|
  {
    if blocks != [] {
      BlockOpsHonest(blocks[..|blocks| - 1], est);
      BlockOpHonest(blocks[|blocks| - 1], est);
    }
  }

  lemma MessageOpsHonest(msg: Message, est: Estimators)
    ensures forall op <- MessageOps(msg, est) :: Honest(op)
  {
    if msg.content.Arr? {
      BlockOpsHonest(msg.content.items, est);
    }
  }

  lemma {:induction false} ConversationOpsHonest(messages: seq<Message>, est: Estimators)
    ensures forall op <- ConversationOps(messages, est) :: Honest(op)
    decreases |messages|
  {
    if messages != [] {
      ConversationOpsHonest(messages[..|messages| - 1], est);
      MessageOpsHonest(messages[|messages| - 1], est);
    }
  }

  lemma RequestOpsHonest(req: MessagesRequest, est: Estimators)
    ensures forall op <- RequestOps(req, est) :: Honest(op)
  {
    ConversationOpsHonest(req.messages, est);
    forall op | op in HeadOps(req, est)
      ensures Honest(op)
    {
    }
  }

  /** For every request: keys and cumulative tokens grow along the chain, every count is
      positive, and none exceeds the estimate of the whole prompt. */
  lemma SegmentsIncrease(req: MessagesRequest, keyId: nat, est: Estimators)
    ensures Increasing(Segments(req, keyId, est))
    ensures FinalMeter(req, keyId, est).promptTokens <= U32_MAX
    ensures forall s <- Segments(req, keyId, est) ::
              && s.tokens <= FinalMeter(req, keyId, est).promptTokens
              && s.key <= FinalMeter(req, keyId, est).text
  {
    RequestOpsHonest(req, est);
    RunSound(StartMeter(req, keyId), RequestOps(req, est), IsolationSeed(req, keyId).Some?, RequestTtl(req));
  }

  // ----- The chain is exactly the marked boundaries -----

  function FedText(ops: seq<Op>): string {
    if ops == [] then ""
    else FedText(ops[..|ops| - 1]) + if ops[|ops| - 1].Feed? then ops[|ops| - 1].text else ""
  }

  function FedTokens(ops: seq<Op>): nat {
    if ops == [] then 0
    else FedTokens(ops[..|ops| - 1]) + if ops[|ops| - 1].Feed? then ops[|ops| - 1].tokens else 0
  }

  function Capped(n: nat): nat {
    if n <= U32_MAX then n else U32_MAX
  }

  lemma {:induction false} RunTotals(seed: string, ops: seq<Op>, ttl: int)
    ensures var m := RunOps(Meter(seed, 0, 0, []), ops, true, ttl);
            m.text == seed + FedText(ops) && m.cacheTokens == Capped(FedTokens(ops))
    decreases |ops|
  {
    if ops != [] {
      RunTotals(seed, ops[..|ops| - 1], ttl);
      var m := RunOps(Meter(seed, 0, 0, []), ops[..|ops| - 1], true, ttl);
      if ops[|ops| - 1].Feed? {
        assert m.text + ops[|ops| - 1].text == seed + FedText(ops);
      }
    }
  }

  /** The prefix that ends at the mark number `i` of the operations. */
  function MarkedLink(seed: string, ops: seq<Op>, i: nat): Link
    requires i < |ops|
  {
    Link(seed + FedText(ops[..i]), Capped(FedTokens(ops[..i])))
  }

  ghost predicate IsMarked(seed: string, ops: seq<Op>, link: Link) {
    exists i | 0 <= i < |ops| :: ops[i].Mark? && MarkedLink(seed, ops, i) == link
  }

  lemma IsMarkedSnoc(seed: string, init: seq<Op>, last: Op, link: Link)
    ensures IsMarked(seed, init + [last], link) <==>
            || IsMarked(seed, init, link)
            || (last.Mark? && link == Link(seed + FedText(init), Capped(FedTokens(init))))
  {
    var ops := init + [last];
    assert ops[..|init|] == init;
    forall i | 0 <= i < |init|
      ensures MarkedLink(seed, ops, i) == MarkedLink(seed, init, i) && ops[i] == init[i]
    {
      assert ops[..i] == init[..i];
    }
    if IsMarked(seed, init, link) {
      var i :| 0 <= i < |init| && init[i].Mark? && MarkedLink(seed, init, i) == link;
      assert ops[i].Mark? && MarkedLink(seed, ops, i) == link;
    }
    if last.Mark? && link == Link(seed + FedText(init), Capped(FedTokens(init))) {
      assert ops[|init|].Mark? && MarkedLink(seed, ops, |init|) == link;
    }
  }

  /** A prefix is in the chain exactly when a mark ends it and it costs tokens: its key is the
      seed and all text fed before the mark, its tokens the capped sum of their costs. */
  lemma {:induction false} ChainIsMarks(seed: string, ops: seq<Op>, ttl: int, link: Link)
    ensures link in Chain(RunOps(Meter(seed, 0, 0, []), ops, true, ttl).segs) <==>
            IsMarked(seed, ops, link) && link.tokens > 0
    decreases |ops|
  {
    if ops != [] {
      var init, last := ops[..|ops| - 1], ops[|ops| - 1];
      var m := RunOps(Meter(seed, 0, 0, []), init, true, ttl);
      assert ops == init + [last];
      ChainIsMarks(seed, init, ttl, link);
      IsMarkedSnoc(seed, init, last, link);
      RunTotals(seed, init, ttl);
      if last.Mark? {
        CommitLinks(m, ttl, link);
      }
    }
  }

  lemma CommitLinks(m: Meter, ttl: int, link: Link)
    ensures link in Chain(Commit(m, ttl).segs) <==>
            link in Chain(m.segs) || (m.cacheTokens > 0 && link == Link(m.text, m.cacheTokens))
  {
    var m', n := Commit(m, ttl), |m.segs|;
    if m.cacheTokens > 0 {
      if |m'.segs| == n {
        assert Chain(m'.segs) == Chain(m.segs);
        assert Chain(m.segs)[n - 1] == Link(m.text, m.cacheTokens);
      } else {
        assert Chain(m'.segs) == Chain(m.segs) + [Link(m.text, m.cacheTokens)];
      }
    }
  }

  // ----- Later turns extend the chain -----

  /** Equal up to what the chain does not show: prompt estimate and times to live. */
  ghost predicate Alike(m: Meter, m': Meter) {
    m.text == m'.text && m.cacheTokens == m'.cacheTokens && Chain(m.segs) == Chain(m'.segs)
  }

  lemma CommitChain(m: Meter, ttl: int)
    ensures var link, chain := Link(m.text, m.cacheTokens), Chain(m.segs);
            Chain(Commit(m, ttl).segs) ==
            if m.cacheTokens == 0 || (chain != [] && chain[|chain| - 1] == link) then chain else chain + [link]
  {
  }

  lemma ApplyAlike(m: Meter, m': Meter, op: Op, ttl: int, ttl': int)
    requires Alike(m, m')
    ensures Alike(Apply(m, op, true, ttl), Apply(m', op, true, ttl'))
    ensures Chain(m.segs) <= Chain(Apply(m, op, true, ttl).segs)
  {
    if op.Mark? {
      CommitChain(m, ttl);
      CommitChain(m', ttl');
    }
  }

  lemma {:induction false} RunAlike(m: Meter, m': Meter, ops: seq<Op>, ttl: int, ttl': int)
    requires Alike(m, m')
    ensures Alike(RunOps(m, ops, true, ttl), RunOps(m', ops, true, ttl'))
    ensures Chain(m.segs) <= Chain(RunOps(m, ops, true, ttl).segs)
    decreases |ops|
  {
    if ops != [] {
      var init := ops[..|ops| - 1];
      RunAlike(m, m', init, ttl, ttl');
      ApplyAlike(RunOps(m, init, true, ttl), RunOps(m', init, true, ttl'), ops[|ops| - 1], ttl, ttl');
    }
  }

  lemma {:induction false} UncachedAlike(m: Meter, ops: seq<Op>, ttl: int)
    requires forall op <- ops :: op.Uncached?
    ensures Alike(m, RunOps(m, ops, true, ttl))
    decreases |ops|
  {
    if ops != [] {
      UncachedAlike(m, ops[..|ops| - 1], ttl);
      assert ops[|ops| - 1] in ops;
    }
  }

  /** The texts of the system part that is cached: from the first cache control on. */
  function CachedTexts(req: MessagesRequest): seq<string> {
    var systems := req.system.GetOr([]);
    var k := SkipUntil(systems);
    SkipBound(systems);
    seq(|systems| - k, i requires 0 <= i < |systems| - k => systems[k + i].text)
  }

  lemma {:induction false} SkipBound(systems: seq<SystemMessage>)
    ensures SkipUntil(systems) <= |systems|
  {
    FirstControlBound(systems);
  }

  lemma {:induction false} FirstControlBound(systems: seq<SystemMessage>)
    ensures FirstControl(systems) <= |systems|
  {
    if systems != [] && !systems[0].cacheControl.Some? {
      FirstControlBound(systems[1..]);
    }
  }

  function TextOps(texts: seq<string>, est: Estimators): seq<Op> {
    seq(|texts|, i requires 0 <= i < |texts| => Feed("sys:" + texts[i], TextTokens(est, texts[i])))
  }

  lemma SystemAlike(m: Meter, req: MessagesRequest, est: Estimators, ttl: int)
    ensures Alike(RunOps(m, TextOps(CachedTexts(req), est), true, ttl),
                  RunOps(m, SystemOps(req.system.GetOr([]), est), true, ttl))
  {
    hide RunOps, Alike;
    var systems := req.system.GetOr([]);
    var k, ops := SkipUntil(systems), SystemOps(systems, est);
    SkipBound(systems);
    assert ops == ops[..k] + ops[k..];
    assert ops[k..] == TextOps(CachedTexts(req), est);
    RunOpsAppend(m, ops[..k], ops[k..], true, ttl);
    UncachedAlike(m, ops[..k], ttl);
    RunAlike(m, RunOps(m, ops[..k], true, ttl), ops[k..], ttl, ttl);
  }

  predicate SameTool(a: Tool, b: Tool) {
    a.name == b.name && a.description == b.description && a.inputSchema == b.inputSchema
  }

  predicate SameTools(a: seq<Tool>, b: seq<Tool>) {
    |a| == |b| && forall i | 0 <= i < |a| :: SameTool(a[i], b[i])
  }

  /** Equal blocks, or tool calls and tool results that differ in their ids only. */
  predicate SameBlock(a: Json.Value, b: Json.Value) {
    || a == b
    || (a.Obj? && b.Obj? && Json.StrField(a, "type") == "tool_use" && a.fields - {"id"} == b.fields - {"id"})
    || (a.Obj? && b.Obj? && Json.StrField(a, "type") == "tool_result"
        && a.fields - {"tool_use_id"} == b.fields - {"tool_use_id"})
  }

  predicate SameMessage(a: Message, b: Message) {
    && a.role == b.role
    && (|| a.content == b.content
        || (&& a.content.Arr? && b.content.Arr? && |a.content.items| == |b.content.items|
            && forall i | 0 <= i < |a.content.items| :: SameBlock(a.content.items[i], b.content.items[i])))
  }

  /** A later turn of a conversation: the same seed, tools and cached system part, and messages
      that continue the earlier ones, tool ids aside. */
  predicate Continues(earlier: MessagesRequest, later: MessagesRequest, keyId: nat) {
    && IsolationSeed(earlier, keyId) == IsolationSeed(later, keyId)
    && SameTools(earlier.tools.GetOr([]), later.tools.GetOr([]))
    && CachedTexts(earlier) == CachedTexts(later)
    && |earlier.messages| <= |later.messages|
    && forall i | 0 <= i < |earlier.messages| :: SameMessage(earlier.messages[i], later.messages[i])
  }

  lemma KeptField(a: Json.Value, b: Json.Value, dropped: string, key: string)
    requires a.Obj? && b.Obj? && a.fields - {dropped} == b.fields - {dropped} && key != dropped
    ensures Json.Get(a, key) == Json.Get(b, key)
  {
    assert key in a.fields <==> key in a.fields - {dropped};
    assert key in b.fields <==> key in b.fields - {dropped};
    if key in a.fields {
      assert (a.fields - {dropped})[key] == a.fields[key];
      assert (b.fields - {dropped})[key] == b.fields[key];
    }
  }

  /** Tool ids take part neither in the digest nor in the token count. */
  lemma SameBlockSameOps(a: Json.Value, b: Json.Value, est: Estimators)
    requires SameBlock(a, b)
    ensures BlockOp(a, est) == BlockOp(b, est)
    ensures Json.Get(a, "cache_control") == Json.Get(b, "cache_control")
  {
    if a != b {
      var dropped := if Json.StrField(a, "type") == "tool_use" then "id" else "tool_use_id";
      KeptField(a, b, dropped, "type");
      KeptField(a, b, dropped, "cache_control");
      if Json.StrField(a, "type") == "tool_use" {
        KeptField(a, b, dropped, "name");
        KeptField(a, b, dropped, "input");
      } else {
        KeptField(a, b, dropped, "is_error");
        KeptField(a, b, dropped, "content");
      }
    }
  }

  lemma {:induction false} SameBlocksSameOps(a: seq<Json.Value>, b: seq<Json.Value>, est: Estimators)
    requires |a| == |b| && forall i | 0 <= i < |a| :: SameBlock(a[i], b[i])
    ensures BlockOps(a, est) == BlockOps(b, est)
    decreases |a|
  {
    if a != [] {
      SameBlocksSameOps(a[..|a| - 1], b[..|b| - 1], est);
      SameBlockSameOps(a[|a| - 1], b[|b| - 1], est);
    }
  }

  lemma SameMessageSameOps(a: Message, b: Message, est: Estimators)
    requires SameMessage(a, b)
    ensures MessageOps(a, est) == MessageOps(b, est)
  {
    if a.content != b.content {
      SameBlocksSameOps(a.content.items, b.content.items, est);
    }
  }

  lemma {:induction false} SameMessagesSameOps(a: seq<Message>, b: seq<Message>, est: Estimators)
    requires |a| == |b| && forall i | 0 <= i < |a| :: SameMessage(a[i], b[i])
    ensures ConversationOps(a, est) == ConversationOps(b, est)
    decreases |a|
  {
    if a != [] {
      SameMessagesSameOps(a[..|a| - 1], b[..|b| - 1], est);
      SameMessageSameOps(a[|a| - 1], b[|b| - 1], est);
    }
  }

  lemma {:induction false} ConversationPrefix(messages: seq<Message>, n: nat, est: Estimators)
    requires n <= |messages|
    ensures ConversationOps(messages[..n], est) <= ConversationOps(messages, est)
    decreases |messages|
  {
    if n == |messages| {
      assert messages[..n] == messages;
    } else {
      var init := messages[..|messages| - 1];
      ConversationPrefix(init, n, est);
      assert init[..n] == messages[..n];
    }
  }

  lemma HeadsAlike(earlier: MessagesRequest, later: MessagesRequest, m: Meter, est: Estimators, ttl: int, ttl': int)
    requires SameTools(earlier.tools.GetOr([]), later.tools.GetOr([]))
    requires CachedTexts(earlier) == CachedTexts(later)
    ensures Alike(RunOps(m, HeadOps(earlier, est), true, ttl), RunOps(m, HeadOps(later, est), true, ttl'))
  {
    var tools := ToolOps(earlier.tools.GetOr([]), est);
    assert ToolOps(later.tools.GetOr([]), est) == tools;
    var x, y := RunOps(m, tools, true, ttl), RunOps(m, tools, true, ttl');
    RunAlike(m, m, tools, ttl, ttl');
    var texts := TextOps(CachedTexts(earlier), est);
    RunAlike(x, y, texts, ttl, ttl');
    SystemAlike(x, earlier, est, ttl);
    SystemAlike(y, later, est, ttl');
    HeadRun(earlier, m, est, ttl);
    HeadRun(later, m, est, ttl');
    ApplyAlike(RunOps(x, SystemOps(earlier.system.GetOr([]), est), true, ttl),
               RunOps(y, SystemOps(later.system.GetOr([]), est), true, ttl'), Mark, ttl, ttl');
  }

  lemma HeadRun(req: MessagesRequest, m: Meter, est: Estimators, ttl: int)
    ensures RunOps(m, HeadOps(req, est), true, ttl) ==
            Apply(RunOps(RunOps(m, ToolOps(req.tools.GetOr([]), est), true, ttl),
                         SystemOps(req.system.GetOr([]), est), true, ttl), Mark, true, ttl)
  {
    var a, b := ToolOps(req.tools.GetOr([]), est), SystemOps(req.system.GetOr([]), est);
    RunOpsAppend(m, a, b, true, ttl);
    RunOpsSnoc(m, a + b, Mark, true, ttl);
  }

  /** Every turn's chain is a prefix of the chain of every later turn. */
  lemma ChainGrows(earlier: MessagesRequest, later: MessagesRequest, keyId: nat, est: Estimators)
    requires Continues(earlier, later, keyId)
    ensures Chain(Segments(earlier, keyId, est)) <= Chain(Segments(later, keyId, est))
  {
    var start := StartMeter(earlier, keyId);
    if IsolationSeed(earlier, keyId).Some? {
      var ttl, ttl' := RequestTtl(earlier), RequestTtl(later);
      HeadsAlike(earlier, later, start, est, ttl, ttl');
      var x, y := RunOps(start, HeadOps(earlier, est), true, ttl), RunOps(start, HeadOps(later, est), true, ttl');
      MessagesGrow(earlier.messages, later.messages, x, y, est, ttl, ttl');
      RunOpsAppend(start, HeadOps(earlier, est), ConversationOps(earlier.messages, est), true, ttl);
      RunOpsAppend(start, HeadOps(later, est), ConversationOps(later.messages, est), true, ttl');
    } else {
      DisabledHasNoSegments(start, RequestOps(earlier, est), RequestTtl(earlier));
    }
  }

  lemma RunExtends(m: Meter, p: seq<Op>, q: seq<Op>, ttl: int)
    requires p <= q
    ensures Chain(RunOps(m, p, true, ttl).segs) <= Chain(RunOps(m, q, true, ttl).segs)
  {
    var r, z := q[|p|..], RunOps(m, p, true, ttl);
    assert q == p + r;
    RunOpsAppend(m, p, r, true, ttl);
    RunAlike(z, z, r, ttl, ttl);
  }

  lemma MessagesGrow(
    a: seq<Message>, b: seq<Message>, x: Meter, y: Meter, est: Estimators, ttl: int, ttl': int)
    requires |a| <= |b| && forall i | 0 <= i < |a| :: SameMessage(a[i], b[i])
    requires Alike(x, y)
    ensures Chain(RunOps(x, ConversationOps(a, est), true, ttl).segs) <=
            Chain(RunOps(y, ConversationOps(b, est), true, ttl').segs)
  {
    ConversationGrows(a, b, est);
    RunAlike(x, y, ConversationOps(a, est), ttl, ttl');
    RunExtends(y, ConversationOps(a, est), ConversationOps(b, est), ttl');
  }

  lemma ConversationGrows(a: seq<Message>, b: seq<Message>, est: Estimators)
    requires |a| <= |b| && forall i | 0 <= i < |a| :: SameMessage(a[i], b[i])
    ensures ConversationOps(a, est) <= ConversationOps(b, est)
  {
    SameMessagesSameOps(a, b[..|a|], est);
    ConversationPrefix(b, |a|, est);
  }

  /** Without a seed nothing is ever cached. */
  lemma {:induction false} DisabledHasNoSegments(m: Meter, ops: seq<Op>, ttl: int)
    ensures RunOps(m, ops, false, ttl).segs == m.segs
    decreases |ops|
  {
    if ops != [] {
      DisabledHasNoSegments(m, ops[..|ops| - 1], ttl);
    }
  }
}
