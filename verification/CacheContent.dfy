/** What the prefix keys tell apart: two requests that agree up to a block have the same key after it exactly when
    the block says the same, and a committed prefix is not read by a request that says something else. */
module CacheContent {
  import opened Wrappers
  import opened Types
  import opened CacheTable
  import opened CacheSegments
  import opened CacheChain
  import CachePlan
  import Json
  import JsonText
  import JsonLex

  // ----- What a block says, read off its JSON -----

  function ImageField(v: Json.Value, key: string): string {
    if Json.Get(v, "source").Some? then Json.StrField(Json.Get(v, "source").value, key) else ""
  }

  predicate SaysError(v: Json.Value) {
    Json.Get(v, "is_error") == Some(Json.Bool(true))
  }

  /** The same image data; an image without data is told by all its JSON. */
  predicate SameData(v: Json.Value, w: Json.Value) {
    var d, e := ImageField(v, "data"), ImageField(w, "data");
    if d != "" && e != "" then d == e
    else if d == "" && e == "" then v == w
    else if d == "" then JsonText.Text(v) == e else d == JsonText.Text(w)
  }

  /** The two blocks say the same; ids of tool calls and tool results aside. */
  predicate SameContent(v: Json.Value, w: Json.Value) {
    && Json.StrField(v, "type") == Json.StrField(w, "type")
    && match Json.StrField(v, "type")
       case "text" => Json.StrField(v, "text") == Json.StrField(w, "text")
       case "thinking" => Json.StrField(v, "thinking") == Json.StrField(w, "thinking")
       case "redacted_thinking" => Json.StrField(v, "data") == Json.StrField(w, "data")
       case "tool_use" =>
         Json.StrField(v, "name") == Json.StrField(w, "name") && Json.Get(v, "input") == Json.Get(w, "input")
       case "tool_result" =>
         SaysError(v) == SaysError(w) && Json.Get(v, "content") == Json.Get(w, "content")
       case "image" => ImageField(v, "media_type") == ImageField(w, "media_type") && SameData(v, w)
       case _ => v == w
  }

  /** Blocks whose types and media types have no bar in them. */
  predicate Comparable(v: Json.Value, w: Json.Value) {
    && v.Obj? && w.Obj? && JsonText.WellFormed(v) && JsonText.WellFormed(w)
    && '|' !in Json.StrField(v, "type") && '|' !in Json.StrField(w, "type")
    && '|' !in ImageField(v, "media_type") && '|' !in ImageField(w, "media_type")
  }

  lemma Cancel(p: string, a: string, b: string)
    ensures p + a == p + b <==> a == b
  {
    assert (p + a)[|p|..] == a && (p + b)[|p|..] == b;
  }

  lemma NoBarBefore(a: string, x: string)
    requires '|' !in a
    ensures var s := a + "|" + x; s[|a|] == '|' && forall k | 0 <= k < |a| :: s[k] != '|'
  {
    var s := a + "|" + x;
    forall k | 0 <= k < |a|
      ensures s[k] != '|'
    {
      assert s[k] == a[k] && a[k] in a;
    }
  }

  lemma FirstBar(a: string, x: string, b: string, y: string)
    requires '|' !in a && '|' !in b
    ensures a + "|" + x == b + "|" + y <==> a == b && x == y
  {
    NoBarBefore(a, x);
    NoBarBefore(b, y);
    var s, t := a + "|" + x, b + "|" + y;
    if s == t {
      assert |a| == |b|;
      assert s[..|a|] == a && t[..|b|] == b;
      assert s[|a| + 1..] == x && t[|b| + 1..] == y;
    }
  }

  lemma CanonicalLexes(v: Option<Json.Value>)
    requires v.Some? ==> JsonText.WellFormed(v.value)
    ensures JsonLex.Lex(JsonLex.Out, CanonicalOr(v)) == JsonLex.Out
  {
    if v.Some? {
      JsonLex.TextLexes(v.value);
    }
  }

  lemma CanonicalTells(v: Option<Json.Value>, w: Option<Json.Value>)
    requires v.Some? ==> JsonText.WellFormed(v.value)
    requires w.Some? ==> JsonText.WellFormed(w.value)
    ensures CanonicalOr(v) == CanonicalOr(w) <==> v == w
  {
    if v.Some? {
      JsonText.FirstChar(v.value);
    }
    if w.Some? {
      JsonText.FirstChar(w.value);
    }
    if v.Some? && w.Some? {
      JsonText.TextInjective(v.value, w.value);
    }
  }

  /** Two texts with canonical endings after a bar. */
  lemma EndingsTell(a: string, v: Option<Json.Value>, b: string, w: Option<Json.Value>)
    requires v.Some? ==> JsonText.WellFormed(v.value)
    requires w.Some? ==> JsonText.WellFormed(w.value)
    ensures a + "|" + CanonicalOr(v) == b + "|" + CanonicalOr(w) <==> a == b && v == w
  {
    CanonicalLexes(v);
    CanonicalLexes(w);
    CanonicalTells(v, w);
    if a + "|" + CanonicalOr(v) == b + "|" + CanonicalOr(w) {
      JsonLex.BarSplits(a, CanonicalOr(v), b, CanonicalOr(w));
    }
  }

  /** What stands for the image data. */
  function ImageBytes(v: Json.Value): string {
    if ImageField(v, "data") == "" then JsonText.Text(v) else ImageField(v, "data")
  }

  /** What the signature says after the type. */
  function Said(v: Json.Value): string {
    match Json.StrField(v, "type")
    case "text" => Json.StrField(v, "text")
    case "thinking" => Json.StrField(v, "thinking")
    case "redacted_thinking" => Json.StrField(v, "data")
    case "tool_use" => Json.StrField(v, "name") + "|" + CanonicalOr(Json.Get(v, "input"))
    case "tool_result" => (if SaysError(v) then "true" else "false") + "|" + CanonicalOr(Json.Get(v, "content"))
    case "image" => ImageField(v, "media_type") + "|" + ImageBytes(v)
    case _ => JsonText.Text(v)
  }

  lemma Regrouped(p: string, t: string, a: string, x: string)
    ensures p + t + "|" + a + "|" + x == p + t + "|" + (a + "|" + x)
  {
  }

  lemma TextSigned(v: Json.Value)
    requires Json.StrField(v, "type") == "text"
    ensures BlockSignature(v) == "block:" + "text" + "|" + Said(v)
  {
    hide CanonicalOr, ImageSignature, IsErrorText, ImageField, ImageBytes, SaysError, JsonText.Text;
  }

  lemma ThinkingSigned(v: Json.Value)
    requires Json.StrField(v, "type") == "thinking"
    ensures BlockSignature(v) == "block:" + "thinking" + "|" + Said(v)
  {
    hide CanonicalOr, ImageSignature, IsErrorText, ImageField, ImageBytes, SaysError, JsonText.Text;
  }

  lemma RedactedSigned(v: Json.Value)
    requires Json.StrField(v, "type") == "redacted_thinking"
    ensures BlockSignature(v) == "block:" + "redacted_thinking" + "|" + Said(v)
  {
    hide CanonicalOr, ImageSignature, IsErrorText, ImageField, ImageBytes, SaysError, JsonText.Text;
  }

  lemma OtherSigned(v: Json.Value)
    requires var t := Json.StrField(v, "type");
             t != "text" && t != "thinking" && t != "redacted_thinking" && t != "tool_use" && t != "tool_result" &&
             t != "image"
    ensures BlockSignature(v) == "block:" + Json.StrField(v, "type") + "|" + Said(v)
  {
    hide CanonicalOr, ImageSignature, IsErrorText, ImageField, ImageBytes, SaysError, JsonText.Text;
  }

  lemma CallSigned(v: Json.Value)
    requires Json.StrField(v, "type") == "tool_use"
    ensures BlockSignature(v) == "block:" + "tool_use" + "|" + Said(v)
  {
    hide CanonicalOr, ImageSignature, ImageField, ImageBytes, IsErrorText, SaysError;
    Regrouped("block:", "tool_use", Json.StrField(v, "name"), CanonicalOr(Json.Get(v, "input")));
  }

  lemma FlagText(v: Json.Value)
    ensures IsErrorText(v) == if SaysError(v) then "true" else "false"
  {
  }

  lemma ResultSaid(v: Json.Value)
    requires Json.StrField(v, "type") == "tool_result"
    ensures Said(v) == IsErrorText(v) + "|" + CanonicalOr(Json.Get(v, "content"))
  {
    FlagText(v);
    hide IsErrorText, SaysError, CanonicalOr, ImageField, ImageBytes;
  }

  lemma ResultSignature(v: Json.Value)
    requires Json.StrField(v, "type") == "tool_result"
    ensures BlockSignature(v) == "block:tool_result|" + IsErrorText(v) + "|" + CanonicalOr(Json.Get(v, "content"))
  {
    hide IsErrorText, CanonicalOr, ImageSignature;
  }

  lemma ResultSigned(v: Json.Value)
    requires Json.StrField(v, "type") == "tool_result"
    ensures BlockSignature(v) == "block:" + "tool_result" + "|" + Said(v)
  {
    ResultSaid(v);
    ResultSignature(v);
    hide BlockSignature, Said, IsErrorText, CanonicalOr;
    Regrouped("block:", "tool_result", IsErrorText(v), CanonicalOr(Json.Get(v, "content")));
  }

  lemma ImageSourced(v: Json.Value)
    ensures ImageSignature(v) == "block:image|" + ImageField(v, "media_type") + "|" + ImageBytes(v)
  {
    assert SourceField(v, "media_type") == ImageField(v, "media_type");
    assert SourceField(v, "data") == ImageField(v, "data");
  }

  lemma ImageSigned(v: Json.Value)
    requires Json.StrField(v, "type") == "image"
    ensures BlockSignature(v) == "block:" + "image" + "|" + Said(v)
  {
    ImageSourced(v);
    hide ImageField, SourceField, ImageBytes;
    Regrouped("block:", "image", ImageField(v, "media_type"), ImageBytes(v));
  }

  lemma Signed(v: Json.Value)
    ensures BlockSignature(v) == "block:" + Json.StrField(v, "type") + "|" + Said(v)
  {
    hide BlockSignature, Said;
    var t := Json.StrField(v, "type");
    if t == "tool_use" {
      CallSigned(v);
    } else if t == "tool_result" {
      ResultSigned(v);
    } else if t == "image" {
      ImageSigned(v);
    } else if t == "text" {
      TextSigned(v);
    } else if t == "thinking" {
      ThinkingSigned(v);
    } else if t == "redacted_thinking" {
      RedactedSigned(v);
    } else {
      OtherSigned(v);
    }
  }

  lemma FlagTells(b: bool, c: bool)
    ensures (if b then "true" else "false") == (if c then "true" else "false") <==> b == c
  {
    assert |"true"| != |"false"|;
  }

  lemma ImageSaid(v: Json.Value, w: Json.Value)
    requires Comparable(v, w)
    ensures ImageField(v, "media_type") + "|" + ImageBytes(v) == ImageField(w, "media_type") + "|" + ImageBytes(w) <==>
            ImageField(v, "media_type") == ImageField(w, "media_type") && SameData(v, w)
  {
    FirstBar(ImageField(v, "media_type"), ImageBytes(v), ImageField(w, "media_type"), ImageBytes(w));
    JsonText.TextInjective(v, w);
  }

  lemma SaidTells(v: Json.Value, w: Json.Value)
    requires Comparable(v, w) && Json.StrField(v, "type") == Json.StrField(w, "type")
    ensures Said(v) == Said(w) <==> SameContent(v, w)
  {
    hide JsonText.WellFormed;
    var t := Json.StrField(v, "type");
    FieldsWellFormed(v);
    FieldsWellFormed(w);
    if t == "tool_use" {
      EndingsTell(Json.StrField(v, "name"), Json.Get(v, "input"), Json.StrField(w, "name"), Json.Get(w, "input"));
    } else if t == "tool_result" {
      EndingsTell(if SaysError(v) then "true" else "false", Json.Get(v, "content"),
                  if SaysError(w) then "true" else "false", Json.Get(w, "content"));
      FlagTells(SaysError(v), SaysError(w));
    } else if t == "image" {
      ImageSaid(v, w);
    } else {
      JsonText.TextInjective(v, w);
    }
  }

  lemma FieldsWellFormed(v: Json.Value)
    requires v.Obj? && JsonText.WellFormed(v)
    ensures forall k: string :: Json.Get(v, k).Some? ==> JsonText.WellFormed(Json.Get(v, k).value)
  {
  }

  /** A block's signature tells its content. */
  lemma SignatureTells(v: Json.Value, w: Json.Value)
    requires Comparable(v, w)
    ensures BlockSignature(v) == BlockSignature(w) <==> SameContent(v, w)
  {
    hide BlockSignature, Said;
    var t, u := Json.StrField(v, "type"), Json.StrField(w, "type");
    Signed(v);
    Signed(w);
    BlockHasNoBar(t);
    BlockHasNoBar(u);
    FirstBar("block:" + t, Said(v), "block:" + u, Said(w));
    Cancel("block:", t, u);
    if t == u {
      SaidTells(v, w);
    }
  }

  lemma BlockHasNoBar(t: string)
    requires '|' !in t
    ensures '|' !in "block:" + t
  {
  }

  // ----- Keys -----

  /** The key of the request's last segment. */
  function EndKey(req: MessagesRequest, keyId: nat, est: Estimators): string
    requires Segments(req, keyId, est) != []
  {
    var segs := Segments(req, keyId, est);
    segs[|segs| - 1].key
  }

  lemma CommitEnds(m: Meter, ttl: int)
    requires Sound(m)
    ensures var segs := Commit(m, ttl).segs;
            segs != [] ==> segs[|segs| - 1].key == m.text && m.cacheTokens > 0
  {
  }

  lemma {:induction false} FeedsKeepSegments(m: Meter, tail: seq<Op>, ttl: int)
    requires forall op <- tail :: op.Feed?
    ensures RunOps(m, tail, true, ttl).segs == m.segs
    decreases |tail|
  {
    if tail != [] {
      assert tail[|tail| - 1] in tail;
      FeedsKeepSegments(m, tail[..|tail| - 1], ttl);
    }
  }

  /** A request whose last mark is followed by operations without marks. */
  lemma EndKeyBefore(req: MessagesRequest, keyId: nat, est: Estimators, seed: string, ops: seq<Op>, tail: seq<Op>)
    requires IsolationSeed(req, keyId) == Some(seed) && RequestOps(req, est) == ops + [Mark] + tail
    requires (forall op <- tail :: op.Feed?) && Segments(req, keyId, est) != []
    ensures EndKey(req, keyId, est) == seed + FedText(ops)
  {
    hide RequestOps, RunOps, FedText;
    var start, ttl := StartMeter(req, keyId), RequestTtl(req);
    RequestOpsHonest(req, est);
    assert forall op <- ops :: op in RequestOps(req, est);
    RunSound(start, ops, true, ttl);
    RunOpsAppend(start, ops + [Mark], tail, true, ttl);
    RunOpsSnoc(start, ops, Mark, true, ttl);
    FeedsKeepSegments(RunOps(start, ops + [Mark], true, ttl), tail, ttl);
    RunTotals(seed, ops, ttl);
    CommitEnds(RunOps(start, ops, true, ttl), ttl);
  }

  /** A request that ends in a mark: its last key is the seed and all text fed. */
  lemma EndKeyIs(req: MessagesRequest, keyId: nat, est: Estimators, seed: string, ops: seq<Op>)
    requires IsolationSeed(req, keyId) == Some(seed) && RequestOps(req, est) == ops + [Mark]
    requires Segments(req, keyId, est) != []
    ensures EndKey(req, keyId, est) == seed + FedText(ops)
  {
    hide RequestOps, Segments;
    assert ops + [Mark] + [] == ops + [Mark];
    EndKeyBefore(req, keyId, est, seed, ops, []);
  }

  lemma FedSnoc(ops: seq<Op>, op: Op)
    ensures FedText(ops + [op]) == FedText(ops) + if op.Feed? then op.text else ""
  {
    assert (ops + [op])[..|ops|] == ops;
  }

  /** Two requests that end in a mark and differ in the operation before it only. */
  lemma EndKeysDiffer(
    a: MessagesRequest, b: MessagesRequest, id: nat, id': nat, est: Estimators, ops: seq<Op>, x: Op, y: Op)
    requires IsolationSeed(a, id).Some? && IsolationSeed(a, id) == IsolationSeed(b, id')
    requires RequestOps(a, est) == ops + [x] + [Mark] && RequestOps(b, est) == ops + [y] + [Mark]
    requires x.Feed? && y.Feed? && Segments(a, id, est) != [] && Segments(b, id', est) != []
    ensures EndKey(a, id, est) == EndKey(b, id', est) <==> x.text == y.text
  {
    var seed := IsolationSeed(a, id).value;
    EndKeyIs(a, id, est, seed, ops + [x]);
    EndKeyIs(b, id', est, seed, ops + [y]);
    FedSnoc(ops, x);
    FedSnoc(ops, y);
    Cancel(FedText(ops), x.text, y.text);
    Cancel(seed, FedText(ops + [x]), FedText(ops + [y]));
  }

  // ----- Blocks -----

  predicate HasBlock(req: MessagesRequest, i: nat, j: nat) {
    i < |req.messages| && req.messages[i].content.Arr? && j < |req.messages[i].content.items|
  }

  function BlockAt(req: MessagesRequest, i: nat, j: nat): Json.Value
    requires HasBlock(req, i, j)
  {
    req.messages[i].content.items[j]
  }

  /** The request up to its `j`th block of message `i`, without that block. */
  function UpTo(req: MessagesRequest, i: nat, j: nat): MessagesRequest
    requires i < |req.messages| && req.messages[i].content.Arr? && j <= |req.messages[i].content.items|
  {
    var msg := req.messages[i];
    req.(messages := req.messages[..i] + [Message(msg.role, Json.Arr(msg.content.items[..j]))])
  }

  lemma UpToOps(req: MessagesRequest, i: nat, j: nat, est: Estimators)
    requires HasBlock(req, i, j)
    ensures RequestOps(UpTo(req, i, j + 1), est) ==
            RequestOps(UpTo(req, i, j), est) + [BlockOp(BlockAt(req, i, j), est)] +
            if Json.Get(BlockAt(req, i, j), "cache_control").Some? then [Mark] else []
  {
    hide BlockOp, HeadOps;
    var items, role := req.messages[i].content.items, req.messages[i].role;
    assert items[..j + 1][..j] == items[..j];
    UpToSplit(req, i, j, est);
    UpToSplit(req, i, j + 1, est);
  }

  /** The operations of the messages before, of the message's role, and of its blocks so far. */
  lemma UpToSplit(req: MessagesRequest, i: nat, j: nat, est: Estimators)
    requires i < |req.messages| && req.messages[i].content.Arr? && j <= |req.messages[i].content.items|
    ensures RequestOps(UpTo(req, i, j), est) ==
            HeadOps(req, est) + (ConversationOps(req.messages[..i], est) + if i == 0 then [] else [Mark]) +
            [Feed(req.messages[i].role, 0)] + BlockOps(req.messages[i].content.items[..j], est)
  {
    hide BlockOps, HeadOps, MessageOps;
    var cut := UpTo(req, i, j);
    var last := cut.messages[i];
    SameHead(req, cut, est);
    ArrayOps(last, est);
    assert cut.messages[..i] == req.messages[..i];
    var before := ConversationOps(req.messages[..i], est) + if i == 0 then [] else [Mark];
    assert ConversationOps(cut.messages, est) == before + MessageOps(last, est);
    hide ConversationOps;
    Regroup(HeadOps(req, est), before, [Feed(last.role, 0)], BlockOps(last.content.items, est));
  }

  lemma ArrayOps(m: Message, est: Estimators)
    requires m.content.Arr?
    ensures MessageOps(m, est) == [Feed(m.role, 0)] + BlockOps(m.content.items, est)
  {
  }

  lemma Regroup(a: seq<Op>, b: seq<Op>, c: seq<Op>, d: seq<Op>)
    ensures a + (b + (c + d)) == a + b + c + d
  {
  }

  lemma SameHead(a: MessagesRequest, b: MessagesRequest, est: Estimators)
    requires a.tools == b.tools && a.system == b.system
    ensures HeadOps(a, est) == HeadOps(b, est)
  {
  }

  lemma BlockOpText(v: Json.Value, est: Estimators)
    ensures BlockOp(v, est).Feed? && BlockOp(v, est).text == BlockSignature(v) != ""
  {
  }

  /** Same seed, tools and system, same messages and blocks before block `j` of message `i`. */
  predicate AgreeBefore(a: MessagesRequest, b: MessagesRequest, i: nat, j: nat, id: nat, id': nat) {
    && HasBlock(a, i, j) && HasBlock(b, i, j)
    && IsolationSeed(a, id).Some? && IsolationSeed(a, id) == IsolationSeed(b, id')
    && a.tools == b.tools && a.system == b.system
    && a.messages[..i] == b.messages[..i] && a.messages[i].role == b.messages[i].role
    && a.messages[i].content.items[..j] == b.messages[i].content.items[..j]
  }

  predicate Marks(req: MessagesRequest, i: nat, j: nat)
    requires HasBlock(req, i, j)
  {
    Json.Get(BlockAt(req, i, j), "cache_control").Some?
  }

  /** Two requests that agree up to a block, with a mark right after it: the keys there are the same if and only if
      the blocks say the same. */
  lemma BlocksDecideKeys(a: MessagesRequest, b: MessagesRequest, i: nat, j: nat, id: nat, id': nat, est: Estimators)
    requires AgreeBefore(a, b, i, j, id, id') && Marks(a, i, j) && Marks(b, i, j)
    requires Segments(UpTo(a, i, j + 1), id, est) != [] && Segments(UpTo(b, i, j + 1), id', est) != []
    requires Comparable(BlockAt(a, i, j), BlockAt(b, i, j))
    ensures EndKey(UpTo(a, i, j + 1), id, est) == EndKey(UpTo(b, i, j + 1), id', est) <==>
            SameContent(BlockAt(a, i, j), BlockAt(b, i, j))
  {
    hide RequestOps, Segments, BlockOp, Comparable, SameContent, BlockSignature, EndKey;
    var v, w := BlockAt(a, i, j), BlockAt(b, i, j);
    var before := RequestOps(UpTo(a, i, j), est);
    SameBefore(a, b, i, j, est, id, id');
    UpToOps(a, i, j, est);
    UpToOps(b, i, j, est);
    BlockOpText(v, est);
    BlockOpText(w, est);
    EndKeysDiffer(UpTo(a, i, j + 1), UpTo(b, i, j + 1), id, id', est, before, BlockOp(v, est), BlockOp(w, est));
    SignatureTells(v, w);
  }

  lemma SameBefore(a: MessagesRequest, b: MessagesRequest, i: nat, j: nat, est: Estimators, id: nat, id': nat)
    requires AgreeBefore(a, b, i, j, id, id')
    ensures RequestOps(UpTo(a, i, j), est) == RequestOps(UpTo(b, i, j), est)
  {
    assert UpTo(a, i, j).messages == UpTo(b, i, j).messages;
  }

  // ----- The key stays in the chain of the whole request -----

  lemma {:induction false} BlocksPrefix(items: seq<Json.Value>, j: nat, est: Estimators)
    requires j <= |items|
    ensures BlockOps(items[..j], est) <= BlockOps(items, est)
    decreases |items|
  {
    hide BlockOp;
    if j == |items| {
      assert items[..j] == items;
    } else {
      assert items[..|items| - 1][..j] == items[..j];
      BlocksPrefix(items[..|items| - 1], j, est);
    }
  }

  lemma {:induction false} MessagesPrefix(messages: seq<Message>, i: nat, est: Estimators)
    requires i <= |messages|
    ensures ConversationOps(messages[..i], est) <= ConversationOps(messages, est)
    decreases |messages|
  {
    hide MessageOps;
    if i == |messages| {
      assert messages[..i] == messages;
    } else {
      assert messages[..|messages| - 1][..i] == messages[..i];
      MessagesPrefix(messages[..|messages| - 1], i, est);
    }
  }

  lemma UpToIsPrefix(req: MessagesRequest, i: nat, j: nat, est: Estimators)
    requires HasBlock(req, i, j)
    ensures RequestOps(UpTo(req, i, j + 1), est) <= RequestOps(req, est)
  {
    hide HeadOps, ConversationOps, BlockOps, MessageOps;
    var items := req.messages[i].content.items;
    UpToSplit(req, i, j + 1, est);
    UpToSplit(req, i, |items|, est);
    assert items[..|items|] == items;
    BlocksPrefix(items, j + 1, est);
    WholeMessages(req, i, est);
    PrefixesAdd(HeadOps(req, est) + (ConversationOps(req.messages[..i], est) + if i == 0 then [] else [Mark]) +
                [Feed(req.messages[i].role, 0)], BlockOps(items[..j + 1], est), BlockOps(items, est));
  }

  lemma WholeMessages(req: MessagesRequest, i: nat, est: Estimators)
    requires i < |req.messages| && req.messages[i].content.Arr?
    ensures RequestOps(UpTo(req, i, |req.messages[i].content.items|), est) <= RequestOps(req, est)
  {
    hide HeadOps, ConversationOps;
    var items := req.messages[i].content.items;
    var whole := UpTo(req, i, |items|);
    assert items[..|items|] == items;
    assert whole.messages == req.messages[..i + 1];
    MessagesPrefix(req.messages, i + 1, est);
    SameHead(req, whole, est);
    PrefixesAdd(HeadOps(req, est), ConversationOps(whole.messages, est), ConversationOps(req.messages, est));
  }

  lemma PrefixesAdd(p: seq<Op>, a: seq<Op>, b: seq<Op>)
    requires a <= b
    ensures p + a <= p + b
  {
  }

  /** If a request's operations begin with those of another of the same seed, so does its chain. */
  lemma OpsPrefixChain(short: MessagesRequest, long: MessagesRequest, keyId: nat, est: Estimators)
    requires IsolationSeed(short, keyId).Some? && IsolationSeed(short, keyId) == IsolationSeed(long, keyId)
    requires RequestOps(short, est) <= RequestOps(long, est)
    ensures Chain(Segments(short, keyId, est)) <= Chain(Segments(long, keyId, est))
  {
    var ops, all, start := RequestOps(short, est), RequestOps(long, est), StartMeter(short, keyId);
    var rest := all[|ops|..];
    assert all == ops + rest;
    RunAlike(start, start, ops, RequestTtl(short), RequestTtl(long));
    RunOpsAppend(start, ops, rest, true, RequestTtl(long));
    RunAlike(RunOps(start, ops, true, RequestTtl(long)), RunOps(start, ops, true, RequestTtl(long)), rest,
             RequestTtl(long), RequestTtl(long));
  }

  /** The key after a marked block is one of the keys of the whole request. */
  lemma EndKeyIsKept(req: MessagesRequest, i: nat, j: nat, keyId: nat, est: Estimators)
    requires HasBlock(req, i, j) && IsolationSeed(req, keyId).Some?
    requires Segments(UpTo(req, i, j + 1), keyId, est) != []
    ensures HasKey(Segments(req, keyId, est), EndKey(UpTo(req, i, j + 1), keyId, est))
  {
    hide RequestOps, Segments;
    var short, long := Segments(UpTo(req, i, j + 1), keyId, est), Segments(req, keyId, est);
    UpToIsPrefix(req, i, j, est);
    OpsPrefixChain(UpTo(req, i, j + 1), req, keyId, est);
    var n := |short| - 1;
    assert Chain(short)[n] == Chain(long)[n];
    assert long[n] in long && long[n].key == short[n].key;
  }

  // ----- What is read after a commit -----

  lemma CommitAppends(m: Meter, ttl: int)
    requires m.cacheTokens > 0 && (m.segs != [] ==> m.segs[|m.segs| - 1].key != m.text)
    ensures Chain(Commit(m, ttl).segs) == Chain(m.segs) + [Link(m.text, m.cacheTokens)]
  {
  }

  /** A marked block that costs something, or anything before it, ends one more segment than what comes before. */
  lemma BlockAddsSegment(req: MessagesRequest, i: nat, j: nat, keyId: nat, est: Estimators)
    requires HasBlock(req, i, j) && Marks(req, i, j) && IsolationSeed(req, keyId).Some?
    requires Segments(UpTo(req, i, j + 1), keyId, est) != []
    ensures var before, after := Segments(UpTo(req, i, j), keyId, est), Segments(UpTo(req, i, j + 1), keyId, est);
            && |after| == |before| + 1
            && Chain(after)[..|before|] == Chain(before)
            && forall s <- before :: |s.key| < |after[|before|].key|
  {
    hide BlockOp, BlockSignature;
    var seed, op := IsolationSeed(req, keyId).value, BlockOp(BlockAt(req, i, j), est);
    var a, b := UpTo(req, i, j), UpTo(req, i, j + 1);
    var ops, start, ttl := RequestOps(a, est), StartMeter(a, keyId), RequestTtl(b);
    UpToOps(req, i, j, est);
    BlockOpText(BlockAt(req, i, j), est);
    RunAlike(start, start, ops, RequestTtl(a), ttl);
    var m := RunOps(start, ops, true, ttl);
    RequestOpsHonest(a, est);
    RunSound(start, ops, true, ttl);
    var fed := Apply(m, op, true, ttl);
    RunOpsSnoc(start, ops, op, true, ttl);
    RunOpsSnoc(start, ops + [op], Mark, true, ttl);
    RequestOpsHonest(b, est);
    assert op in RequestOps(b, est);
    ApplySound(m, op, true, ttl);
    CommitEnds(fed, ttl);
    assert fed.text == m.text + op.text;
    CommitAppends(fed, ttl);
    assert Segments(b, keyId, est) == Commit(fed, ttl).segs;
    SegmentKeysWithin(m, fed.text, Segments(a, keyId, est));
  }

  lemma SegmentKeysWithin(m: Meter, longer: string, segs: seq<Segment>)
    requires Sound(m) && |m.text| < |longer| && Chain(segs) == Chain(m.segs)
    ensures forall s <- segs :: |s.key| < |longer|
  {
    forall s | s in segs
      ensures |s.key| < |longer|
    {
      var i :| 0 <= i < |segs| && segs[i] == s;
      assert Chain(segs)[i] == Chain(m.segs)[i];
      assert m.segs[i].key <= m.text;
    }
  }

  /** After the first request was committed up to its block, on an empty cache, the second one, up to its own
      block that says something else, reads what they share and not that block. */
  lemma OtherBlockIsNotRead(
    a: MessagesRequest, b: MessagesRequest, i: nat, j: nat, id: nat, id': nat, est: Estimators, at: int, now: int)
    requires AgreeBefore(a, b, i, j, id, id') && Marks(a, i, j) && Marks(b, i, j)
    requires Segments(UpTo(a, i, j + 1), id, est) != [] && Segments(UpTo(b, i, j + 1), id', est) != []
    requires Comparable(BlockAt(a, i, j), BlockAt(b, i, j)) && !SameContent(BlockAt(a, i, j), BlockAt(b, i, j))
    requires now < at + ClampTtl(RequestTtl(UpTo(a, i, j + 1)))
    ensures var committed := UpTo(a, i, j + 1);
            var table := Inserted(map[], Segments(committed, id, est), at + ClampTtl(RequestTtl(committed)), at);
            CachePlan.ReadTokens(table, Segments(UpTo(b, i, j + 1), id', est), now) ==
            CachePlan.Covered(Segments(UpTo(b, i, j), id', est))
  {
    hide RequestOps, Segments, Comparable, SameContent, Marks, Inserted;
    var committed := UpTo(a, i, j + 1);
    var segs, segs' := Segments(committed, id, est), Segments(UpTo(b, i, j + 1), id', est);
    var held, held' := Segments(UpTo(a, i, j), id, est), Segments(UpTo(b, i, j), id', est);
    var until := at + ClampTtl(RequestTtl(committed));
    var table := Inserted(map[], segs, until, at);
    InsertedContents(map[], segs, until, at);
    BlocksDecideKeys(a, b, i, j, id, id', est);
    BlockAddsSegment(a, i, j, id, est);
    BlockAddsSegment(b, i, j, id', est);
    assert forall s <- held :: |s.key| < |segs'[|held'|].key| by {
      SameChainBefore(a, b, i, j, id, id', est);
      ChainsAgree(held, held');
      ShorterKeys(held, held', segs'[|held'|].key);
    }
    SameChainBefore(a, b, i, j, id, id', est);
    ChainsAgree(held, held');
    SharedHits(table, segs, held, segs', held', now);
    CachePlan.ReadIsCovered(table, segs', held', now);
  }

  lemma ShorterKeys(a: seq<Segment>, b: seq<Segment>, key: string)
    requires Chain(a) == Chain(b) && forall s <- b :: |s.key| < |key|
    ensures forall s <- a :: |s.key| < |key|
  {
    ChainsAgree(a, b);
    forall s | s in a
      ensures |s.key| < |key|
    {
      var k :| 0 <= k < |a| && a[k] == s;
      assert b[k] in b;
    }
  }

  /** Of two chains that share all but their last keys, the second hits exactly what is shared. */
  lemma SharedHits(
    table: Table, segs: seq<Segment>, held: seq<Segment>, segs': seq<Segment>, held': seq<Segment>, now: int)
    requires forall k: string :: HitAt(table, k, now) <==> HasKey(segs, k)
    requires |held| == |held'| && Chain(held) == Chain(held')
    requires |segs| == |held| + 1 && Chain(segs)[..|held|] == Chain(held)
    requires |segs'| == |held| + 1 && Chain(segs')[..|held|] == Chain(held)
    requires segs[|held|].key != segs'[|held|].key && forall s <- held :: |s.key| < |segs'[|held|].key|
    ensures forall k | 0 <= k < |segs'| :: HitAt(table, segs'[k].key, now) <==> k < |held|
  {
    var n := |held|;
    forall k | 0 <= k < |segs'|
      ensures HitAt(table, segs'[k].key, now) <==> k < n
    {
      if k < n {
        assert Chain(segs)[..n][k] == Chain(segs')[..n][k];
        assert segs[k] in segs;
      } else {
        LastKeyMisses(segs, held, segs'[n].key);
      }
    }
  }

  lemma ChainsAgree(a: seq<Segment>, b: seq<Segment>)
    requires Chain(a) == Chain(b)
    ensures |a| == |b| && forall k | 0 <= k < |a| :: a[k].key == b[k].key && a[k].tokens == b[k].tokens
  {
    assert |Chain(a)| == |Chain(b)|;
    forall k | 0 <= k < |a|
      ensures a[k].key == b[k].key && a[k].tokens == b[k].tokens
    {
      assert Chain(a)[k] == Chain(b)[k];
    }
  }

  lemma LastKeyMisses(segs: seq<Segment>, held: seq<Segment>, key: string)
    requires |segs| == |held| + 1 && Chain(segs)[..|held|] == Chain(held)
    requires segs[|held|].key != key && forall s <- held :: |s.key| < |key|
    ensures !HasKey(segs, key)
  {
    forall s | s in segs
      ensures s.key != key
    {
      var k :| 0 <= k < |segs| && segs[k] == s;
      if k < |held| {
        assert Chain(segs)[..|held|][k] == Chain(held)[k];
        assert held[k] in held;
      }
    }
  }

  lemma SameChainBefore(a: MessagesRequest, b: MessagesRequest, i: nat, j: nat, id: nat, id': nat, est: Estimators)
    requires AgreeBefore(a, b, i, j, id, id')
    ensures Chain(Segments(UpTo(a, i, j), id, est)) == Chain(Segments(UpTo(b, i, j), id', est))
  {
    SameBefore(a, b, i, j, est, id, id');
    var start := StartMeter(a, id);
    RunAlike(start, start, RequestOps(UpTo(a, i, j), est), RequestTtl(UpTo(a, i, j)), RequestTtl(UpTo(b, i, j)));
  }

  // ----- Tools and system texts -----

  /** A request with nothing but tools and system, marked at its end. */
  function HeadOnly(req: MessagesRequest, tools: seq<Tool>, systems: seq<SystemMessage>): MessagesRequest {
    req.(tools := Some(tools), system := Some(systems), messages := [])
  }

  lemma HeadOnlyOps(req: MessagesRequest, tools: seq<Tool>, systems: seq<SystemMessage>, est: Estimators)
    ensures RequestOps(HeadOnly(req, tools, systems), est) == ToolOps(tools, est) + SystemOps(systems, est) + [Mark]
  {
  }

  predicate SameToolText(t: Tool, u: Tool) {
    t.name == u.name && t.description == u.description && t.inputSchema == u.inputSchema
  }

  lemma ToolTells(t: Tool, u: Tool)
    requires '|' !in t.name && '|' !in u.name
    requires JsonText.WellFormed(Json.Obj(t.inputSchema)) && JsonText.WellFormed(Json.Obj(u.inputSchema))
    ensures ToolSignature(t) == ToolSignature(u) <==> SameToolText(t, u)
  {
    var a, b := "tool:" + t.name + "|" + t.description, "tool:" + u.name + "|" + u.description;
    EndingsTell(a, Some(Json.Obj(t.inputSchema)), b, Some(Json.Obj(u.inputSchema)));
    assert a == "tool:" + (t.name + "|" + t.description) && b == "tool:" + (u.name + "|" + u.description);
    Cancel("tool:", t.name + "|" + t.description, u.name + "|" + u.description);
    FirstBar(t.name, t.description, u.name, u.description);
  }

  /** Requests whose tools agree but for the last one have the same key after the tools if and only if that one has the
      same name, description and schema. */
  lemma ToolsDecideKeys(req: MessagesRequest, tools: seq<Tool>, t: Tool, u: Tool, keyId: nat, est: Estimators)
    requires '|' !in t.name && '|' !in u.name && IsolationSeed(req, keyId).Some?
    requires JsonText.WellFormed(Json.Obj(t.inputSchema)) && JsonText.WellFormed(Json.Obj(u.inputSchema))
    requires Segments(HeadOnly(req, tools + [t], []), keyId, est) != []
    requires Segments(HeadOnly(req, tools + [u], []), keyId, est) != []
    ensures (EndKey(HeadOnly(req, tools + [t], []), keyId, est) == EndKey(HeadOnly(req, tools + [u], []), keyId, est))
            <==> SameToolText(t, u)
  {
    hide Segments, EndKey, ToolSignature;
    var a, b := HeadOnly(req, tools + [t], []), HeadOnly(req, tools + [u], []);
    var x, y := ToolOp(t, est), ToolOp(u, est);
    HeadOnlyOps(req, tools + [t], [], est);
    HeadOnlyOps(req, tools + [u], [], est);
    assert SystemOps([], est) == [];
    assert ToolOps(tools + [t], est) == ToolOps(tools, est) + [x];
    assert ToolOps(tools + [u], est) == ToolOps(tools, est) + [y];
    EndKeysDiffer(a, b, keyId, keyId, est, ToolOps(tools, est), x, y);
    ToolTells(t, u);
  }

  function ToolOp(t: Tool, est: Estimators): Op {
    Feed(ToolSignature(t), TextTokens(est, ToolTokenText(t)))
  }

  lemma {:induction false} FirstControlSame(systems: seq<SystemMessage>, s: SystemMessage, r: SystemMessage)
    requires s.cacheControl.Some? <==> r.cacheControl.Some?
    ensures FirstControl(systems + [s]) == FirstControl(systems + [r])
    ensures (exists x <- systems + [s] :: x.cacheControl.Some?) ==> FirstControl(systems + [s]) <= |systems|
    decreases |systems|
  {
    if systems != [] {
      assert (systems + [s])[1..] == systems[1..] + [s] && (systems + [r])[1..] == systems[1..] + [r];
      FirstControlSame(systems[1..], s, r);
      if x :| x in systems + [s] && x.cacheControl.Some? {
        assert x == systems[0] || x in systems[1..] + [s];
      }
    }
  }

  lemma SkipSame(systems: seq<SystemMessage>, s: SystemMessage, r: SystemMessage)
    requires s.cacheControl.Some? <==> r.cacheControl.Some?
    ensures SkipUntil(systems + [s]) == SkipUntil(systems + [r]) <= |systems|
  {
    FirstControlSame(systems, s, r);
    if x :| x in systems + [s] && x.cacheControl.Some? {
      assert x == s || x in systems;
      assert if x == s then r in systems + [r] else x in systems + [r];
    }
    if x :| x in systems + [r] && x.cacheControl.Some? {
      assert x == r || x in systems;
      assert if x == r then s in systems + [s] else x in systems + [s];
    }
  }

  /** Requests whose system texts agree but for the last one have the same key after the system part if and only if
      the texts are equal. */
  lemma SystemsDecideKeys(
    req: MessagesRequest, tools: seq<Tool>, systems: seq<SystemMessage>, s: SystemMessage, r: SystemMessage,
    keyId: nat, est: Estimators)
    requires (s.cacheControl.Some? <==> r.cacheControl.Some?) && IsolationSeed(req, keyId).Some?
    requires Segments(HeadOnly(req, tools, systems + [s]), keyId, est) != []
    requires Segments(HeadOnly(req, tools, systems + [r]), keyId, est) != []
    ensures (EndKey(HeadOnly(req, tools, systems + [s]), keyId, est) ==
             EndKey(HeadOnly(req, tools, systems + [r]), keyId, est)) <==> s.text == r.text
  {
    hide Segments, EndKey, SkipUntil;
    var a, b := HeadOnly(req, tools, systems + [s]), HeadOnly(req, tools, systems + [r]);
    var x, y := Feed(SystemSignature(s), TextTokens(est, s.text)), Feed(SystemSignature(r), TextTokens(est, r.text));
    SkipSame(systems, s, r);
    assert (systems + [s])[|systems|] == s && (systems + [r])[|systems|] == r;
    var before := SystemOps(systems + [s], est)[..|systems|];
    assert SystemOps(systems + [s], est) == before + [x];
    assert SystemOps(systems + [r], est) == before + [y];
    HeadOnlyOps(req, tools, systems + [s], est);
    HeadOnlyOps(req, tools, systems + [r], est);
    assert RequestOps(a, est) == (ToolOps(tools, est) + before) + [x] + [Mark];
    assert RequestOps(b, est) == (ToolOps(tools, est) + before) + [y] + [Mark];
    EndKeysDiffer(a, b, keyId, keyId, est, ToolOps(tools, est) + before, x, y);
    Cancel("sys:", s.text, r.text);
  }

  // ----- Messages with a string -----

  /** Messages that end in one with a string and one more, the boundary between these being marked. */
  function Ending(req: MessagesRequest, msgs: seq<Message>, role: string, text: string, next: Message)
    : MessagesRequest
  {
    req.(messages := msgs + [Message(role, Json.Str(text)), next])
  }

  lemma EndingOps(req: MessagesRequest, msgs: seq<Message>, role: string, text: string, next: Message, est: Estimators)
    ensures RequestOps(Ending(req, msgs, role, text, next), est) ==
            HeadOps(req, est) + (ConversationOps(msgs, est) + if msgs == [] then [] else [Mark]) + [Feed(role, 0)] +
            [Feed(text, TextTokens(est, text))] + [Mark] + MessageOps(next, est)
  {
    hide HeadOps, MessageOps;
    var m, all := Message(role, Json.Str(text)), Ending(req, msgs, role, text, next).messages;
    var mark, said := if msgs == [] then [] else [Mark], [Feed(role, 0)] + [Feed(text, TextTokens(est, text))];
    StringOps(m, est);
    assert all[..|all| - 1] == msgs + [m] && (msgs + [m])[..|msgs|] == msgs;
    assert ConversationOps(msgs + [m], est) == ConversationOps(msgs, est) + mark + said;
    assert ConversationOps(all, est) == ConversationOps(msgs, est) + mark + said + [Mark] + MessageOps(next, est);
    SameHead(req, Ending(req, msgs, role, text, next), est);
    hide ConversationOps;
  }

  lemma StringOps(m: Message, est: Estimators)
    requires m.content.Str?
    ensures MessageOps(m, est) == [Feed(m.role, 0)] + [Feed(m.content.s, TextTokens(est, m.content.s))]
  {
  }

  /** Requests that agree up to a message with a string have the same key at its end if and only if the strings are
      equal. */
  lemma StringsDecideKeys(
    req: MessagesRequest, msgs: seq<Message>, role: string, s: string, t: string, next: Message, keyId: nat,
    est: Estimators)
    requires IsolationSeed(req, keyId).Some? && next.content.Str?
    requires Segments(Ending(req, msgs, role, s, next), keyId, est) != []
    requires Segments(Ending(req, msgs, role, t, next), keyId, est) != []
    ensures (EndKey(Ending(req, msgs, role, s, next), keyId, est) ==
             EndKey(Ending(req, msgs, role, t, next), keyId, est)) <==> s == t
  {
    hide Segments, EndKey, RequestOps, ConversationOps;
    var seed := IsolationSeed(req, keyId).value;
    var mark := if msgs == [] then [] else [Mark];
    var before := HeadOps(req, est) + (ConversationOps(msgs, est) + mark) + [Feed(role, 0)];
    var x, y := Feed(s, TextTokens(est, s)), Feed(t, TextTokens(est, t));
    EndingOps(req, msgs, role, s, next, est);
    EndingOps(req, msgs, role, t, next, est);
    EndKeyBefore(Ending(req, msgs, role, s, next), keyId, est, seed, before + [x], MessageOps(next, est));
    EndKeyBefore(Ending(req, msgs, role, t, next), keyId, est, seed, before + [y], MessageOps(next, est));
    FedSnoc(before, x);
    FedSnoc(before, y);
    Cancel(FedText(before), s, t);
    Cancel(seed, FedText(before + [x]), FedText(before + [y]));
  }

  // ----- Blocks are not separated -----

  function TextBlock(text: string): Json.Value {
    Json.Obj(map["type" := Json.Str("text"), "text" := Json.Str(text)])
  }

  function MarkedTextBlock(text: string): Json.Value {
    Json.Obj(map["type" := Json.Str("text"), "text" := Json.Str(text), "cache_control" := Json.Obj(map[])])
  }

  function OneMessage(blocks: seq<Json.Value>): MessagesRequest {
    MessagesRequest("", [Message("user", Json.Arr(blocks))], None, None, None)
  }

  lemma OneMessageOps(blocks: seq<Json.Value>, est: Estimators)
    ensures RequestOps(OneMessage(blocks), est) == [Mark] + [Feed("user", 0)] + BlockOps(blocks, est)
  {
    hide BlockOps;
    var msgs := OneMessage(blocks).messages;
    assert msgs[..0] == [];
    assert HeadOps(OneMessage(blocks), est) == [Mark];
    assert ConversationOps(msgs, est) == [] + [] + MessageOps(msgs[0], est);
  }

  lemma TextBlockOp(text: string, est: Estimators)
    ensures BlockOp(TextBlock(text), est).Feed? && BlockOp(TextBlock(text), est).text == "block:text|" + text
    ensures BlockOp(MarkedTextBlock(text), est).Feed?
    ensures BlockOp(MarkedTextBlock(text), est).text == "block:text|" + text
    ensures Json.Get(TextBlock(text), "cache_control").None? && Json.Get(MarkedTextBlock(text), "cache_control").Some?
  {
  }

  /** Nothing separates two blocks in what is hashed: two texts have the key of one text that contains the second
      block's opening words. */
  lemma TwoBlocksLookLikeOne(first: string, second: string, keyId: nat, est: Estimators)
    requires keyId != 0
    requires Segments(OneMessage([TextBlock(first), MarkedTextBlock(second)]), keyId, est) != []
    requires Segments(OneMessage([MarkedTextBlock(first + "block:text|" + second)]), keyId, est) != []
    ensures EndKey(OneMessage([TextBlock(first), MarkedTextBlock(second)]), keyId, est) ==
            EndKey(OneMessage([MarkedTextBlock(first + "block:text|" + second)]), keyId, est)
  {
    hide Segments, EndKey, BlockOp, RequestOps;
    var whole := first + "block:text|" + second;
    var v, w, u := TextBlock(first), MarkedTextBlock(second), MarkedTextBlock(whole);
    var x, y, z := BlockOp(v, est), BlockOp(w, est), BlockOp(u, est);
    TextBlockOp(first, est);
    TextBlockOp(second, est);
    TextBlockOp(whole, est);
    assert [v, w][..1] == [v] && [v][..0] == [] && [u][..0] == [];
    assert BlockOps([v], est) == [x] && BlockOps([v, w], est) == [x] + [y] + [Mark];
    assert BlockOps([u], est) == [z] + [Mark];
    OneMessageOps([v, w], est);
    OneMessageOps([u], est);
    var start := [Mark] + [Feed("user", 0)];
    var seed := "key:" + JsonText.Digits(keyId);
    assert start + ([x] + [y] + [Mark]) == start + [x] + [y] + [Mark];
    assert start + ([z] + [Mark]) == start + [z] + [Mark];
    EndKeyIs(OneMessage([v, w]), keyId, est, seed, start + [x] + [y]);
    EndKeyIs(OneMessage([u]), keyId, est, seed, start + [z]);
    FedSnoc(start, x);
    FedSnoc(start + [x], y);
    FedSnoc(start, z);
    SameFed(seed, FedText(start), first, second);
  }

  lemma SameFed(seed: string, fed: string, first: string, second: string)
    ensures seed + (fed + ("block:text|" + first) + ("block:text|" + second)) ==
            seed + (fed + ("block:text|" + (first + "block:text|" + second)))
  {
  }
}
