/** What a request costs and how long its prefixes live, read directly off the request. */
module CacheCosts {
  import opened Basics
  import opened Wrappers
  import opened Types
  import opened CacheTable
  import opened CacheSegments
  import opened CacheChain
  import CachePlan
  import Json
  import JsonText
  import Strings

  // ----- The words of a block -----

  predicate Is(v: Json.Value, blockType: string) {
    Json.Get(v, "type") == Some(Json.Str(blockType))
  }

  function FieldText(v: Json.Value, key: string): string {
    if Json.Get(v, key).Some? then JsonText.Text(Json.Get(v, key).value) else ""
  }

  /** Words separated by blanks; empty ones are left out. */
  function Spaced(words: seq<string>): string {
    Strings.Join(NonEmpty(words), " ")
  }

  function NonEmpty(words: seq<string>): seq<string> {
    if words == [] then [] else (if words[0] == "" then [] else [words[0]]) + NonEmpty(words[1..])
  }

  /** What of a block is counted: its text, its thinking, its redacted data, the name and the input of a call, the
      content of a result, and all of a block of another kind.  An image has no words. */
  function Words(v: Json.Value): string
    decreases v, 1
  {
    if Is(v, "text") then Json.StrField(v, "text")
    else if Is(v, "thinking") then Json.StrField(v, "thinking")
    else if Is(v, "redacted_thinking") then Json.StrField(v, "data")
    else if Is(v, "tool_use") then
      (if Json.StrField(v, "name") == "" then "" else Json.StrField(v, "name") + " ") + FieldText(v, "input")
    else if Is(v, "tool_result") then
      match Json.Get(v, "content")
      case None => ""
      case Some(Str(s)) => s
      case Some(Arr(items)) => Spaced(WordsOfItems(items))
      case Some(c) => JsonText.Text(c)
    else if Is(v, "image") then ""
    else JsonText.Text(v)
  }

  function WordsOfItems(items: seq<Json.Value>): seq<string>
    decreases items, 0
  {
    if items == [] then [] else [Words(items[0])] + WordsOfItems(items[1..])
  }

  lemma {:induction false} WordsAreCounted(v: Json.Value)
    requires !Is(v, "image")
    ensures BlockTokenText(v) == Words(v)
    decreases v, 1, 0
  {
    if Is(v, "tool_result") {
      if Json.Get(v, "content").Some? && Json.Get(v, "content").value.Arr? {
        var c := Json.Get(v, "content").value;
        ItemsAreCounted(c, 0);
        assert c.items[0..] == c.items;
      }
      hide ItemTexts, WordsOfItems, NonEmpty, Strings.Join;
    } else {
      OwnWords(v);
    }
  }

  lemma OwnWords(v: Json.Value)
    requires !Is(v, "image") && !Is(v, "tool_result")
    ensures BlockTokenText(v) == Words(v)
  {
    hide ContentTokenText, WordsOfItems, NonEmpty, Strings.Join;
  }

  lemma {:induction false} ItemsAreCounted(c: Json.Value, i: nat)
    requires c.Arr? && i <= |c.items|
    ensures ItemTexts(c, i) == NonEmpty(WordsOfItems(c.items[i..]))
    decreases c, 0, |c.items| - i
  {
    if i < |c.items| {
      var v, rest := c.items[i], c.items[i + 1..];
      assert c.items[i..][1..] == rest;
      ItemsAreCounted(c, i + 1);
      if !Is(v, "image") {
        WordsAreCounted(v);
      }
      assert WordsOfItems(c.items[i..]) == [Words(v)] + WordsOfItems(rest);
      assert ([Words(v)] + WordsOfItems(rest))[1..] == WordsOfItems(rest);
    }
  }

  // ----- Costs -----

  function Cost(est: Estimators, text: string): nat {
    if text == "" then 0 else Max(0, est.text(text))
  }

  function BlockCost(v: Json.Value, est: Estimators): nat {
    if Is(v, "image") then
      var source := Json.Get(v, "source").GetOr(Json.Null);
      est.image(Json.StrField(source, "media_type"), Json.StrField(source, "data"))
    else Cost(est, Words(v))
  }

  function BlocksCost(blocks: seq<Json.Value>, est: Estimators): nat {
    if blocks == [] then 0 else BlocksCost(blocks[..|blocks| - 1], est) + BlockCost(blocks[|blocks| - 1], est)
  }

  function MessageCost(msg: Message, est: Estimators): nat {
    match msg.content
    case Str(s) => Cost(est, s)
    case Arr(blocks) => BlocksCost(blocks, est)
    case _ => 0
  }

  function MessagesCost(messages: seq<Message>, est: Estimators): nat {
    if messages == [] then 0
    else MessagesCost(messages[..|messages| - 1], est) + MessageCost(messages[|messages| - 1], est)
  }

  function ToolsCost(tools: seq<Tool>, est: Estimators): nat {
    if tools == [] then 0
    else
      var t := tools[|tools| - 1];
      ToolsCost(tools[..|tools| - 1], est) +
      Cost(est, t.name + " " + t.description + " " + JsonText.Text(Json.Obj(t.inputSchema)))
  }

  function SystemsCost(systems: seq<SystemMessage>, est: Estimators): nat {
    if systems == [] then 0
    else SystemsCost(systems[..|systems| - 1], est) + Cost(est, systems[|systems| - 1].text)
  }

  // ----- Operations cost what the request says -----

  /** Fed or not, everything that costs. */
  function AllTokens(ops: seq<Op>): nat {
    if ops == [] then 0
    else
      AllTokens(ops[..|ops| - 1]) +
      match ops[|ops| - 1]
      case Feed(_, tokens) => tokens
      case Uncached(tokens) => tokens
      case Mark => 0
  }

  lemma AllTokensSnoc(ops: seq<Op>, op: Op)
    ensures AllTokens(ops + [op]) == AllTokens(ops) + AllTokens([op])
    ensures AllTokens([op]) == match op case Feed(_, tokens) => tokens case Uncached(tokens) => tokens case Mark => 0
  {
    assert (ops + [op])[..|ops|] == ops && [op][..0] == [];
  }

  lemma {:induction false} AllTokensAppend(a: seq<Op>, b: seq<Op>)
    ensures AllTokens(a + b) == AllTokens(a) + AllTokens(b)
    decreases |b|
  {
    if b == [] {
      assert a + b == a;
    } else {
      var init, last := b[..|b| - 1], b[|b| - 1];
      assert a + b == (a + init) + [last] && b == init + [last];
      AllTokensAppend(a, init);
      AllTokensSnoc(a + init, last);
      AllTokensSnoc(init, last);
    }
  }

  /** Saturating additions one by one come to the saturated sum. */
  lemma {:induction false} PromptIsCapped(seed: string, ops: seq<Op>, enabled: bool, ttl: int)
    ensures RunOps(Meter(seed, 0, 0, []), ops, enabled, ttl).promptTokens == Capped(AllTokens(ops))
    decreases |ops|
  {
    if ops != [] {
      PromptIsCapped(seed, ops[..|ops| - 1], enabled, ttl);
    }
  }

  lemma BlockCosts(v: Json.Value, est: Estimators)
    ensures AllTokens([BlockOp(v, est)]) == BlockCost(v, est)
  {
    AllTokensSnoc([], BlockOp(v, est));
    if !Is(v, "image") {
      WordsAreCounted(v);
    }
    hide BlockTokenText, Words, BlockSignature, ImageSignature, AllTokens;
  }

  lemma {:induction false} BlocksCosts(blocks: seq<Json.Value>, est: Estimators)
    ensures AllTokens(BlockOps(blocks, est)) == BlocksCost(blocks, est)
    decreases |blocks|
  {
    hide BlockOp, BlockCost, AllTokens;
    NoTokens();
    if blocks != [] {
      var init, last := blocks[..|blocks| - 1], blocks[|blocks| - 1];
      BlocksCosts(init, est);
      BlockCosts(last, est);
      AllTokensAppend(BlockOps(init, est), [BlockOp(last, est)]);
      AllTokensAppend(BlockOps(init, est) + [BlockOp(last, est)], [Mark]);
      Assoc(BlockOps(init, est) + [BlockOp(last, est)], [], []);
    }
  }

  lemma NoTokens()
    ensures AllTokens([]) == 0 && AllTokens([Mark]) == 0
  {
    AllTokensSnoc([], Mark);
  }

  lemma MessageCosts(msg: Message, est: Estimators)
    ensures AllTokens(MessageOps(msg, est)) == MessageCost(msg, est)
  {
    var role := Feed(msg.role, 0);
    AllTokensSnoc([], role);
    assert [] + [role] == [role];
    match msg.content {
      case Str(s) => AllTokensSnoc([role], Feed(s, TextTokens(est, s)));
      case Arr(blocks) =>
        BlocksCosts(blocks, est);
        AllTokensAppend([role], BlockOps(blocks, est));
      case _ => assert MessageOps(msg, est) == [role];
    }
  }

  lemma {:induction false} ConversationCosts(messages: seq<Message>, est: Estimators)
    ensures AllTokens(ConversationOps(messages, est)) == MessagesCost(messages, est)
    decreases |messages|
  {
    hide MessageOps, MessageCost, AllTokens;
    NoTokens();
    if messages != [] {
      var init, last := messages[..|messages| - 1], messages[|messages| - 1];
      var before, mark := ConversationOps(init, est), if |messages| == 1 then [] else [Mark];
      ConversationCosts(init, est);
      MessageCosts(last, est);
      AllTokensAppend(before, mark);
      AllTokensAppend(before + mark, MessageOps(last, est));
    }
  }

  lemma {:induction false} ToolCosts(tools: seq<Tool>, est: Estimators)
    ensures AllTokens(ToolOps(tools, est)) == ToolsCost(tools, est)
    decreases |tools|
  {
    if tools != [] {
      var init, last := tools[..|tools| - 1], tools[|tools| - 1];
      ToolCosts(init, est);
      assert ToolOps(tools, est) == ToolOps(init, est) + ToolOps([last], est);
      AllTokensSnoc(ToolOps(init, est), ToolOps([last], est)[0]);
    }
  }

  lemma {:induction false} SystemCosts(systems: seq<SystemMessage>, n: nat, est: Estimators)
    requires n <= |systems|
    ensures AllTokens(SystemOps(systems, est)[..n]) == SystemsCost(systems[..n], est)
    decreases n
  {
    if n > 0 {
      SystemCosts(systems, n - 1, est);
      var ops := SystemOps(systems, est);
      assert ops[..n] == ops[..n - 1] + [ops[n - 1]];
      AllTokensSnoc(ops[..n - 1], ops[n - 1]);
      assert systems[..n][..n - 1] == systems[..n - 1];
    }
  }

  /** The prompt estimate of a request is the sum of what its tools, its system texts and its messages cost, capped at
      32 bits, whether it is cached or not. */
  lemma PromptIsSum(req: MessagesRequest, keyId: nat, est: Estimators)
    ensures FinalMeter(req, keyId, est).promptTokens ==
            Min(U32_MAX, ToolsCost(req.tools.GetOr([]), est) + SystemsCost(req.system.GetOr([]), est)
                         + MessagesCost(req.messages, est))
  {
    hide ToolOps, SystemOps, ConversationOps, AllTokens, ToolsCost, SystemsCost, MessagesCost, RunOps;
    var tools, systems := req.tools.GetOr([]), req.system.GetOr([]);
    PromptIsCapped(IsolationSeed(req, keyId).GetOr("uncacheable:key:0"), RequestOps(req, est),
                   IsolationSeed(req, keyId).Some?, RequestTtl(req));
    AllTokensAppend(HeadOps(req, est), ConversationOps(req.messages, est));
    AllTokensAppend(ToolOps(tools, est) + SystemOps(systems, est), [Mark]);
    AllTokensAppend(ToolOps(tools, est), SystemOps(systems, est));
    NoTokens();
    ToolCosts(tools, est);
    SystemsWhole(systems, est);
    SystemCosts(systems, |systems|, est);
    ConversationCosts(req.messages, est);
  }

  lemma SystemsWhole(systems: seq<SystemMessage>, est: Estimators)
    ensures var n := |systems|;
            |SystemOps(systems, est)| == n && SystemOps(systems, est)[..n] == SystemOps(systems, est)
    ensures systems[..|systems|] == systems
  {
  }

  // ----- Time to live -----

  /** A cache control that asks for an hour. */
  predicate AsksHour(ttl: Option<string>) {
    ttl.Some? && Strings.Lower(ttl.value) == "1h"
  }

  function ControlTtl(cc: Option<CacheControl>): Option<string> {
    if cc.Some? then cc.value.ttl else None
  }

  /** Some tool, system text or block of a message asks for an hour. */
  predicate HourAsked(req: MessagesRequest) {
    || (exists t <- req.tools.GetOr([]) :: AsksHour(ControlTtl(t.cacheControl)))
    || (exists s <- req.system.GetOr([]) :: AsksHour(ControlTtl(s.cacheControl)))
    || (exists m <- req.messages :: m.content.Arr? && exists v <- m.content.items ::
          AsksHour(Json.AsStr(Json.Get(Json.Get(v, "cache_control").GetOr(Json.Null), "ttl"))))
  }

  /** A committed turn lives for an hour if anything in it asks for that, and for five minutes otherwise. */
  lemma TurnLives(last: CachePlan.CommittedTurn)
    ensures CachePlan.ExpiryOf(last) == last.at + if HourAsked(last.req) then 3600 else 300
  {
    assert Strings.Lower("1h") == "1h" && Strings.Lower("5m") == "5m";
    forall ttl: Option<string>
      ensures ParseTtl(ttl) == 3600 <==> AsksHour(ttl)
    {
    }
  }
}
