/** Isolation of the cache between client keys and sessions, although the hash input has no
    separators. */
module CacheIsolation {
  import opened Wrappers
  import opened Strings
  import opened Types
  import opened CacheTable
  import opened CacheSegments
  import opened CacheChain
  import Json
  import JsonText

  // ----- Client keys -----

  /** No session in the request's metadata: the client key is the seed. */
  predicate Sessionless(req: MessagesRequest) {
    req.userId.Some? ==> ExtractSessionId(req.userId.value).None?
  }

  /** A role that cannot be mistaken for more digits of the client key. */
  predicate PlainRole(role: string) {
    role != "" && !('0' <= role[0] <= '9')
  }

  predicate StartsOffDigits(s: string) {
    s == "" || !('0' <= s[0] <= '9')
  }

  predicate OffDigitOp(op: Op) {
    op.Feed? ==> op.text != "" && !('0' <= op.text[0] <= '9')
  }

  lemma HeadOpsOffDigits(req: MessagesRequest, est: Estimators)
    ensures forall op <- HeadOps(req, est) :: OffDigitOp(op)
  {
    var tools, systems := req.tools.GetOr([]), req.system.GetOr([]);
    forall i | 0 <= i < |tools|
      ensures OffDigitOp(ToolOps(tools, est)[i])
    {
      assert ToolSignature(tools[i])[0] == 't';
    }
    forall i | 0 <= i < |systems|
      ensures OffDigitOp(SystemOps(systems, est)[i])
    {
      assert SystemSignature(systems[i])[0] == 's';
    }
  }

  /** The first text a conversation feeds is the role of its first message. */
  lemma {:induction false} ConversationStart(messages: seq<Message>, est: Estimators)
    requires messages != []
    ensures ConversationOps(messages, est) != []
    ensures ConversationOps(messages, est)[0] == Feed(messages[0].role, 0)
    decreases |messages|
  {
    if |messages| == 1 {
      assert messages[..0] == [];
    } else {
      ConversationStart(messages[..|messages| - 1], est);
    }
  }

  /** Text fed after the seed never continues the digits of the seed. */
  lemma {:induction false} FedOffDigits(ops: seq<Op>, i: nat, k: nat)
    requires i <= |ops| && k <= |ops|
    requires forall j | 0 <= j < i :: OffDigitOp(ops[j])
    requires i < |ops| ==> OffDigitOp(ops[i]) && ops[i].Feed?
    ensures StartsOffDigits(FedText(ops[..k]))
    decreases k
  {
    if k == 0 {
      assert FedText(ops[..0]) == "";
    } else {
      hide FedText;
      FedOffDigits(ops, i, k - 1);
      FedTextSnoc(ops, k - 1);
      if k - 1 > i {
        FedNonEmpty(ops[..k - 1], i);
      }
    }
  }

  lemma FedTextSnoc(ops: seq<Op>, k: nat)
    requires k < |ops|
    ensures FedText(ops[..k + 1]) == FedText(ops[..k]) + if ops[k].Feed? then ops[k].text else ""
  {
    assert ops[..k + 1][..k] == ops[..k];
  }

  lemma {:induction false} FedNonEmpty(ops: seq<Op>, i: nat)
    requires i < |ops| && ops[i].Feed? && ops[i].text != ""
    ensures FedText(ops) != ""
    decreases |ops|
  {
    if i < |ops| - 1 {
      FedNonEmpty(ops[..|ops| - 1], i);
    }
  }

  lemma RequestFedOffDigits(req: MessagesRequest, est: Estimators)
    requires req.messages != [] ==> PlainRole(req.messages[0].role)
    ensures forall k | 0 <= k <= |RequestOps(req, est)| :: StartsOffDigits(FedText(RequestOps(req, est)[..k]))
  {
    var head := HeadOps(req, est);
    HeadOpsOffDigits(req, est);
    if req.messages != [] {
      ConversationStart(req.messages, est);
    }
    forall k | 0 <= k <= |RequestOps(req, est)|
      ensures StartsOffDigits(FedText(RequestOps(req, est)[..k]))
    {
      FedOffDigits(RequestOps(req, est), |head|, k);
    }
  }

  /** Nothing of the request can be mistaken for more digits of the client key. */
  predicate PlainStart(req: MessagesRequest) {
    req.messages != [] ==> PlainRole(req.messages[0].role)
  }

  /** The digits of `id` begin those of `id'`. */
  predicate Begins(id: nat, id': nat) {
    JsonText.Digits(id) <= JsonText.Digits(id')
  }

  /** Requests of two client keys without a session share no prefix key, provided that, if the digits of one key
      begin those of the other, the first role of the former's request does not go on with a digit. */
  lemma KeysAreIsolated(
    req: MessagesRequest, id: nat, req': MessagesRequest, id': nat, est: Estimators, s: Segment, s': Segment)
    requires id != id' && id != 0 && id' != 0
    requires Sessionless(req) && Sessionless(req')
    requires Begins(id, id') ==> PlainStart(req)
    requires Begins(id', id) ==> PlainStart(req')
    requires s in Segments(req, id, est) && s' in Segments(req', id', est)
    ensures s.key != s'.key
  {
    var a, b := JsonText.Digits(id), JsonText.Digits(id');
    var x := SegmentKeyShape(req, id, est, s);
    var y := SegmentKeyShape(req', id', est, s');
    if s.key == s'.key {
      CancelSeed("key:", a, x, b, y);
      PrefixesOfOneText(a, x, b, y);
      if a <= b {
        LongerDigits(id, id', x, y);
      } else {
        LongerDigits(id', id, y, x);
      }
    }
  }

  /** If more digits follow, they are in the text after the shorter key. */
  lemma LongerDigits(id: nat, id': nat, x: string, y: string)
    requires id != id' && Begins(id, id') && JsonText.Digits(id) + x == JsonText.Digits(id') + y
    ensures !StartsOffDigits(x)
  {
    var a, b := JsonText.Digits(id), JsonText.Digits(id');
    if |a| == |b| {
      assert a == b;
      JsonText.DigitsInjective(id, id');
    } else {
      assert x[0] == (a + x)[|a|] == (b + y)[|a|] == b[|a|];
      assert b[|a|] in b;
    }
  }

  lemma CancelSeed(p: string, a: string, x: string, b: string, y: string)
    requires p + a + x == p + b + y
    ensures a + x == b + y
  {
    assert (p + a + x)[|p|..] == a + x;
    assert (p + b + y)[|p|..] == b + y;
  }

  /** A prefix key is the seed followed by text of the request. */
  lemma SeedBegins(req: MessagesRequest, id: nat, est: Estimators, s: Segment, seed: string) returns (rest: string)
    requires IsolationSeed(req, id) == Some(seed) && s in Segments(req, id, est)
    ensures s.key == seed + rest
    ensures exists k :: 0 <= k <= |RequestOps(req, est)| && rest == FedText(RequestOps(req, est)[..k])
  {
    var ops, segs := RequestOps(req, est), Segments(req, id, est);
    var i :| 0 <= i < |segs| && segs[i] == s;
    assert Chain(segs)[i] == Link(s.key, s.tokens);
    ChainIsMarks(seed, ops, RequestTtl(req), Link(s.key, s.tokens));
    var k :| 0 <= k < |ops| && ops[k].Mark? && MarkedLink(seed, ops, k) == Link(s.key, s.tokens);
    rest := FedText(ops[..k]);
  }

  lemma SegmentKeyShape(req: MessagesRequest, id: nat, est: Estimators, s: Segment) returns (rest: string)
    requires id != 0 && Sessionless(req) && s in Segments(req, id, est)
    ensures s.key == "key:" + JsonText.Digits(id) + rest
    ensures PlainStart(req) ==> StartsOffDigits(rest)
  {
    rest := SeedBegins(req, id, est, s, "key:" + JsonText.Digits(id));
    if PlainStart(req) {
      RequestFedOffDigits(req, est);
    }
  }

  lemma PrefixesOfOneText(p: string, x: string, q: string, y: string)
    requires p + x == q + y
    ensures p <= q || q <= p
  {
    var s := p + x;
    assert s[..|p|] == p && s[..|q|] == q;
  }

  /** Neither seed begins with the other. */
  predicate SeedsApart(a: string, b: string) {
    !(a <= b) && !(b <= a)
  }

  /** Whatever the two requests say, seeds of which neither begins with the other share no prefix key. */
  lemma SeedsApartShareNothing(
    req: MessagesRequest, id: nat, req': MessagesRequest, id': nat, est: Estimators, s: Segment, s': Segment)
    requires IsolationSeed(req, id).Some? && IsolationSeed(req', id').Some?
    requires SeedsApart(IsolationSeed(req, id).value, IsolationSeed(req', id').value)
    requires s in Segments(req, id, est) && s' in Segments(req', id', est)
    ensures s.key != s'.key
  {
    var seed, seed' := IsolationSeed(req, id).value, IsolationSeed(req', id').value;
    var x := SeedBegins(req, id, est, s, seed);
    var y := SeedBegins(req', id', est, s', seed');
    if s.key == s'.key {
      PrefixesOfOneText(seed, x, seed', y);
    }
  }

  // ----- Sessions -----

  /** The session that scopes the request's prefixes. */
  function SessionOf(req: MessagesRequest): Option<string> {
    if req.userId.Some? then ExtractSessionId(req.userId.value) else None
  }

  /** A session never shares a prefix with a client key. */
  lemma SessionsAndKeysAreIsolated(
    req: MessagesRequest, id: nat, req': MessagesRequest, id': nat, est: Estimators, s: Segment, s': Segment)
    requires SessionOf(req).Some? && SessionOf(req').None? && id' != 0
    requires s in Segments(req, id, est) && s' in Segments(req', id', est)
    ensures s.key != s'.key
  {
    var seed, seed' := "sess:" + SessionOf(req).value, "key:" + JsonText.Digits(id');
    assert seed[0] == 's' && seed'[0] == 'k';
    SeedsApartShareNothing(req, id, req', id', est, s, s');
  }

  /** The two requests share a prefix key. */
  ghost predicate SharePrefix(req: MessagesRequest, req': MessagesRequest, id: nat, id': nat, est: Estimators) {
    exists s, s' :: s in Segments(req, id, est) && s' in Segments(req', id', est) && s.key == s'.key
  }

  lemma SessionPrefixes(a: string, b: string)
    requires "sess:" + a <= "sess:" + b
    ensures a <= b
  {
    assert ("sess:" + a)[5..] == a && ("sess:" + b)[5..] == b;
    assert ("sess:" + b)[..5 + |a|] == "sess:" + a;
    assert b[..|a|] == ("sess:" + b)[5..5 + |a|];
  }

  /** Two sessions share a prefix only if one session id begins with the other. */
  lemma SharingSessionsBeginAlike(req: MessagesRequest, req': MessagesRequest, id: nat, id': nat, est: Estimators)
    requires SessionOf(req).Some? && SessionOf(req').Some? && SharePrefix(req, req', id, id', est)
    ensures SessionOf(req).value <= SessionOf(req').value || SessionOf(req').value <= SessionOf(req).value
  {
    var a, b := SessionOf(req).value, SessionOf(req').value;
    var s, s' :| s in Segments(req, id, est) && s' in Segments(req', id', est) && s.key == s'.key;
    if SeedsApart("sess:" + a, "sess:" + b) {
      SeedsApartShareNothing(req, id, req', id', est, s, s');
    }
    if "sess:" + a <= "sess:" + b {
      SessionPrefixes(a, b);
    } else {
      SessionPrefixes(b, a);
    }
  }

  /** A session id as it can be extracted from metadata. */
  predicate IsSessionId(a: string) {
    a != "" && Trim(a) == a
  }

  /** Two short messages, the first one from `role`. */
  function Greeting(userId: Option<string>, role: string): MessagesRequest {
    MessagesRequest("", [Message(role, Json.Str("hi")), Message("user", Json.Str("hi"))], None, None, userId)
  }

  function InSession(a: string): Option<string> {
    Some("_session_" + a)
  }

  lemma GreetingSession(a: string, role: string)
    requires IsSessionId(a)
    ensures SessionOf(Greeting(InSession(a), role)) == Some(a)
  {
    var userId := "_session_" + a;
    assert userId[..9] == "_session_" && StartsWith(userId, "_session_");
    assert Find(userId, "_session_") == 0;
    assert userId[0..] == userId && userId[9..] == a;
  }

  lemma GreetingOps(userId: Option<string>, role: string, est: Estimators)
    ensures var ops, n := RequestOps(Greeting(userId, role), est), TextTokens(est, "hi");
            |ops| >= 4 && ops[3] == Mark && ops[..3] == [Mark, Feed(role, 0), Feed("hi", n)]
  {
    var msgs, n := Greeting(userId, role).messages, TextTokens(est, "hi");
    var first, second := msgs[0], msgs[1];
    assert msgs[..1] == [first] && [first][..0] == [];
    assert MessageOps(first, est) == [Feed(role, 0), Feed("hi", n)];
    assert ConversationOps([first], est) == [] + [] + MessageOps(first, est);
    assert ConversationOps(msgs, est) == ConversationOps([first], est) + [Mark] + MessageOps(second, est);
    assert HeadOps(Greeting(userId, role), est) == [Mark];
  }

  lemma GreetingFed(role: string, n: nat)
    ensures FedText([Mark, Feed(role, 0), Feed("hi", n)]) == role + "hi"
    ensures FedTokens([Mark, Feed(role, 0), Feed("hi", n)]) == n
  {
    var ops := [Mark, Feed(role, 0), Feed("hi", n)];
    assert ops[..2] == [Mark, Feed(role, 0)] && ops[..2][..1] == [Mark] && [Mark][..0] == [];
    assert FedText([Mark]) == "" && FedTokens([Mark]) == 0;
    assert FedText(ops[..2]) == "" + role && FedTokens(ops[..2]) == 0;
  }

  lemma GreetingKey(userId: Option<string>, role: string, id: nat, est: Estimators, seed: string)
    returns (s: Segment)
    requires IsolationSeed(Greeting(userId, role), id) == Some(seed) && est.text("hi") > 0
    ensures s in Segments(Greeting(userId, role), id, est) && s.key == seed + (role + "hi")
  {
    var req, n := Greeting(userId, role), TextTokens(est, "hi");
    var ops := RequestOps(req, est);
    GreetingOps(userId, role, est);
    GreetingFed(role, n);
    var link := Link(seed + (role + "hi"), Capped(n));
    assert MarkedLink(seed, ops, 3) == link;
    ChainIsMarks(seed, ops, RequestTtl(req), link);
    var segs := Segments(req, id, est);
    var i :| 0 <= i < |Chain(segs)| && Chain(segs)[i] == link;
    s := segs[i];
  }

  /** If one seed begins with the other, two requests with these seeds share a prefix. */
  lemma AlikeSeedsCanShare(
    userId: Option<string>, userId': Option<string>, p: string, a: string, b: string, id: nat, id': nat,
    est: Estimators)
    requires a <= b && est.text("hi") > 0
    requires IsolationSeed(Greeting(userId, b[|a|..] + "user"), id) == Some(p + a)
    requires IsolationSeed(Greeting(userId', "user"), id') == Some(p + b)
    ensures SharePrefix(Greeting(userId, b[|a|..] + "user"), Greeting(userId', "user"), id, id', est)
  {
    var x := b[|a|..];
    var s := GreetingKey(userId, x + "user", id, est, p + a);
    var s' := GreetingKey(userId', "user", id', est, p + b);
    SameText(p, a, x, "user", "hi");
    assert b == a + x;
  }

  lemma SameText(p: string, a: string, x: string, u: string, h: string)
    ensures p + a + (x + u + h) == p + (a + x) + (u + h)
  {
  }

  /** Some requests of the two sessions share a prefix key. */
  ghost predicate CanShare(a: string, b: string, est: Estimators) {
    exists req, req', id, id' ::
      SessionOf(req) == Some(a) && SessionOf(req') == Some(b) && SharePrefix(req, req', id, id', est)
  }

  /** Roles are free text and nothing separates what is hashed: two sessions are isolated from each
      other if and only if neither id begins with the other. */
  lemma SessionsShareIff(a: string, b: string, est: Estimators)
    requires IsSessionId(a) && IsSessionId(b) && est.text("hi") > 0
    ensures CanShare(a, b, est) <==> a <= b || b <= a
  {
    if CanShare(a, b, est) {
      var req, req', id, id' :|
        SessionOf(req) == Some(a) && SessionOf(req') == Some(b) && SharePrefix(req, req', id, id', est);
      SharingSessionsBeginAlike(req, req', id, id', est);
    }
    if a <= b {
      SessionsCanShare(a, b, est);
    } else if b <= a {
      SessionsCanShare(b, a, est);
    }
  }

  lemma SessionsCanShare(a: string, b: string, est: Estimators)
    requires IsSessionId(a) && IsSessionId(b) && a <= b && est.text("hi") > 0
    ensures CanShare(a, b, est) && CanShare(b, a, est)
  {
    var req, req' := Greeting(InSession(a), b[|a|..] + "user"), Greeting(InSession(b), "user");
    GreetingSession(a, b[|a|..] + "user");
    GreetingSession(b, "user");
    AlikeSeedsCanShare(InSession(a), InSession(b), "sess:", a, b, 0, 0, est);
    ShareBothWays(req, req', 0, 0, est);
  }

  lemma ShareBothWays(req: MessagesRequest, req': MessagesRequest, id: nat, id': nat, est: Estimators)
    requires SharePrefix(req, req', id, id', est)
    ensures SharePrefix(req', req, id', id, est)
  {
    var s, s' :| s in Segments(req, id, est) && s' in Segments(req', id', est) && s.key == s'.key;
  }

  /** Some requests of the two client keys, both without a session, share a prefix key. */
  ghost predicate KeysCanShare(id: nat, id': nat, est: Estimators) {
    exists req, req' :: Sessionless(req) && Sessionless(req') && SharePrefix(req, req', id, id', est)
  }

  /** The same of client keys: they are isolated from each other, whatever the requests say, if and only if the digits
      of neither begin those of the other. */
  lemma KeysShareIff(id: nat, id': nat, est: Estimators)
    requires id != 0 && id' != 0 && est.text("hi") > 0
    ensures KeysCanShare(id, id', est) <==> Begins(id, id') || Begins(id', id)
  {
    if KeysCanShare(id, id', est) && !Begins(id, id') && !Begins(id', id) {
      var req, req' :| Sessionless(req) && Sessionless(req') && SharePrefix(req, req', id, id', est);
      var s, s' :| s in Segments(req, id, est) && s' in Segments(req', id', est) && s.key == s'.key;
      KeysAreIsolated(req, id, req', id', est, s, s');
    }
    if Begins(id, id') {
      BeginningKeysCanShare(id, id', est);
    } else if Begins(id', id) {
      BeginningKeysCanShare(id', id, est);
    }
  }

  lemma BeginningKeysCanShare(id: nat, id': nat, est: Estimators)
    requires id != 0 && id' != 0 && Begins(id, id') && est.text("hi") > 0
    ensures KeysCanShare(id, id', est) && KeysCanShare(id', id, est)
  {
    var a, b := JsonText.Digits(id), JsonText.Digits(id');
    var req, req' := Greeting(None, b[|a|..] + "user"), Greeting(None, "user");
    AlikeSeedsCanShare(None, None, "key:", a, b, id, id', est);
    ShareBothWays(req, req', id, id', est);
  }

  // ----- In general -----

  /** A request and the client key it comes with. */
  datatype Keyed = Keyed(req: MessagesRequest, keyId: nat)

  /** The two requests are kept apart: one of them does not use the cache, neither seed begins with the other, or
      they come without a session from two client keys and do not start with digits. */
  predicate Apart(a: Keyed, b: Keyed) {
    var seed, seed' := IsolationSeed(a.req, a.keyId), IsolationSeed(b.req, b.keyId);
    || seed.None? || seed'.None? || SeedsApart(seed.value, seed'.value)
    || (&& Sessionless(a.req) && Sessionless(b.req) && a.keyId != b.keyId
        && PlainStart(a.req) && PlainStart(b.req))
  }

  lemma ApartShareNothing(a: Keyed, b: Keyed, est: Estimators, key: string)
    requires Apart(a, b)
    ensures !(HasKey(Segments(a.req, a.keyId, est), key) && HasKey(Segments(b.req, b.keyId, est), key))
  {
    if HasKey(Segments(a.req, a.keyId, est), key) && HasKey(Segments(b.req, b.keyId, est), key) {
      var s :| s in Segments(a.req, a.keyId, est) && s.key == key;
      var s' :| s' in Segments(b.req, b.keyId, est) && s'.key == key;
      UnseededHasNoSegments(a, est);
      UnseededHasNoSegments(b, est);
      if SeedsApart(IsolationSeed(a.req, a.keyId).value, IsolationSeed(b.req, b.keyId).value) {
        SeedsApartShareNothing(a.req, a.keyId, b.req, b.keyId, est, s, s');
      } else {
        KeysAreIsolated(a.req, a.keyId, b.req, b.keyId, est, s, s');
      }
    }
  }

  lemma UnseededHasNoSegments(a: Keyed, est: Estimators)
    ensures IsolationSeed(a.req, a.keyId).None? ==> Segments(a.req, a.keyId, est) == []
  {
    if IsolationSeed(a.req, a.keyId).None? {
      DisabledHasNoSegments(StartMeter(a.req, a.keyId), RequestOps(a.req, est), RequestTtl(a.req));
    }
  }
}
