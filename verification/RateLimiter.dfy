/** The fixed-window rate limiter of the admin API, and its use by the authentication middleware.
    Instants are nanoseconds of a monotonic clock. */
module RateLimiter {
  import opened Basics
  import opened Wrappers

  const WINDOW: nat := 60_000_000_000
  const ADMIN_AUTH_LIMIT: nat := 20
  const ADMIN_SENSITIVE_LIMIT: nat := 60

  datatype Bucket = Bucket(windowStart: nat, count: nat)

  /** `now.duration_since(start) >= ADMIN_RATE_LIMIT_WINDOW`: an earlier `now` is no time at all. */
  predicate Expired(b: Bucket, now: nat) {
    now >= b.windowStart && now - b.windowStart >= WINDOW
  }

  function SaturatingIncrement(n: nat): nat {
    if n >= U32_MAX then U32_MAX else n + 1
  }

  // ----- One bucket -----

  /** The window that a call at `now` falls into. */
  function Current(b: Option<Bucket>, now: nat): Bucket {
    if b.None? || Expired(b.value, now) then Bucket(now, 0) else b.value
  }

  function Counted(b: Option<Bucket>, now: nat): Bucket {
    var c := Current(b, now);
    c.(count := SaturatingIncrement(c.count))
  }

  /** A check leaves a key without a bucket alone. */
  function Checked(b: Option<Bucket>, now: nat): Option<Bucket> {
    if b.None? then None else Some(Current(b, now))
  }

  predicate Exceeded(b: Option<Bucket>, now: nat, limit: nat) {
    b.Some? && !Expired(b.value, now) && b.value.count >= limit
  }

  class Limiter {
    var buckets: map<string, Bucket>

    ghost function At(key: string): Option<Bucket>
      reads this
    {
      if key in buckets then Some(buckets[key]) else None
    }

    constructor ()
      ensures buckets == map[]
    {
      buckets := map[];
    }

    method RateLimited(key: string, now: nat, limit: nat) returns (limited: bool)
      modifies this
      ensures buckets == old(buckets)[key := Counted(old(At(key)), now)]
      ensures limited == (buckets[key].count > limit)
    {
      if key !in buckets {
        buckets := buckets[key := Bucket(now, 0)];
      }
      var bucket := buckets[key];
      if now >= bucket.windowStart && now - bucket.windowStart >= WINDOW {
        bucket := Bucket(now, 0);
      }
      bucket := bucket.(count := SaturatingIncrement(bucket.count));
      buckets := buckets[key := bucket];
      limited := bucket.count > limit;
    }

    method IsExceeded(key: string, now: nat, limit: nat) returns (exceeded: bool)
      modifies this
      ensures buckets == if key in old(buckets) then old(buckets)[key := Current(old(At(key)), now)] else old(buckets)
      ensures exceeded == Exceeded(old(At(key)), now, limit)
    {
      if key !in buckets {
        return false;
      }
      var bucket := buckets[key];
      if now >= bucket.windowStart && now - bucket.windowStart >= WINDOW {
        buckets := buckets[key := Bucket(now, 0)];
        return false;
      }
      exceeded := bucket.count >= limit;
      assert buckets[key := bucket] == buckets;
    }
  }

  // ----- All calls on one key -----

  datatype Call = Limited(now: nat, limit: nat) | Check(now: nat, limit: nat)

  function After(calls: seq<Call>): Option<Bucket> {
    if calls == [] then None else AfterCall(After(calls[..|calls| - 1]), calls[|calls| - 1])
  }

  function AfterCall(b: Option<Bucket>, call: Call): Option<Bucket> {
    match call
    case Limited(now, _) => Some(Counted(b, now))
    case Check(now, _) => Checked(b, now)
  }

  /** A call that counts and is let through. */
  predicate Allows(b: Option<Bucket>, call: Call) {
    call.Limited? && Counted(b, call.now).count <= call.limit
  }

  /** The clock does not go back. */
  predicate Ordered(calls: seq<Call>) {
    forall i, j | 0 <= i < j < |calls| :: calls[i].now <= calls[j].now
  }

  /** The call opens a new window. */
  predicate Opens(b: Option<Bucket>, call: Call) {
    b.None? || Expired(b.value, call.now)
  }

  /** Calls let through with a limit of at most `limit` in the current window. */
  function AllowedInWindow(calls: seq<Call>, limit: nat): nat {
    if calls == [] then 0
    else
      var init, last := calls[..|calls| - 1], calls[|calls| - 1];
      var b := After(init);
      (if Opens(b, last) then 0 else AllowedInWindow(init, limit)) +
      (if Allows(b, last) && last.limit <= limit then 1 else 0)
  }

  /** Calls let through with a limit of at most `limit` from `from` on, for one window's length. */
  function AllowedFrom(calls: seq<Call>, limit: nat, from: nat): nat {
    if calls == [] then 0
    else
      var init, last := calls[..|calls| - 1], calls[|calls| - 1];
      AllowedFrom(init, limit, from) +
      (if Allows(After(init), last) && last.limit <= limit && from <= last.now < from + WINDOW then 1 else 0)
  }

  lemma {:induction false} WindowKeepsCount(calls: seq<Call>, limit: nat)
    requires limit < U32_MAX
    ensures AllowedInWindow(calls, limit) <= limit
    ensures After(calls).None? ==> AllowedInWindow(calls, limit) == 0
    ensures After(calls).Some? ==> AllowedInWindow(calls, limit) <= After(calls).value.count
    decreases |calls|
  {
    if calls != [] {
      WindowKeepsCount(calls[..|calls| - 1], limit);
    }
  }

  /** At most `limit` calls are let through per window, whatever the clock does and whatever other
      limits and checks share the key, if and only if the limit is below the saturation point. */
  lemma WindowBoundIff(limit: nat)
    requires limit <= U32_MAX
    ensures (forall calls :: AllowedInWindow(calls, limit) <= limit) <==> limit < U32_MAX
  {
    if limit < U32_MAX {
      forall calls
        ensures AllowedInWindow(calls, limit) <= limit
      {
        WindowKeepsCount(calls, limit);
      }
    } else {
      SaturatedLimitAllowsAll(U32_MAX + 1);
      assert AllowedInWindow(Repeat(U32_MAX + 1, Limited(0, U32_MAX)), limit) > limit;
    }
  }

  function Repeat(n: nat, call: Call): seq<Call> {
    seq(n, i => call)
  }

  lemma RepeatSnoc(n: nat, call: Call)
    requires n > 0
    ensures Repeat(n, call)[..n - 1] == Repeat(n - 1, call)
  {
  }

  lemma RepeatMore(calls: seq<Call>, n: nat, call: Call)
    ensures calls + Repeat(n + 1, call) == calls + Repeat(n, call) + [call]
    ensures calls + Repeat(0, call) == calls
  {
  }

  lemma {:induction false} SaturatedLimitAllowsAll(n: nat)
    ensures AllowedInWindow(Repeat(n, Limited(0, U32_MAX)), U32_MAX) == n
    ensures n > 0 ==> After(Repeat(n, Limited(0, U32_MAX))).Some?
    ensures n > 0 ==> After(Repeat(n, Limited(0, U32_MAX))).value.windowStart == 0
    ensures n > 0 ==> After(Repeat(n, Limited(0, U32_MAX))).value.count <= U32_MAX
  {
    if n > 0 {
      RepeatSnoc(n, Limited(0, U32_MAX));
      SaturatedLimitAllowsAll(n - 1);
    }
  }

  // ----- Any interval of one window's length -----

  lemma {:induction false} NoneBefore(calls: seq<Call>, limit: nat, from: nat)
    requires forall c <- calls :: c.now < from
    ensures AllowedFrom(calls, limit, from) == 0
    decreases |calls|
  {
    if calls != [] {
      assert calls[|calls| - 1] in calls;
      NoneBefore(calls[..|calls| - 1], limit, from);
    }
  }

  /** The window holds the last call, and every call before it. */
  lemma {:induction false} LastInWindow(calls: seq<Call>)
    requires Ordered(calls)
    ensures After(calls).Some? ==>
              && calls != []
              && After(calls).value.windowStart <= calls[|calls| - 1].now < After(calls).value.windowStart + WINDOW
    decreases |calls|
  {
    if calls != [] {
      LastInWindow(calls[..|calls| - 1]);
    }
  }

  /** What the start of the current window says of the interval: all of it lies in this window,
      or it began in the one before, or it is over. */
  predicate Spread(b: Option<Bucket>, allowed: nat, limit: nat, from: nat) {
    match b
    case None => allowed == 0
    case Some(Bucket(start, count)) =>
      if start <= from then allowed <= Min(count, limit)
      else if start < from + WINDOW then allowed <= limit + Min(count, limit)
      else allowed <= 2 * limit
  }

  lemma SpreadStep(b: Option<Bucket>, call: Call, allowed: nat, limit: nat, from: nat)
    requires limit < U32_MAX && Spread(b, allowed, limit, from)
    requires b.Some? ==> b.value.windowStart <= call.now
    requires Opens(b, call) && call.now <= from ==> allowed == 0
    ensures var counts := Allows(b, call) && call.limit <= limit && from <= call.now < from + WINDOW;
            Spread(AfterCall(b, call), allowed + if counts then 1 else 0, limit, from)
  {
  }

  lemma {:induction false} RunSpread(calls: seq<Call>, limit: nat, from: nat)
    requires limit < U32_MAX && Ordered(calls)
    ensures Spread(After(calls), AllowedFrom(calls, limit, from), limit, from)
    decreases |calls|
  {
    if calls != [] {
      var n := |calls| - 1;
      var init, last := calls[..n], calls[n];
      RunSpread(init, limit, from);
      LastInWindow(init);
      if Opens(After(init), last) && last.now <= from && After(init).Some? {
        assert forall c <- init :: c.now <= init[n - 1].now;
        NoneBefore(init, limit, from);
      }
      SpreadStep(After(init), last, AllowedFrom(init, limit, from), limit, from);
    }
  }

  /** In any half-open interval of sixty seconds at most twice the limit is let through. */
  lemma AtMostTwiceTheLimit(calls: seq<Call>, limit: nat, from: nat)
    requires limit < U32_MAX && Ordered(calls)
    ensures AllowedFrom(calls, limit, from) <= 2 * limit
  {
    RunSpread(calls, limit, from);
  }

  /** Twice the limit is reached: a check opens a window early, and its calls come late. */
  function TightCalls(limit: nat): seq<Call> {
    [Limited(0, limit), Check(WINDOW, limit)] + Repeat(limit, Limited(2 * WINDOW - 1, limit)) +
    Repeat(limit, Limited(2 * WINDOW, limit))
  }

  lemma CallSnoc(calls: seq<Call>, call: Call, limit: nat, from: nat)
    ensures After(calls + [call]) == AfterCall(After(calls), call)
    ensures AllowedFrom(calls + [call], limit, from) ==
            AllowedFrom(calls, limit, from) +
            if Allows(After(calls), call) && call.limit <= limit && from <= call.now < from + WINDOW then 1 else 0
  {
    assert (calls + [call])[..|calls|] == calls;
  }

  /** In a fresh window with `n` calls one more is counted and, below the limit, let through. */
  lemma OneMoreCall(b: Option<Bucket>, n: nat, call: Call)
    requires call.Limited? && n < call.limit < U32_MAX && b.Some? && Current(b, call.now).count == 0
    ensures var start := Current(b, call.now).windowStart;
            var c := if n == 0 then b else Some(Bucket(start, n));
            Allows(c, call) && AfterCall(c, call) == Some(Bucket(start, n + 1))
  {
  }

  /** A fresh window takes `n` more calls. */
  lemma {:induction false} AddCalls(calls: seq<Call>, n: nat, call: Call, from: nat)
    requires call.Limited? && from <= call.now < from + WINDOW && n <= call.limit < U32_MAX
    requires After(calls).Some? && Current(After(calls), call.now).count == 0
    ensures AllowedFrom(calls + Repeat(n, call), call.limit, from) == AllowedFrom(calls, call.limit, from) + n
    ensures var start := Current(After(calls), call.now).windowStart;
            n > 0 ==> After(calls + Repeat(n, call)) == Some(Bucket(start, n))
    decreases n
  {
    RepeatMore(calls, if n == 0 then 0 else n - 1, call);
    if n > 0 {
      AddCalls(calls, n - 1, call, from);
      OneMoreCall(After(calls), n - 1, call);
      CallSnoc(calls + Repeat(n - 1, call), call, call.limit, from);
    }
  }

  lemma OpeningCalls(limit: nat)
    ensures var opening := [Limited(0, limit), Check(WINDOW, limit)];
            After(opening) == Some(Bucket(WINDOW, 0)) && AllowedFrom(opening, limit, 2 * WINDOW - 1) == 0
  {
    var first, second := Limited(0, limit), Check(WINDOW, limit);
    CallSnoc([], first, limit, 2 * WINDOW - 1);
    CallSnoc([first], second, limit, 2 * WINDOW - 1);
    assert [] + [first] == [first] && [first] + [second] == [first, second];
  }

  lemma TightCallsOrdered(limit: nat)
    ensures Ordered(TightCalls(limit))
  {
  }

  lemma TwiceTheLimitIsReached(limit: nat)
    requires 0 < limit < U32_MAX
    ensures Ordered(TightCalls(limit))
    ensures AllowedFrom(TightCalls(limit), limit, 2 * WINDOW - 1) == 2 * limit
  {
    TightCallsOrdered(limit);
    var from := 2 * WINDOW - 1;
    var opening := [Limited(0, limit), Check(WINDOW, limit)];
    var late := Limited(from, limit);
    OpeningCalls(limit);
    AddCalls(opening, limit, late, from);
    AddCalls(opening + Repeat(limit, late), limit, Limited(2 * WINDOW, limit), from);
  }

  // ----- The authentication middleware -----

  datatype Reply = SensitiveLimited | AuthLimited | Unauthorized | Admitted

  /** A request to the admin API: the client's rate key, whether the path is sensitive, whether the
      key it presents is right, and the instants at which the limiter is consulted. */
  datatype Request = Request(rateKey: string, sensitive: bool, authentic: bool, t0: nat, t1: nat, t2: nat)

  /** The calls counted in the window that is open at `now`. */
  function CountAt(b: Option<Bucket>, now: nat): nat {
    match b
    case None => 0
    case Some(Bucket(start, count)) => if now >= start && now - start >= WINDOW then 0 else count
  }

  /** A closed gate says so.  Past the gate, with fewer than twenty failures in the open window, exactly the right
      keys are admitted and exactly the wrong ones refused and counted; from twenty on nobody is compared. */
  method AdminAuth(limiter: Limiter, r: Request) returns (reply: Reply)
    modifies limiter
    ensures reply == SensitiveLimited <==>
              r.sensitive && CountAt(old(limiter.At(r.rateKey)), r.t0) >= ADMIN_SENSITIVE_LIMIT
    ensures reply != SensitiveLimited ==>
              var failures := CountAt(old(limiter.At("auth:" + r.rateKey)), r.t1);
              && (reply == AuthLimited <==> failures >= ADMIN_AUTH_LIMIT)
              && (reply == Admitted <==> failures < ADMIN_AUTH_LIMIT && r.authentic)
              && (reply == Unauthorized <==> failures < ADMIN_AUTH_LIMIT && !r.authentic)
    ensures r.t1 <= r.t2 ==>
              CountAt(limiter.At("auth:" + r.rateKey), r.t2) ==
              CountAt(old(limiter.At("auth:" + r.rateKey)), r.t2) + if reply == Unauthorized then 1 else 0
    ensures var authKey := "auth:" + r.rateKey;
            var gated := r.sensitive && Counted(old(limiter.At(r.rateKey)), r.t0).count > ADMIN_SENSITIVE_LIMIT;
            var (bucket, verdict) := Attempted(old(limiter.At(authKey)), Attempt(r.authentic, r.t1, r.t2));
            if gated then reply == SensitiveLimited && limiter.At(authKey) == old(limiter.At(authKey))
            else reply == verdict && limiter.At(authKey) == bucket
    ensures limiter.At(r.rateKey) ==
            if r.sensitive then Some(Counted(old(limiter.At(r.rateKey)), r.t0)) else old(limiter.At(r.rateKey))
    ensures forall k | k != r.rateKey && k != "auth:" + r.rateKey :: limiter.At(k) == old(limiter.At(k))
  {
    var authKey := "auth:" + r.rateKey;
    assert |authKey| == |r.rateKey| + 5 && authKey != r.rateKey;
    if r.sensitive {
      var limited := limiter.RateLimited(r.rateKey, r.t0, ADMIN_SENSITIVE_LIMIT);
      if limited {
        return SensitiveLimited;
      }
    }
    var exceeded := limiter.IsExceeded(authKey, r.t1, ADMIN_AUTH_LIMIT);
    if exceeded {
      return AuthLimited;
    }
    if r.authentic {
      return Admitted;
    }
    var _ := limiter.RateLimited(authKey, r.t2, ADMIN_AUTH_LIMIT);
    reply := Unauthorized;
  }

  /** What a request that passes the first gate does to the bucket of its authentication key. */
  datatype Attempt = Attempt(authentic: bool, checkedAt: nat, failedAt: nat)

  function Attempted(b: Option<Bucket>, a: Attempt): (Option<Bucket>, Reply) {
    var checked := Checked(b, a.checkedAt);
    if Exceeded(b, a.checkedAt, ADMIN_AUTH_LIMIT) then (checked, AuthLimited)
    else if a.authentic then (checked, Admitted)
    else (Some(Counted(checked, a.failedAt)), Unauthorized)
  }

  /** The limiter calls of attempts made one after the other. */
  function CallsOf(attempts: seq<Attempt>): seq<Call> {
    if attempts == [] then []
    else
      var before, last := CallsOf(attempts[..|attempts| - 1]), attempts[|attempts| - 1];
      before + [Check(last.checkedAt, ADMIN_AUTH_LIMIT)] +
      if Attempted(After(before), last).1 == Unauthorized then [Limited(last.failedAt, ADMIN_AUTH_LIMIT)] else []
  }

  /** Key comparisons that failed from `from` on, for one window's length. */
  function FailuresFrom(attempts: seq<Attempt>, from: nat): nat {
    if attempts == [] then 0
    else
      var init, last := attempts[..|attempts| - 1], attempts[|attempts| - 1];
      FailuresFrom(init, from) +
      if Attempted(After(CallsOf(init)), last).1 == Unauthorized && from <= last.failedAt < from + WINDOW then 1 else 0
  }

  /** One attempt, as calls: a failed comparison is always one that the limiter lets through. */
  lemma AttemptIsCalls(before: seq<Call>, a: Attempt, from: nat)
    ensures var (bucket, reply) := Attempted(After(before), a);
            var check := before + [Check(a.checkedAt, ADMIN_AUTH_LIMIT)];
            var calls := check + if reply == Unauthorized then [Limited(a.failedAt, ADMIN_AUTH_LIMIT)] else [];
            && After(calls) == bucket
            && (reply == Unauthorized ==> Allows(After(check), Limited(a.failedAt, ADMIN_AUTH_LIMIT)))
            && AllowedFrom(calls, ADMIN_AUTH_LIMIT, from) ==
               AllowedFrom(before, ADMIN_AUTH_LIMIT, from) +
               if reply == Unauthorized && from <= a.failedAt < from + WINDOW then 1 else 0
  {
    var check := before + [Check(a.checkedAt, ADMIN_AUTH_LIMIT)];
    assert check[..|before|] == before;
    var failed := Limited(a.failedAt, ADMIN_AUTH_LIMIT);
    assert (check + [failed])[..|check|] == check;
    assert check + [] == check;
  }

  lemma {:induction false} FailuresAreAllowedCalls(attempts: seq<Attempt>, from: nat)
    ensures FailuresFrom(attempts, from) == AllowedFrom(CallsOf(attempts), ADMIN_AUTH_LIMIT, from)
    decreases |attempts|
  {
    if attempts != [] {
      var init, last := attempts[..|attempts| - 1], attempts[|attempts| - 1];
      FailuresAreAllowedCalls(init, from);
      AttemptIsCalls(CallsOf(init), last, from);
    }
  }

  /** Key comparisons that failed at `start` or later. */
  function FailuresSince(attempts: seq<Attempt>, start: nat): nat {
    if attempts == [] then 0
    else
      var init, last := attempts[..|attempts| - 1], attempts[|attempts| - 1];
      FailuresSince(init, start) +
      if Attempted(After(CallsOf(init)), last).1 == Unauthorized && start <= last.failedAt then 1 else 0
  }

  /** Calls let through with a limit of at most `limit` at `start` or later. */
  function AllowedSince(calls: seq<Call>, limit: nat, start: nat): nat {
    if calls == [] then 0
    else
      var init, last := calls[..|calls| - 1], calls[|calls| - 1];
      AllowedSince(init, limit, start) +
      if Allows(After(init), last) && last.limit <= limit && start <= last.now then 1 else 0
  }

  lemma AllowedSinceSnoc(calls: seq<Call>, call: Call, limit: nat, start: nat)
    ensures After(calls + [call]) == AfterCall(After(calls), call)
    ensures AllowedSince(calls + [call], limit, start) ==
            AllowedSince(calls, limit, start) +
            if Allows(After(calls), call) && call.limit <= limit && start <= call.now then 1 else 0
  {
    assert (calls + [call])[..|calls|] == calls;
  }

  lemma {:induction false} NoneSince(calls: seq<Call>, limit: nat, start: nat)
    requires forall c <- calls :: c.now < start
    ensures AllowedSince(calls, limit, start) == 0
    decreases |calls|
  {
    if calls != [] {
      assert calls[|calls| - 1] in calls;
      NoneSince(calls[..|calls| - 1], limit, start);
    }
  }

  lemma {:induction false} NoneWithoutBucket(calls: seq<Call>, limit: nat, start: nat)
    requires After(calls).None?
    ensures AllowedSince(calls, limit, start) == 0
    decreases |calls|
  {
    if calls != [] {
      NoneWithoutBucket(calls[..|calls| - 1], limit, start);
    }
  }

  /** Since the start of the current window no more is let through than the bucket counts. */
  lemma {:induction false} WindowHoldsItsCalls(calls: seq<Call>, limit: nat)
    requires limit < U32_MAX && Ordered(calls) && After(calls).Some?
    ensures AllowedSince(calls, limit, After(calls).value.windowStart) <= Min(After(calls).value.count, limit)
    decreases |calls|
  {
    var n := |calls| - 1;
    var init, last := calls[..n], calls[n];
    var start := After(calls).value.windowStart;
    if After(init).None? {
      NoneWithoutBucket(init, limit, start);
    } else if Expired(After(init).value, last.now) {
      LastInWindow(init);
      assert forall c <- init :: c.now <= init[n - 1].now;
      NoneSince(init, limit, start);
    } else {
      WindowHoldsItsCalls(init, limit);
    }
  }

  lemma AttemptCallsSince(before: seq<Call>, a: Attempt, start: nat)
    ensures var reply := Attempted(After(before), a).1;
            var check := before + [Check(a.checkedAt, ADMIN_AUTH_LIMIT)];
            var calls := check + if reply == Unauthorized then [Limited(a.failedAt, ADMIN_AUTH_LIMIT)] else [];
            AllowedSince(calls, ADMIN_AUTH_LIMIT, start) ==
            AllowedSince(before, ADMIN_AUTH_LIMIT, start) +
            if reply == Unauthorized && start <= a.failedAt then 1 else 0
  {
    var check, failed := Check(a.checkedAt, ADMIN_AUTH_LIMIT), Limited(a.failedAt, ADMIN_AUTH_LIMIT);
    AllowedSinceSnoc(before, check, ADMIN_AUTH_LIMIT, start);
    AllowedSinceSnoc(before + [check], failed, ADMIN_AUTH_LIMIT, start);
    assert before + [check] + [] == before + [check];
  }

  lemma {:induction false} FailuresAreAllowedSince(attempts: seq<Attempt>, start: nat)
    ensures FailuresSince(attempts, start) == AllowedSince(CallsOf(attempts), ADMIN_AUTH_LIMIT, start)
    decreases |attempts|
  {
    if attempts != [] {
      var init, last := attempts[..|attempts| - 1], attempts[|attempts| - 1];
      FailuresAreAllowedSince(init, start);
      AttemptCallsSince(CallsOf(init), last, start);
    }
  }

  /** One client, one request at a time: at most twenty failed comparisons since the limiter's
      current window began, at most forty in any sixty seconds. */
  lemma SequentialFailuresAreBounded(attempts: seq<Attempt>, from: nat)
    requires Ordered(CallsOf(attempts))
    ensures After(CallsOf(attempts)).Some? ==>
              FailuresSince(attempts, After(CallsOf(attempts)).value.windowStart) <= ADMIN_AUTH_LIMIT
    ensures FailuresFrom(attempts, from) <= 2 * ADMIN_AUTH_LIMIT
  {
    var calls := CallsOf(attempts);
    if After(calls).Some? {
      WindowHoldsItsCalls(calls, ADMIN_AUTH_LIMIT);
      FailuresAreAllowedSince(attempts, After(calls).value.windowStart);
    }
    AtMostTwiceTheLimit(calls, ADMIN_AUTH_LIMIT, from);
    FailuresAreAllowedCalls(attempts, from);
  }

  // ----- Requests in flight at the same time -----

  /** Interleaved requests of one client: a check, and later the outcome of a request that passed
      its check. */
  datatype Move = Begin(now: nat) | Fail(now: nat) | Succeed

  /** The bucket, the requests past their check, and the failed comparisons of the current window. */
  datatype Flight = Flight(bucket: Option<Bucket>, inFlight: nat, failures: nat)

  const NO_FLIGHT := Flight(None, 0, 0)

  /** At most `k` requests are in flight at once; only a request in flight has an outcome. */
  predicate CanMove(f: Flight, move: Move, k: nat) {
    if move.Begin? then f.inFlight < k else f.inFlight > 0
  }

  function Moved(f: Flight, move: Move, limit: nat): Flight
    requires move.Begin? || f.inFlight > 0
  {
    match move
    case Begin(now) =>
      var kept := if Opens(f.bucket, Check(now, limit)) then 0 else f.failures;
      Flight(Checked(f.bucket, now), f.inFlight + (if Exceeded(f.bucket, now, limit) then 0 else 1), kept)
    case Fail(now) =>
      var kept := if Opens(f.bucket, Limited(now, limit)) then 0 else f.failures;
      Flight(Some(Counted(f.bucket, now)), f.inFlight - 1, kept + 1)
    case Succeed => f.(inFlight := f.inFlight - 1)
  }

  /** The state after a list of moves, if each is possible in its turn. */
  function Fly(moves: seq<Move>, limit: nat, k: nat): Option<Flight> {
    if moves == [] then Some(NO_FLIGHT)
    else
      match Fly(moves[..|moves| - 1], limit, k)
      case None => None
      case Some(f) =>
        var last := moves[|moves| - 1];
        if CanMove(f, last, k) then Some(Moved(f, last, limit)) else None
  }

  lemma {:induction false} FlightsAreBounded(moves: seq<Move>, limit: nat, k: nat)
    requires 0 < limit < U32_MAX && 0 < k && Fly(moves, limit, k).Some?
    ensures var f := Fly(moves, limit, k).value;
            && f.inFlight <= k && f.failures + f.inFlight <= limit + k - 1
            && (f.bucket.None? ==> f.failures == 0)
            && (f.bucket.Some? ==> f.bucket.value.count == Min(f.failures, U32_MAX))
    decreases |moves|
  {
    if moves != [] {
      FlightsAreBounded(moves[..|moves| - 1], limit, k);
    }
  }

  /** With at most `k` requests in flight, in every interleaving and whatever the clock does, at most
      `limit + k - 1` comparisons fail per window: `limit` if requests come one at a time. */
  lemma FailuresInFlight(moves: seq<Move>, limit: nat, k: nat)
    requires 0 < limit < U32_MAX && 0 < k && Fly(moves, limit, k).Some?
    ensures Fly(moves, limit, k).value.failures <= limit + k - 1
  {
    FlightsAreBounded(moves, limit, k);
  }

  /** The bound is attained: `limit - 1` requests fail one by one, then `k` together. */
  function TightMoves(limit: nat, k: nat): seq<Move>
    requires limit > 0
  {
    OneByOne(limit - 1) + Begins(k) + Fails(k)
  }

  function OneByOne(n: nat): seq<Move> {
    if n == 0 then [] else OneByOne(n - 1) + [Begin(0), Fail(0)]
  }

  function Begins(n: nat): seq<Move> {
    seq(n, i => Begin(0))
  }

  function Fails(n: nat): seq<Move> {
    seq(n, i => Fail(0))
  }

  lemma MovesMore(before: seq<Move>, n: nat)
    ensures before + Begins(n + 1) == before + Begins(n) + [Begin(0)] && before + Begins(0) == before
    ensures before + Fails(n + 1) == before + Fails(n) + [Fail(0)] && before + Fails(0) == before
  {
  }

  lemma FlySnoc(moves: seq<Move>, move: Move, limit: nat, k: nat)
    requires Fly(moves, limit, k).Some? && CanMove(Fly(moves, limit, k).value, move, k)
    ensures Fly(moves + [move], limit, k) == Some(Moved(Fly(moves, limit, k).value, move, limit))
  {
    assert (moves + [move])[..|moves|] == moves;
  }

  /** A state in the window that starts at zero, or before any window. */
  function InFirstWindow(inFlight: nat, failures: nat): Flight {
    Flight(if failures == 0 then None else Some(Bucket(0, failures)), inFlight, failures)
  }

  lemma BeginInFirstWindow(inFlight: nat, failures: nat, limit: nat)
    requires failures < limit < U32_MAX
    ensures Moved(InFirstWindow(inFlight, failures), Begin(0), limit) == InFirstWindow(inFlight + 1, failures)
  {
  }

  lemma FailInFirstWindow(inFlight: nat, failures: nat, limit: nat)
    requires inFlight > 0 && failures < U32_MAX
    ensures Moved(InFirstWindow(inFlight, failures), Fail(0), limit) == InFirstWindow(inFlight - 1, failures + 1)
  {
  }

  /** One more move, from a known state to a known state. */
  lemma FlyOn(moves: seq<Move>, move: Move, f: Flight, f': Flight, limit: nat, k: nat)
    requires Fly(moves, limit, k) == Some(f) && CanMove(f, move, k) && Moved(f, move, limit) == f'
    ensures Fly(moves + [move], limit, k) == Some(f')
  {
    FlySnoc(moves, move, limit, k);
  }

  lemma {:induction false} OneByOneFlies(n: nat, limit: nat, k: nat)
    requires n < limit < U32_MAX && k > 0
    ensures Fly(OneByOne(n), limit, k) == Some(InFirstWindow(0, n))
  {
    if n > 0 {
      OneByOneFlies(n - 1, limit, k);
      BeginInFirstWindow(0, n - 1, limit);
      FailInFirstWindow(1, n - 1, limit);
      FlyOn(OneByOne(n - 1), Begin(0), InFirstWindow(0, n - 1), InFirstWindow(1, n - 1), limit, k);
      FlyOn(OneByOne(n - 1) + [Begin(0)], Fail(0), InFirstWindow(1, n - 1), InFirstWindow(0, n), limit, k);
      assert OneByOne(n) == OneByOne(n - 1) + [Begin(0)] + [Fail(0)];
    }
  }

  lemma {:induction false} BeginsFly(before: seq<Move>, n: nat, failures: nat, limit: nat, k: nat)
    requires Fly(before, limit, k) == Some(InFirstWindow(0, failures))
    requires failures < limit < U32_MAX && n <= k
    ensures Fly(before + Begins(n), limit, k) == Some(InFirstWindow(n, failures))
    decreases n
  {
    MovesMore(before, if n == 0 then 0 else n - 1);
    if n > 0 {
      BeginsFly(before, n - 1, failures, limit, k);
      BeginInFirstWindow(n - 1, failures, limit);
      FlyOn(before + Begins(n - 1), Begin(0), InFirstWindow(n - 1, failures), InFirstWindow(n, failures), limit, k);
    }
  }

  lemma {:induction false} FailsFly(before: seq<Move>, n: nat, left: nat, failures: nat, limit: nat, k: nat)
    requires Fly(before, limit, k) == Some(InFirstWindow(left + n, failures)) && failures + n <= U32_MAX
    ensures Fly(before + Fails(n), limit, k) == Some(InFirstWindow(left, failures + n))
    decreases n
  {
    hide Fly, Fails;
    if n == 0 {
      MovesMore(before, 0);
    } else {
      var m, failed := n - 1, failures + (n - 1);
      assert left + 1 + m == left + n && failed + 1 == failures + n;
      FailsFly(before, m, left + 1, failures, limit, k);
      OneMoreFails(before, m, left, failed, limit, k);
    }
  }

  lemma OneMoreFails(before: seq<Move>, n: nat, left: nat, failures: nat, limit: nat, k: nat)
    requires Fly(before + Fails(n), limit, k) == Some(InFirstWindow(left + 1, failures)) && failures < U32_MAX
    ensures Fly(before + Fails(n + 1), limit, k) == Some(InFirstWindow(left, failures + 1))
  {
    MovesMore(before, n);
    FailInFirstWindow(left + 1, failures, limit);
    FlyOn(before + Fails(n), Fail(0), InFirstWindow(left + 1, failures), InFirstWindow(left, failures + 1), limit, k);
  }

  lemma FailuresInFlightIsTight(limit: nat, k: nat)
    requires 0 < limit && 0 < k && limit + k <= U32_MAX
    ensures Fly(TightMoves(limit, k), limit, k).Some?
    ensures Fly(TightMoves(limit, k), limit, k).value.failures == limit + k - 1
  {
    OneByOneFlies(limit - 1, limit, k);
    BeginsFly(OneByOne(limit - 1), k, limit - 1, limit, k);
    FailsFly(OneByOne(limit - 1) + Begins(k), k, 0, limit - 1, limit, k);
  }
}
