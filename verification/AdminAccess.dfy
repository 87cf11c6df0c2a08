/** Who is admitted to the admin API, over whole windows of requests. */
module AdminAccess {
  import opened Basics
  import opened Wrappers
  import opened RateLimiter

  // ----- Counted calls -----

  /** Every instant lies in the window that is open, or opens, at the first one. */
  predicate InWindow(b: Option<Bucket>, first: nat, now: nat) {
    var start := if b.Some? && !Expired(b.value, first) then b.value.windowStart else first;
    start <= now < start + WINDOW
  }

  /** The bucket in a window, `n` calls counted: none while nothing was counted and there was none before. */
  predicate HoldsCount(b: Option<Bucket>, first: nat, now: Option<Bucket>, n: nat) {
    match now
    case None => b.None? && n == 0
    case Some(Bucket(start, count)) =>
      && InWindow(b, first, start) && count == n
      && (b.Some? && !Expired(b.value, first) ==> start == b.value.windowStart)
  }

  /** One client's counted calls with one limit. */
  function BucketAfter(b: Option<Bucket>, times: seq<nat>): Option<Bucket> {
    if times == [] then b else Some(Counted(BucketAfter(b, times[..|times| - 1]), times[|times| - 1]))
  }

  lemma {:induction false} CallsCount(b: Option<Bucket>, times: seq<nat>, first: nat)
    requires forall t <- times :: InWindow(b, first, t)
    requires times != [] && times[0] == first && CountAt(b, first) + |times| <= U32_MAX
    ensures HoldsCount(b, first, BucketAfter(b, times), CountAt(b, first) + |times|)
    decreases |times|
  {
    var n := |times| - 1;
    assert times[n] in times;
    if n == 0 {
      assert times[..0] == [];
    } else {
      CallsCount(b, times[..n], first);
    }
  }

  /** Of the calls in one window exactly the first ones are let through, as many as the limit leaves. */
  lemma ExactlyTheFirstPass(b: Option<Bucket>, times: seq<nat>, limit: nat, i: nat)
    requires i < |times| && limit < U32_MAX && CountAt(b, times[0]) + |times| <= U32_MAX
    requires forall t <- times :: InWindow(b, times[0], t)
    ensures Counted(BucketAfter(b, times[..i]), times[i]).count <= limit <==> CountAt(b, times[0]) + i < limit
  {
    var upTo := times[..i + 1];
    assert upTo[..i] == times[..i];
    CallsCount(b, upTo, times[0]);
  }

  // ----- Attempts -----

  /** The bucket after attempts one after the other, and the reply to one more. */
  function BucketAfterAttempts(b: Option<Bucket>, attempts: seq<Attempt>): Option<Bucket> {
    if attempts == [] then b
    else Attempted(BucketAfterAttempts(b, attempts[..|attempts| - 1]), attempts[|attempts| - 1]).0
  }

  function ReplyTo(b: Option<Bucket>, attempts: seq<Attempt>, i: nat): Reply
    requires i < |attempts|
  {
    Attempted(BucketAfterAttempts(b, attempts[..i]), attempts[i]).1
  }

  /** The wrong keys among the attempts. */
  function WrongKeys(attempts: seq<Attempt>): nat {
    if attempts == [] then 0
    else WrongKeys(attempts[..|attempts| - 1]) + if attempts[|attempts| - 1].authentic then 0 else 1
  }

  predicate OneWindow(b: Option<Bucket>, attempts: seq<Attempt>) {
    forall a <- attempts ::
      InWindow(b, attempts[0].checkedAt, a.checkedAt) && InWindow(b, attempts[0].checkedAt, a.failedAt)
  }

  lemma OneMoreAttempt(
    b: Option<Bucket>, first: nat, before: Option<Bucket>, n: nat, a: Attempt)
    requires HoldsCount(b, first, before, n) || (before == b && a.checkedAt == first && n == CountAt(b, first))
    requires InWindow(b, first, a.checkedAt) && InWindow(b, first, a.failedAt)
    ensures var (bucket, reply) := Attempted(before, a);
            && HoldsCount(b, first, bucket, n + if reply == Unauthorized then 1 else 0)
            && reply == (if n >= ADMIN_AUTH_LIMIT then AuthLimited else if a.authentic then Admitted else Unauthorized)
  {
  }

  lemma {:induction false} AttemptsCount(b: Option<Bucket>, attempts: seq<Attempt>)
    requires attempts != [] && OneWindow(b, attempts)
    ensures var failures, wrong := CountAt(b, attempts[0].checkedAt), WrongKeys(attempts);
            HoldsCount(b, attempts[0].checkedAt, BucketAfterAttempts(b, attempts),
                       if failures >= ADMIN_AUTH_LIMIT then failures else Min(failures + wrong, ADMIN_AUTH_LIMIT))
    decreases |attempts|
  {
    var n, first := |attempts| - 1, attempts[0].checkedAt;
    var init, last := attempts[..n], attempts[n];
    assert last in attempts;
    var failures := CountAt(b, first);
    var held := if failures >= ADMIN_AUTH_LIMIT then failures else Min(failures + WrongKeys(init), ADMIN_AUTH_LIMIT);
    if n > 0 {
      assert forall a <- init :: a in attempts;
      AttemptsCount(b, init);
    } else {
      assert init == [];
    }
    OneMoreAttempt(b, first, BucketAfterAttempts(b, init), held, last);
  }

  /** Within one window, wrong keys counted by the keys themselves: as long as fewer than twenty came before, with
      those counted when the window was entered, exactly the right keys are admitted and exactly the wrong ones
      refused; afterwards everyone is told to wait. */
  lemma FirstTwentyWrongKeys(b: Option<Bucket>, attempts: seq<Attempt>, i: nat)
    requires i < |attempts| && OneWindow(b, attempts)
    ensures var wrong := CountAt(b, attempts[0].checkedAt) + WrongKeys(attempts[..i]);
            ReplyTo(b, attempts, i) ==
            if wrong >= ADMIN_AUTH_LIMIT then AuthLimited else if attempts[i].authentic then Admitted else Unauthorized
  {
    var init, first, failures := attempts[..i], attempts[0].checkedAt, CountAt(b, attempts[0].checkedAt);
    assert forall a <- init :: a in attempts;
    assert attempts[i] in attempts;
    var held := if failures >= ADMIN_AUTH_LIMIT then failures else Min(failures + WrongKeys(init), ADMIN_AUTH_LIMIT);
    if i > 0 {
      AttemptsCount(b, init);
    } else {
      assert init == [];
    }
    OneMoreAttempt(b, first, BucketAfterAttempts(b, init), held, attempts[i]);
  }

  /** A window entered with nothing counted: of the wrong keys exactly the first twenty are refused as such. */
  lemma ExactlyTwentyRefused(b: Option<Bucket>, attempts: seq<Attempt>)
    requires attempts != [] ==> OneWindow(b, attempts) && CountAt(b, attempts[0].checkedAt) == 0
    ensures Refused(b, attempts) == Min(WrongKeys(attempts), ADMIN_AUTH_LIMIT)
    decreases |attempts|
  {
    if attempts != [] {
      var n := |attempts| - 1;
      var init := attempts[..n];
      assert forall a <- init :: a in attempts;
      ExactlyTwentyRefused(b, init);
      FirstTwentyWrongKeys(b, attempts, n);
    }
  }

  /** How many attempts get the answer that the key is wrong. */
  function Refused(b: Option<Bucket>, attempts: seq<Attempt>): nat {
    if attempts == [] then 0
    else
      var n := |attempts| - 1;
      Refused(b, attempts[..n]) +
      if Attempted(BucketAfterAttempts(b, attempts[..n]), attempts[n]).1 == Unauthorized then 1 else 0
  }
}
