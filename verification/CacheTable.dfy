/** The table of cached prompt prefixes (`CacheMeter`): time to live, least-recently-hit
    eviction and persistence.  A prefix is keyed by the text fed to its digest, so equal keys
    mean equal prefixes. */
module CacheTable {
  import opened Wrappers

  const CAPACITY := 4096
  const MAX_TTL_SECS := 3600

  datatype Entry = Entry(tokens: nat, expiresAt: int, lastHitAt: int)

  type Table = map<string, Entry>

  /** A prefix of a request: its key, its cumulative tokens and the time to live asked for. */
  datatype Segment = Segment(key: string, tokens: nat, ttl: int)

  function ClampTtl(ttl: int): int {
    if ttl < 60 then 60 else if ttl > MAX_TTL_SECS then MAX_TTL_SECS else ttl
  }

  // ----- The table as a value -----

  predicate HitAt(entries: Table, key: string, now: int) {
    key in entries && entries[key].expiresAt > now
  }

  /** The table after inserting the segments in order. */
  function Inserted(entries: Table, segs: seq<Segment>, expiresAt: int, now: int): Table
    decreases |segs|
  {
    if segs == [] then
      entries
    else
      var last := segs[|segs| - 1];
      Inserted(entries, segs[..|segs| - 1], expiresAt, now)[last.key := Entry(last.tokens, expiresAt, now)]
  }

  /** The table after a lookup: live entries among the keys are marked as just hit. */
  function Touched(entries: Table, segs: seq<Segment>, now: int): Table {
    map k | k in entries ::
      if entries[k].expiresAt > now && HasKey(segs, k)
      then entries[k].(lastHitAt := now) else entries[k]
  }

  lemma TouchedHits(entries: Table, segs: seq<Segment>, now: int)
    ensures forall k, t :: HitAt(Touched(entries, segs, now), k, t) <==> HitAt(entries, k, t)
  {
  }

  lemma TouchedStep(entries: Table, segs: seq<Segment>, seg: Segment, now: int)
    ensures var t := Touched(entries, segs, now);
            Touched(entries, segs + [seg], now) ==
            if HitAt(entries, seg.key, now) then t[seg.key := t[seg.key].(lastHitAt := now)] else t
  {
    HasKeyAppend(segs, seg);
  }

  /** What the lookup of one more segment sees and does. */
  lemma LookupStep(was: Table, segs: seq<Segment>, i: nat, now: int)
    requires i < |segs|
    ensures var t, key := Touched(was, segs[..i], now), segs[i].key;
            && (HitAt(t, key, now) <==> HitAt(was, key, now))
            && Touched(was, segs[..i + 1], now) ==
               if HitAt(t, key, now) then t[key := t[key].(lastHitAt := now)] else t
  {
    assert segs[..i + 1] == segs[..i] + [segs[i]];
    TouchedHits(was, segs[..i], now);
    TouchedStep(was, segs[..i], segs[i], now);
  }

  lemma HasKeyAppend(segs: seq<Segment>, seg: Segment)
    ensures forall k :: HasKey(segs + [seg], k) <==> HasKey(segs, k) || seg.key == k
  {
    forall k
      ensures HasKey(segs + [seg], k) <==> HasKey(segs, k) || seg.key == k
    {
      if HasKey(segs, k) {
        var s :| s in segs && s.key == k;
        assert s in segs + [seg];
      }
      if seg.key == k {
        assert seg in segs + [seg];
      }
    }
  }

  function Unexpired(entries: Table, now: int): Table {
    map k | k in entries && entries[k].expiresAt > now :: entries[k]
  }

  predicate HasKey(segs: seq<Segment>, key: string) {
    exists s <- segs :: s.key == key
  }

  lemma {:induction false} InsertedContents(entries: Table, segs: seq<Segment>, expiresAt: int, now: int)
    ensures var t := Inserted(entries, segs, expiresAt, now);
            && (forall k :: k in t <==> k in entries || HasKey(segs, k))
            && (forall k <- t :: if HasKey(segs, k)
                                 then t[k].expiresAt == expiresAt && t[k].lastHitAt == now
                                 else t[k] == entries[k])
    decreases |segs|
  {
    if segs != [] {
      var init, last := segs[..|segs| - 1], segs[|segs| - 1];
      InsertedContents(entries, init, expiresAt, now);
      assert segs == init + [last];
      HasKeyAppend(init, last);
    }
  }

  // ----- Least-recently-hit order -----

  predicate HitOrdered(ks: seq<string>, entries: Table)
    requires forall k <- ks :: k in entries
  {
    forall i, j | 0 <= i < j < |ks| :: entries[ks[i]].lastHitAt <= entries[ks[j]].lastHitAt
  }

  predicate Distinct(ks: seq<string>) {
    forall i, j | 0 <= i < j < |ks| :: ks[i] != ks[j]
  }

  function InsertByHit(k: string, ks: seq<string>, entries: Table): seq<string>
    requires k in entries && forall j <- ks :: j in entries
  {
    if ks == [] || entries[k].lastHitAt <= entries[ks[0]].lastHitAt then [k] + ks
    else [ks[0]] + InsertByHit(k, ks[1..], entries)
  }

  /** `victims.sort_by_key`: a stable sort on the time of the last hit. */
  function SortByHit(ks: seq<string>, entries: Table): (r: seq<string>)
    requires forall j <- ks :: j in entries
    ensures forall k :: k in r ==> k in entries
  {
    if ks == [] then [] else
      var rest := SortByHit(ks[1..], entries);
      InsertByHitContents(ks[0], rest, entries);
      InsertByHit(ks[0], rest, entries)
  }

  lemma {:induction false} InsertByHitContents(k: string, ks: seq<string>, entries: Table)
    requires k in entries && forall j <- ks :: j in entries
    ensures forall j :: j in InsertByHit(k, ks, entries) <==> j == k || j in ks
    ensures |InsertByHit(k, ks, entries)| == |ks| + 1
  {
    if ks != [] {
      InsertByHitContents(k, ks[1..], entries);
    }
  }

  /** A key before a list, not hit later than anything in it. */
  lemma FrontOrdered(k: string, ks: seq<string>, entries: Table)
    requires k in entries && forall j <- ks :: j in entries
    requires HitOrdered(ks, entries) && Distinct(ks) && k !in ks
    requires forall j <- ks :: entries[k].lastHitAt <= entries[j].lastHitAt
    ensures forall j <- [k] + ks :: j in entries
    ensures HitOrdered([k] + ks, entries) && Distinct([k] + ks)
  {
    var all := [k] + ks;
    forall i, j | 0 <= i < j < |all|
      ensures entries[all[i]].lastHitAt <= entries[all[j]].lastHitAt && all[i] != all[j]
    {
      assert all[j] == ks[j - 1] && ks[j - 1] in ks;
      if i > 0 {
        assert all[i] == ks[i - 1];
      }
    }
  }

  lemma FirstIsOldest(ks: seq<string>, entries: Table)
    requires ks != [] && (forall j <- ks :: j in entries) && HitOrdered(ks, entries) && Distinct(ks)
    ensures forall j <- ks :: entries[ks[0]].lastHitAt <= entries[j].lastHitAt
    ensures HitOrdered(ks[1..], entries) && Distinct(ks[1..]) && ks[0] !in ks[1..]
  {
    assert ks == [ks[0]] + ks[1..];
    forall j | j in ks
      ensures entries[ks[0]].lastHitAt <= entries[j].lastHitAt
    {
      var i :| 0 <= i < |ks| && ks[i] == j;
    }
    forall i | 0 <= i < |ks[1..]|
      ensures ks[1..][i] != ks[0]
    {
      assert ks[1..][i] == ks[i + 1];
    }
  }

  lemma {:induction false} InsertByHitOrdered(k: string, ks: seq<string>, entries: Table)
    requires k in entries && forall j <- ks :: j in entries
    requires HitOrdered(ks, entries) && Distinct(ks) && k !in ks
    ensures forall j <- InsertByHit(k, ks, entries) :: j in entries
    ensures HitOrdered(InsertByHit(k, ks, entries), entries)
    ensures Distinct(InsertByHit(k, ks, entries))
  {
    if ks == [] {
      assert [k] + ks == [k];
    } else {
      FirstIsOldest(ks, entries);
      if entries[k].lastHitAt <= entries[ks[0]].lastHitAt {
        FrontOrdered(k, ks, entries);
      } else {
        InsertByHitOrdered(k, ks[1..], entries);
        InsertByHitContents(k, ks[1..], entries);
        FrontOrdered(ks[0], InsertByHit(k, ks[1..], entries), entries);
      }
    }
  }

  lemma {:induction false} SortByHitOrdered(ks: seq<string>, entries: Table)
    requires forall j <- ks :: j in entries
    requires Distinct(ks)
    ensures var r := SortByHit(ks, entries);
            && |r| == |ks| && (forall k :: k in r <==> k in ks)
            && HitOrdered(r, entries) && Distinct(r)
  {
    if ks != [] {
      SortByHitOrdered(ks[1..], entries);
      var rest := SortByHit(ks[1..], entries);
      InsertByHitContents(ks[0], rest, entries);
      InsertByHitOrdered(ks[0], rest, entries);
    }
  }

  function KeySet(ks: seq<string>): set<string> {
    set k <- ks
  }

  lemma {:induction false} DistinctCardinality(ks: seq<string>)
    requires Distinct(ks)
    ensures |KeySet(ks)| == |ks|
  {
    if ks != [] {
      DistinctCardinality(ks[1..]);
      assert KeySet(ks) == {ks[0]} + KeySet(ks[1..]);
    }
  }

  // ----- Steps -----

  /** `disk` is what the persistence file holds, if there is one. */
  datatype State = State(entries: Table, dirty: bool, disk: Option<Table>)

  datatype Event =
    | Recorded(now: int, segs: seq<Segment>, ttl: int, evicted: set<string>)
    | LookedUp(now: int, segs: seq<Segment>)
    | Expired(now: int)
    | Flushed(now: int)
    | Reloaded(now: int)

  /** What capacity eviction may do: it keeps `min(|all|, CAPACITY)` entries, and nothing it
      drops was hit after something it keeps. */
  ghost predicate Evicts(all: Table, evicted: set<string>, kept: Table) {
    && evicted <= all.Keys
    && kept == all - evicted
    && |kept| == (if |all| <= CAPACITY then |all| else CAPACITY)
    && forall v <- evicted, k <- kept :: all[v].lastHitAt <= all[k].lastHitAt
  }

  ghost predicate Step(s: State, e: Event, s': State) {
    match e
    case Recorded(now, segs, ttl, evicted) =>
      && Evicts(Inserted(s.entries, segs, now + ClampTtl(ttl), now), evicted, s'.entries)
      && s'.dirty && s'.disk == s.disk
    case LookedUp(now, segs) =>
      s' == s.(entries := Touched(s.entries, segs, now))
    case Expired(now) =>
      && s'.entries == Unexpired(s.entries, now)
      && s'.dirty == (s.dirty || s'.entries != s.entries)
      && s'.disk == s.disk
    case Flushed(_) =>
      s' == if s.dirty then State(s.entries, false, Some(s.entries)) else s
    case Reloaded(now) =>
      // a restart after a flush
      && !s.dirty
      && s' == State(Unexpired(s.disk.GetOr(map[]), now), false, s.disk)
  }

  /** The process-wide cache.  The clock is a parameter of each method. */
  class CacheMeter {
    var entries: Table
    var dirty: bool
    var disk: Option<Table>

    ghost function View(): State
      reads this
    {
      State(entries, dirty, disk)
    }

    /** Starts from the persistence file: expired records are dropped. */
    constructor (file: Option<Table>, now: int)
      ensures View() == State(Unexpired(file.GetOr(map[]), now), false, file)
    {
      entries := match file case Some(t) => Unexpired(t, now) case None => map[];
      dirty := false;
      disk := file;
    }

    method Lookup(segs: seq<Segment>, now: int) returns (hits: seq<bool>)
      modifies this`entries
      ensures |hits| == |segs|
      ensures forall i | 0 <= i < |segs| :: hits[i] <==> HitAt(old(entries), segs[i].key, now)
      ensures Step(old(View()), LookedUp(now, segs), View())
    {
      hits := [];
      ghost var was := entries;
      for i := 0 to |segs|
        invariant |hits| == i
        invariant entries == Touched(was, segs[..i], now)
        invariant forall j | 0 <= j < i :: hits[j] <==> HitAt(was, segs[j].key, now)
      {
        LookupStep(was, segs, i, now);
        var hit := Touch(segs[i].key, now);
        hits := hits + [hit];
      }
      assert segs[..|segs|] == segs;
    }

    /** A live entry is marked as just hit. */
    method Touch(key: string, now: int) returns (hit: bool)
      modifies this`entries
      ensures hit <==> HitAt(old(entries), key, now)
      ensures entries == if hit then old(entries)[key := old(entries)[key].(lastHitAt := now)] else old(entries)
    {
      hit := key in entries && entries[key].expiresAt > now;
      if hit {
        entries := entries[key := entries[key].(lastHitAt := now)];
      }
    }

    method Record(segs: seq<Segment>, ttl: int, now: int) returns (ghost evicted: set<string>)
      modifies this`entries, this`dirty
      ensures Step(old(View()), Recorded(now, segs, ttl, evicted), View())
    {
      hide Inserted;
      Insert(segs, now + ClampTtl(ttl), now);
      dirty := true;
      evicted := EvictOverCapacity();
    }

    method Insert(segs: seq<Segment>, expiresAt: int, now: int)
      modifies this`entries
      ensures entries == Inserted(old(entries), segs, expiresAt, now)
    {
      ghost var was := entries;
      for i := 0 to |segs|
        invariant entries == Inserted(was, segs[..i], expiresAt, now)
      {
        assert segs[..i + 1][..i] == segs[..i];
        entries := entries[segs[i].key := Entry(segs[i].tokens, expiresAt, now)];
      }
      assert segs[..|segs|] == segs;
    }

    /** Over capacity, the entries hit longest ago go. */
    method EvictOverCapacity() returns (ghost evicted: set<string>)
      modifies this`entries
      ensures Evicts(old(entries), evicted, entries)
    {
      evicted := {};
      if |entries| <= CAPACITY {
        return;
      }
      var dropN := |entries| - CAPACITY;
      var victims := ListKeys();
      SortByHitOrdered(victims, entries);
      victims := SortByHit(victims, entries);
      DistinctCardinality(victims);
      assert KeySet(victims) == entries.Keys;
      evicted := KeySet(victims[..dropN]);
      OldestFirstEvicts(entries, victims, dropN, evicted);
      RemoveFirst(victims, dropN);
    }

    method RemoveFirst(victims: seq<string>, n: nat)
      requires n <= |victims|
      modifies this`entries
      ensures entries == old(entries) - KeySet(victims[..n])
    {
      ghost var all := entries;
      for i := 0 to n
        invariant entries == all - KeySet(victims[..i])
      {
        assert victims[..i + 1] == victims[..i] + [victims[i]];
        entries := entries - {victims[i]};
      }
    }

    /** The keys in the arbitrary order in which a hash table is visited. */
    method ListKeys() returns (ks: seq<string>)
      ensures Distinct(ks)
      ensures forall k :: k in ks <==> k in entries
    {
      ks := [];
      var rest := entries.Keys;
      while rest != {}
        invariant rest <= entries.Keys
        invariant forall k :: k in ks <==> k in entries && k !in rest
        invariant Distinct(ks)
      {
        var k :| k in rest;
        ks := ks + [k];
        rest := rest - {k};
      }
    }

    method EvictExpired(now: int)
      modifies this`entries, this`dirty
      ensures Step(old(View()), Expired(now), View())
    {
      var before := |entries|;
      UnexpiredSize(entries, now);
      entries := Unexpired(entries, now);
      if |entries| != before {
        dirty := true;
      }
    }

    method FlushToDisk(now: int)
      modifies this`dirty, this`disk
      ensures Step(old(View()), Flushed(now), View())
    {
      if !dirty {
        return;
      }
      dirty := false;
      disk := Some(entries);
    }
  }

  lemma EvictionKeeps(all: Table, victims: seq<string>, n: nat)
    requires n <= |victims|
    requires forall k :: k in victims <==> k in all
    requires Distinct(victims)
    ensures var evicted := KeySet(victims[..n]);
            evicted <= all.Keys && |all - evicted| == |all| - n
  {
    var evicted := KeySet(victims[..n]);
    DistinctCardinality(victims[..n]);
    assert (all - evicted).Keys == all.Keys - evicted;
  }

  lemma EvictionOrder(all: Table, victims: seq<string>, n: nat)
    requires n <= |victims|
    requires forall k :: k in victims <==> k in all
    requires HitOrdered(victims, all)
    ensures forall v <- victims[..n], k <- all | k !in victims[..n] :: all[v].lastHitAt <= all[k].lastHitAt
  {
    forall v, k | v in victims[..n] && k in all && k !in victims[..n]
      ensures all[v].lastHitAt <= all[k].lastHitAt
    {
      assert forall i | 0 <= i < n :: victims[i] in victims[..n];
      var i :| 0 <= i < n && victims[i] == v;
      var j :| 0 <= j < |victims| && victims[j] == k;
    }
  }

  lemma EvictedAreOldest(all: Table, victims: seq<string>, n: nat)
    requires n <= |victims|
    requires forall k :: k in victims <==> k in all
    requires HitOrdered(victims, all)
    ensures forall v <- KeySet(victims[..n]), k <- all - KeySet(victims[..n]) :: all[v].lastHitAt <= all[k].lastHitAt
  {
    forall v, k | v in KeySet(victims[..n]) && k in all - KeySet(victims[..n])
      ensures all[v].lastHitAt <= all[k].lastHitAt
    {
      EvictionOrder(all, victims, n);
      assert v in victims[..n] && k !in victims[..n];
    }
  }

  lemma OldestFirstEvicts(all: Table, victims: seq<string>, n: nat, evicted: set<string>)
    requires |all| == CAPACITY + n == |victims|
    requires forall k :: k in victims <==> k in all
    requires HitOrdered(victims, all) && Distinct(victims)
    requires evicted == KeySet(victims[..n])
    ensures Evicts(all, evicted, all - evicted)
  {
    EvictionKeeps(all, victims, n);
    EvictedAreOldest(all, victims, n);
  }

  lemma UnexpiredSize(entries: Table, now: int)
    ensures |Unexpired(entries, now)| == |entries| <==> Unexpired(entries, now) == entries
  {
    var u := Unexpired(entries, now);
    assert u.Keys <= entries.Keys;
    if u.Keys != entries.Keys {
      assert u.Keys < entries.Keys;
      SubsetSmaller(u.Keys, entries.Keys);
    }
  }

  lemma SubsetSmaller(a: set<string>, b: set<string>)
    requires a < b
    ensures |a| < |b|
  {
    assert b == a + (b - a);
    assert |b| == |a| + |b - a|;
  }

  // ----- Whole runs -----

  ghost predicate ClockOrdered(events: seq<Event>) {
    forall i, j | 0 <= i < j < |events| :: events[i].now <= events[j].now
  }

  const EMPTY_STATE := State(map[], false, None)

  /** A run from an empty cache: each event leads from one state to the next. */
  ghost predicate Run(states: seq<State>, events: seq<Event>) {
    && |states| == |events| + 1
    && states[0] == EMPTY_STATE
    && (forall i | 0 <= i < |events| :: Step(states[i], events[i], states[i + 1]))
    && ClockOrdered(events)
  }

  /** The reference answer, from the events alone: the latest record of the key is younger
      than its clamped time to live, and capacity eviction has not removed it since. */
  ghost predicate Live(events: seq<Event>, key: string, now: int) {
    events != [] &&
    var init, last := events[..|events| - 1], events[|events| - 1];
    if last.Recorded? && key in last.evicted then false
    else if last.Recorded? && HasKey(last.segs, key) then now < last.now + ClampTtl(last.ttl)
    else Live(init, key, now)
  }

  ghost predicate AgreeFrom(a: Table, b: Table, now: int) {
    forall k, t | t >= now :: HitAt(a, k, t) <==> HitAt(b, k, t)
  }

  /** What holds after every event of a run, `now` being the time of the last one. */
  ghost predicate Invariant(s: State, events: seq<Event>, now: int) {
    && (forall k, t | t >= now :: HitAt(s.entries, k, t) <==> Live(events, k, t))
    && (!s.dirty ==> AgreeFrom(s.disk.GetOr(map[]), s.entries, now))
    && |s.entries| <= CAPACITY
    && (s.disk.Some? ==> |s.disk.value| <= CAPACITY)
    && (forall k <- s.entries :: s.entries[k].lastHitAt <= now)
    && (s.disk.Some? ==> forall k <- s.disk.value :: s.disk.value[k].lastHitAt <= now)
  }

  lemma UnexpiredAtMost(entries: Table, now: int)
    ensures |Unexpired(entries, now)| <= |entries|
  {
    if Unexpired(entries, now).Keys != entries.Keys {
      SubsetSmaller(Unexpired(entries, now).Keys, entries.Keys);
    }
  }

  lemma RecordedHits(s: State, e: Event, s': State, key: string, t: int)
    requires e.Recorded? && Step(s, e, s')
    ensures HitAt(s'.entries, key, t) <==>
            && key !in e.evicted
            && if HasKey(e.segs, key) then t < e.now + ClampTtl(e.ttl) else HitAt(s.entries, key, t)
  {
    InsertedContents(s.entries, e.segs, e.now + ClampTtl(e.ttl), e.now);
  }

  lemma RecordKeepsInvariant(s: State, events: seq<Event>, before: int, e: Event, s': State)
    requires Invariant(s, events, before) && before <= e.now
    requires e.Recorded? && Step(s, e, s')
    ensures Invariant(s', events + [e], e.now)
  {
    assert (events + [e])[..|events|] == events;
    forall k, t | t >= e.now
      ensures HitAt(s'.entries, k, t) <==> Live(events + [e], k, t)
    {
      RecordedHits(s, e, s', k, t);
      assert HitAt(s.entries, k, t) <==> Live(events, k, t);
    }
    RecordedHitTimes(s, e, s');
  }

  lemma RecordedHitTimes(s: State, e: Event, s': State)
    requires e.Recorded? && Step(s, e, s')
    requires forall k <- s.entries :: s.entries[k].lastHitAt <= e.now
    ensures forall k <- s'.entries :: s'.entries[k].lastHitAt <= e.now
  {
    InsertedContents(s.entries, e.segs, e.now + ClampTtl(e.ttl), e.now);
  }

  lemma StepKeepsInvariant(s: State, events: seq<Event>, before: int, e: Event, s': State)
    requires Invariant(s, events, before) && before <= e.now
    requires Step(s, e, s')
    ensures Invariant(s', events + [e], e.now)
  {
    assert (events + [e])[..|events|] == events;
    match e {
      case Recorded(_, _, _, _) =>
        RecordKeepsInvariant(s, events, before, e, s');
      case LookedUp(now, segs) =>
        assert s'.entries.Keys == s.entries.Keys;
        assert forall k, t :: HitAt(s'.entries, k, t) <==> HitAt(s.entries, k, t);
        assert forall k, t | t >= now :: Live(events + [e], k, t) <==> Live(events, k, t);
      case Expired(now) =>
        UnexpiredAtMost(s.entries, now);
        assert forall k, t | t >= now :: HitAt(s'.entries, k, t) <==> HitAt(s.entries, k, t);
        assert forall k, t | t >= now :: Live(events + [e], k, t) <==> Live(events, k, t);
      case Flushed(_) =>
        assert forall k, t | t >= e.now :: Live(events + [e], k, t) <==> Live(events, k, t);
      case Reloaded(now) =>
        var table := s.disk.GetOr(map[]);
        UnexpiredAtMost(table, now);
        assert forall k, t | t >= now :: HitAt(s'.entries, k, t) <==> HitAt(table, k, t);
        assert forall k, t | t >= now :: Live(events + [e], k, t) <==> Live(events, k, t);
    }
  }

  lemma RunPrefix(states: seq<State>, events: seq<Event>, n: nat)
    requires Run(states, events) && n <= |events|
    ensures Run(states[..n + 1], events[..n])
  {
    forall i | 0 <= i < n
      ensures Step(states[..n + 1][i], events[..n][i], states[..n + 1][i + 1])
    {
      assert Step(states[i], events[i], states[i + 1]);
    }
  }

  lemma EmptyInvariant(now: int)
    ensures Invariant(EMPTY_STATE, [], now)
  {
  }

  lemma {:induction false} RunInvariant(states: seq<State>, events: seq<Event>, now: int)
    requires Run(states, events)
    requires events != [] ==> events[|events| - 1].now == now
    ensures Invariant(states[|events|], events, now)
  {
    var n := |events|;
    if n == 0 {
      EmptyInvariant(now);
    } else {
      var init := events[..n - 1];
      var before := if n == 1 then now else init[n - 2].now;
      RunPrefix(states, events, n - 1);
      RunInvariant(states[..n], init, before);
      assert init + [events[n - 1]] == events;
      StepKeepsInvariant(states[n - 1], init, before, events[n - 1], states[n]);
    }
  }

  /** Over every run, a lookup at or after the last event hits exactly the live keys, and
      the table never holds more than its capacity. */
  lemma LookupMatchesHistory(states: seq<State>, events: seq<Event>, key: string, now: int)
    requires Run(states, events)
    requires events != [] ==> events[|events| - 1].now <= now
    ensures HitAt(states[|events|].entries, key, now) <==> Live(events, key, now)
    ensures |states[|events|].entries| <= CAPACITY
  {
    RunInvariant(states, events, if events == [] then now else events[|events| - 1].now);
  }

  /** Just-recorded segments are only evicted when everything kept was hit in the same second. */
  lemma FreshRecordsEvictedLast(s: State, e: Event, s': State, key: string)
    requires e.Recorded? && Step(s, e, s')
    requires forall k <- s.entries :: s.entries[k].lastHitAt <= e.now
    requires HasKey(e.segs, key) && key in e.evicted
    ensures forall k <- s'.entries :: s'.entries[k].lastHitAt == e.now
  {
    InsertedContents(s.entries, e.segs, e.now + ClampTtl(e.ttl), e.now);
  }
}
