/** What the figures of a bucket count, said of the records' own fields. */
module UsageFigures {
  import opened UsageStats

  /** Which records to look at. */
  datatype Pick =
    | OfTime(ts: int)
    | OfModel(times: set<int>, model: string)
    | OfCredential(times: set<int>, id: nat)

  predicate Picked(p: Pick, e: Timed) {
    match p
    case OfTime(ts) => e.ts == ts
    case OfModel(times, model) => e.ts in times && e.rec.model == model
    case OfCredential(times, id) => e.ts in times && e.rec.credentialId == id
  }

  /** The records that are picked, in the order of their arrival. */
  function Records(es: seq<Timed>, pick: Pick): seq<UsageRecord> {
    if es == [] then []
    else Records(es[..|es| - 1], pick) + if Picked(pick, es[|es| - 1]) then [es[|es| - 1].rec] else []
  }

  function Sum(ns: seq<nat>): nat {
    if ns == [] then 0 else Sum(ns[..|ns| - 1]) + ns[|ns| - 1]
  }

  function SumReals(xs: seq<real>): real {
    if xs == [] then 0.0 else SumReals(xs[..|xs| - 1]) + xs[|xs| - 1]
  }

  function Inputs(rs: seq<UsageRecord>): nat {
    Sum(seq(|rs|, i requires 0 <= i < |rs| => rs[i].inputTokens))
  }

  function Outputs(rs: seq<UsageRecord>): nat {
    Sum(seq(|rs|, i requires 0 <= i < |rs| => rs[i].outputTokens))
  }

  function CacheCreations(rs: seq<UsageRecord>): nat {
    Sum(seq(|rs|, i requires 0 <= i < |rs| => rs[i].cacheCreationTokens))
  }

  function CacheReads(rs: seq<UsageRecord>): nat {
    Sum(seq(|rs|, i requires 0 <= i < |rs| => rs[i].cacheReadTokens))
  }

  function Credits(rs: seq<UsageRecord>): real {
    SumReals(seq(|rs|, i requires 0 <= i < |rs| => rs[i].credits))
  }

  /** The number of records that did not succeed. */
  function Failures(rs: seq<UsageRecord>): nat {
    if rs == [] then 0 else Failures(rs[..|rs| - 1]) + if rs[|rs| - 1].status == "success" then 0 else 1
  }

  /** The statistics show exactly these records. */
  predicate Shows(s: BucketStats, rs: seq<UsageRecord>) {
    && s.inputTokens == Inputs(rs) && s.outputTokens == Outputs(rs)
    && s.cacheCreationTokens == CacheCreations(rs) && s.cacheReadTokens == CacheReads(rs)
    && s.calls == |rs| && s.errors == Failures(rs)
    && s.credits == Credits(rs)
  }

  lemma SumSnoc(ns: seq<nat>, n: nat)
    ensures Sum(ns + [n]) == Sum(ns) + n
  {
    assert (ns + [n])[..|ns|] == ns;
  }

  lemma SumRealsSnoc(xs: seq<real>, x: real)
    ensures SumReals(xs + [x]) == SumReals(xs) + x
  {
    assert (xs + [x])[..|xs|] == xs;
  }

  lemma TokensSnoc(rs: seq<UsageRecord>, r: UsageRecord)
    ensures Inputs(rs + [r]) == Inputs(rs) + r.inputTokens
    ensures Outputs(rs + [r]) == Outputs(rs) + r.outputTokens
  {
    var all := rs + [r];
    SumSnoc(seq(|rs|, i requires 0 <= i < |rs| => rs[i].inputTokens), r.inputTokens);
    SumSnoc(seq(|rs|, i requires 0 <= i < |rs| => rs[i].outputTokens), r.outputTokens);
    assert seq(|all|, i requires 0 <= i < |all| => all[i].inputTokens) ==
           seq(|rs|, i requires 0 <= i < |rs| => rs[i].inputTokens) + [r.inputTokens];
    assert seq(|all|, i requires 0 <= i < |all| => all[i].outputTokens) ==
           seq(|rs|, i requires 0 <= i < |rs| => rs[i].outputTokens) + [r.outputTokens];
  }

  lemma CacheSnoc(rs: seq<UsageRecord>, r: UsageRecord)
    ensures CacheCreations(rs + [r]) == CacheCreations(rs) + r.cacheCreationTokens
    ensures CacheReads(rs + [r]) == CacheReads(rs) + r.cacheReadTokens
  {
    var all := rs + [r];
    SumSnoc(seq(|rs|, i requires 0 <= i < |rs| => rs[i].cacheCreationTokens), r.cacheCreationTokens);
    SumSnoc(seq(|rs|, i requires 0 <= i < |rs| => rs[i].cacheReadTokens), r.cacheReadTokens);
    assert seq(|all|, i requires 0 <= i < |all| => all[i].cacheCreationTokens) ==
           seq(|rs|, i requires 0 <= i < |rs| => rs[i].cacheCreationTokens) + [r.cacheCreationTokens];
    assert seq(|all|, i requires 0 <= i < |all| => all[i].cacheReadTokens) ==
           seq(|rs|, i requires 0 <= i < |rs| => rs[i].cacheReadTokens) + [r.cacheReadTokens];
  }

  lemma CreditsSnoc(rs: seq<UsageRecord>, r: UsageRecord)
    ensures Credits(rs + [r]) == Credits(rs) + r.credits
  {
    var all := rs + [r];
    SumRealsSnoc(seq(|rs|, i requires 0 <= i < |rs| => rs[i].credits), r.credits);
    assert seq(|all|, i requires 0 <= i < |all| => all[i].credits) ==
           seq(|rs|, i requires 0 <= i < |rs| => rs[i].credits) + [r.credits];
  }

  /** Adding a record adds its own fields, one call, and one error unless it succeeded. */
  lemma ShowsOneMore(s: BucketStats, rs: seq<UsageRecord>, r: UsageRecord)
    requires Shows(s, rs)
    ensures Shows(s.Add(r), rs + [r])
  {
    hide Inputs, Outputs, CacheCreations, CacheReads, Credits;
    TokensSnoc(rs, r);
    CacheSnoc(rs, r);
    CreditsSnoc(rs, r);
    assert (rs + [r])[..|rs|] == rs;
  }

  lemma RecordsSnoc(es: seq<Timed>, e: Timed, pick: Pick)
    ensures Records(es + [e], pick) == if Picked(pick, e) then Records(es, pick) + [e.rec] else Records(es, pick)
  {
    assert (es + [e])[..|es|] == es;
  }

  /** The records of a group are picked. */
  ghost predicate Picks(pick: Pick, g: Group) {
    forall e :: Picked(pick, e) <==> Matches(g, e)
  }

  lemma TotalShowsNothing(g: Group, pick: Pick)
    ensures Shows(Total([], g), Records([], pick))
  {
  }

  lemma TotalShowsOneMore(es: seq<Timed>, e: Timed, g: Group, pick: Pick)
    requires Shows(Total(es, g), Records(es, pick)) && (Picked(pick, e) <==> Matches(g, e))
    ensures Shows(Total(es + [e], g), Records(es + [e], pick))
  {
    hide Shows, Total, Records, Picked, Matches, BucketStats.Add;
    TotalSnoc(es, e, g);
    RecordsSnoc(es, e, pick);
    if Matches(g, e) {
      ShowsOneMore(Total(es, g), Records(es, pick), e.rec);
    }
  }

  lemma {:induction false} TotalShows(es: seq<Timed>, g: Group, pick: Pick)
    requires Picks(pick, g)
    ensures Shows(Total(es, g), Records(es, pick))
    decreases |es|
  {
    hide Shows, Total, Records, Picked, Matches;
    if es == [] {
      TotalShowsNothing(g, pick);
    } else {
      var init, last := es[..|es| - 1], es[|es| - 1];
      TotalShows(init, g, pick);
      TotalShowsOneMore(init, last, g, pick);
      assert es == init + [last];
    }
  }

  // ----- Buckets -----

  /** A bucket shows the records of its time, figure by figure; per model and per credential it shows those of the
      model and of the credential, and has an entry for exactly the ones that occur. */
  ghost predicate BucketShows(b: Bucket, es: seq<Timed>) {
    && Shows(b.overall, Records(es, OfTime(b.ts)))
    && (forall m :: m in b.byModel <==> exists e <- es :: e.ts == b.ts && e.rec.model == m)
    && (forall m <- b.byModel :: Shows(b.byModel[m], Records(es, OfModel({b.ts}, m))))
    && (forall c :: c in b.byCredential <==> c != 0 && exists e <- es :: e.ts == b.ts && e.rec.credentialId == c)
    && (forall c <- b.byCredential :: Shows(b.byCredential[c], Records(es, OfCredential({b.ts}, c))))
  }

  lemma EachBucketShows(es: seq<Timed>, ts: int)
    ensures BucketOf(es, ts).ts == ts && BucketShows(BucketOf(es, ts), es)
  {
    hide Shows, Records, Total;
    var b := BucketOf(es, ts);
    TotalShows(es, AllAt(ts), OfTime(ts));
    forall m | m in b.byModel
      ensures Shows(b.byModel[m], Records(es, OfModel({ts}, m)))
    {
      TotalShows(es, ModelAt(ts, m), OfModel({ts}, m));
    }
    forall c | c in b.byCredential
      ensures Shows(b.byCredential[c], Records(es, OfCredential({ts}, c)))
    {
      TotalShows(es, CredentialAt(ts, c), OfCredential({ts}, c));
    }
  }

  /** So does every bucket an aggregator holds; there is one for each of the newest times with records. */
  lemma OfflineShows(es: seq<Timed>, max: nat, b: Bucket)
    requires b in Offline(es, max)
    ensures BucketShows(b, es) && exists e <- es :: e.ts == b.ts
  {
    hide BucketShows, BucketOf;
    OfflineAggregates(es, max);
    EachBucketShows(es, b.ts);
    assert b.ts in Times(es);
  }
}
