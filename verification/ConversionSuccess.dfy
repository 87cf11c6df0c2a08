/** When a request is converted at all, and when not. */
module ConversionSuccess {
  import opened Wrappers
  import opened Types
  import opened ToolMap
  import opened History
  import opened Pairing
  import opened ClientContent
  import opened ConvertedContent
  import Json

  // ----- Images -----

  /** Every image that is not a repetition is accepted by the shrinker. */
  predicate AllShrink(ss: seq<ImageSource>, before: Option<set<string>>, env: Env) {
    ss == [] ||
    var init, last := ss[..|ss| - 1], ss[|ss| - 1];
    AllShrink(init, before, env) &&
    (Repeated(last, Met(before, init)) || env.shrink(FormatOf(last), last.data).Success?)
  }

  lemma AllShrinkSnoc(ss: seq<ImageSource>, s: ImageSource, before: Option<set<string>>, env: Env)
    ensures AllShrink(ss + [s], before, env) <==>
            AllShrink(ss, before, env) && (Repeated(s, Met(before, ss)) || env.shrink(FormatOf(s), s.data).Success?)
  {
    hide Met, Repeated;
    assert (ss + [s])[..|ss|] == ss;
  }

  lemma {:induction false} AllShrinkAppend(
    a: seq<ImageSource>, b: seq<ImageSource>, before: Option<set<string>>, env: Env)
    ensures AllShrink(a + b, before, env) <==> AllShrink(a, before, env) && AllShrink(b, Met(before, a), env)
    decreases |b|
  {
    if b == [] {
      assert a + b == a;
    } else {
      hide AllShrink, Met, Repeated;
      var init, last := b[..|b| - 1], b[|b| - 1];
      assert a + b == (a + init) + [last] && b == init + [last];
      AllShrinkAppend(a, init, before, env);
      AllShrinkSnoc(a + init, last, before, env);
      AllShrinkSnoc(init, last, Met(before, a), env);
      MetAppend(before, a, init);
    }
  }

  lemma AllShrinkOne(s: ImageSource, before: Option<set<string>>, env: Env)
    ensures AllShrink([s], before, env) <==> Repeated(s, before) || env.shrink(FormatOf(s), s.data).Success?
  {
    assert [s][..0] == [];
    MetNothing(before);
  }

  lemma LiftSucceeds(s: ImageSource, acc: UserParts, env: Env)
    ensures LiftImage(s, acc, env).Success? <==> AllShrink(OnlyKnown(Some(s)), acc.seen, env)
  {
    FormatIsKnown(s);
    AllShrinkOne(s, acc.seen, env);
    hide ImageFormat, Known, FormatOf;
  }

  lemma ItemSucceeds(v: Json.Value, rc: ResultContent, env: Env)
    ensures ResultItem(v, rc, env).Success? <==> AllShrink(OnlyKnown(ItemImage(v)), rc.acc.seen, env)
  {
    ParsedBlock(v);
    if ParseBlock(v).Some? {
      ParsedSource(v);
      if ItemImage(v).Some? {
        LiftSucceeds(ItemImage(v).value, rc.acc, env);
      }
    }
    hide ParseBlock, ValidBlock, LiftImage, Known;
  }

  lemma {:induction false} ItemsSucceed(items: seq<Json.Value>, rc: ResultContent, env: Env)
    ensures ResultItems(items, rc, env).Success? <==> AllShrink(ImagesOfItems(items), rc.acc.seen, env)
    decreases |items|
  {
    hide ResultItem, ItemImage, Met, OnlyKnown;
    if items != [] {
      var init, last := items[..|items| - 1], items[|items| - 1];
      ItemsSucceed(init, rc, env);
      AllShrinkAppend(ImagesOfItems(init), OnlyKnown(ItemImage(last)), rc.acc.seen, env);
      hide AllShrink;
      if ResultItems(init, rc, env).Success? {
        ItemsRead(init, rc, env);
        ItemSucceeds(last, ResultItems(init, rc, env).value, env);
      }
    }
  }

  lemma ContentSucceeds(content: Option<Json.Value>, acc: UserParts, env: Env)
    ensures var images := if content.Some? && content.value.Arr? then ImagesOfItems(content.value.items) else [];
            ToolResultContent(content, acc, env).Success? <==> AllShrink(images, acc.seen, env)
  {
    hide ResultItems, ImagesOfItems;
    if content.Some? && content.value.Arr? {
      ItemsSucceed(content.value.items, ResultContent([], false, acc), env);
    }
  }

  lemma ResultSucceeds(v: Json.Value, acc: UserParts, env: Env)
    requires IsResult(v)
    ensures UserBlock(v, acc, env).Success? <==> AllShrink(ImagesOfBlock(v), acc.seen, env)
  {
    ParsedBlock(v);
    hide ParseBlock, ValidBlock;
    ResultIsResult(v, acc.seen);
    ContentSucceeds(GivenAt(v, "content"), acc, env);
    hide ToolResultContent, ImagesOfItems, ImagesOfBlock, AllShrink;
  }

  lemma ImageSucceeds(v: Json.Value, acc: UserParts, env: Env)
    requires ImageOf(v).Some?
    ensures UserBlock(v, acc, env).Success? <==> AllShrink(ImagesOfBlock(v), acc.seen, env)
  {
    ParsedBlock(v);
    ParsedSource(v);
    LiftSucceeds(ImageOf(v).value, acc, env);
    hide ParseBlock, ValidBlock, LiftImage, Known, AllShrink;
  }

  lemma BlockSucceeds(v: Json.Value, acc: UserParts, env: Env)
    ensures UserBlock(v, acc, env).Success? <==> AllShrink(ImagesOfBlock(v), acc.seen, env)
  {
    hide UserBlock, IsResult, ImageOf;
    if IsResult(v) {
      ResultSucceeds(v, acc, env);
    } else if ImageOf(v).Some? {
      ImageSucceeds(v, acc, env);
    } else {
      OtherReads(v, acc, env);
    }
  }

  lemma {:induction false} BlocksSucceed(items: seq<Json.Value>, acc: UserParts, env: Env)
    ensures UserBlocks(items, acc, env).Success? <==> AllShrink(ImagesOfBlocks(items), acc.seen, env)
    decreases |items|
  {
    hide UserBlock, ImagesOfBlock, Met;
    if items != [] {
      var init, last := items[..|items| - 1], items[|items| - 1];
      BlocksSucceed(init, acc, env);
      AllShrinkAppend(ImagesOfBlocks(init), ImagesOfBlock(last), acc.seen, env);
      hide AllShrink;
      if UserBlocks(init, acc, env).Success? {
        BlocksRead(init, acc, env);
        BlockSucceeds(last, UserBlocks(init, acc, env).value, env);
      }
    }
  }

  lemma ContentIsAccepted(content: Json.Value, seen: Option<set<string>>, env: Env)
    ensures UserContent(content, seen, env).Success? <==> AllShrink(MessageImages(content), seen, env)
  {
    hide UserBlocks, ImagesOfBlocks;
    if content.Arr? {
      BlocksSucceed(content.items, UserParts([], [], [], seen), env);
    }
  }

  lemma {:induction false} UsersSucceed(msgs: seq<Message>, seen: set<string>, env: Env)
    ensures MergeUsers(msgs, seen, env).Success? <==> AllShrink(ImagesOfMessages(msgs), Some(seen), env)
    decreases |msgs|
  {
    hide UserContent, MessageImages, Met;
    if msgs != [] {
      var init, last := msgs[..|msgs| - 1], msgs[|msgs| - 1];
      UsersSucceed(init, seen, env);
      AllShrinkAppend(ImagesOfMessages(init), MessageImages(last.content), Some(seen), env);
      hide AllShrink;
      if MergeUsers(init, seen, env).Success? {
        UsersRead(init, seen, env);
        ContentIsAccepted(last.content, Some(MergeUsers(init, seen, env).value.seen), env);
      }
    }
  }

  // ----- Calls -----

  /** A call's arguments can be put in Kiro's vocabulary. */
  predicate Mapped(v: Json.Value, env: Env) {
    IsCall(v) ==>
      InputToKiro(StringAt(v, "name").value, GivenAt(v, "input").GetOr(Json.Obj(map[])), env.mode).Success?
  }

  predicate CallsMapped(msg: Message, env: Env) {
    msg.content.Arr? ==> forall v <- msg.content.items :: Mapped(v, env)
  }

  lemma UseSucceeds(v: Json.Value, env: Env)
    ensures UseOf(v, env).Success? <==> Mapped(v, env)
  {
    ParsedBlock(v);
    hide ParseBlock, ValidBlock, InputToKiro;
  }

  lemma {:induction false} UsesSucceed(items: seq<Json.Value>, env: Env)
    ensures UsesIn(items, env).Success? <==> forall v <- items :: Mapped(v, env)
    decreases |items|
  {
    hide UseOf, Mapped;
    if items != [] {
      var init, last := items[..|items| - 1], items[|items| - 1];
      assert items == init + [last];
      UsesSucceed(init, env);
      UseSucceeds(last, env);
    }
  }

  lemma AssistantSucceeds(msg: Message, env: Env)
    ensures ConvertAssistant(msg, env).Success? <==> CallsMapped(msg, env)
  {
    hide UsesIn, Mapped, MessageText;
    if msg.content.Arr? {
      UsesSucceed(msg.content.items, env);
    }
  }

  lemma {:induction false} PartsSucceed(msgs: seq<Message>, env: Env)
    ensures MergeAssistantParts(msgs, env).Success? <==> forall m <- msgs :: CallsMapped(m, env)
    decreases |msgs|
  {
    hide ConvertAssistant, CallsMapped;
    if msgs != [] {
      var init, last := msgs[..|msgs| - 1], msgs[|msgs| - 1];
      assert msgs == init + [last];
      PartsSucceed(init, env);
      AssistantSucceeds(last, env);
    }
  }

  lemma AssistantsSucceed(msgs: seq<Message>, env: Env)
    requires msgs != []
    ensures MergeAssistants(msgs, env).Success? <==> forall m <- msgs :: CallsMapped(m, env)
  {
    hide ConvertAssistant, CallsMapped, MergeAssistantParts;
    PartsSucceed(msgs, env);
    if |msgs| == 1 {
      AssistantSucceeds(msgs[0], env);
    }
  }

  // ----- The loop -----

  predicate RunOk(run: Run, before: set<string>, env: Env) {
    if run.user then AllShrink(ImagesOfMessages(run.msgs), Some(before), env)
    else forall m <- run.msgs :: CallsMapped(m, env)
  }

  predicate RunsOk(runs: seq<Run>, env: Env) {
    runs == [] ||
    var init := runs[..|runs| - 1];
    RunsOk(init, env) && RunOk(runs[|runs| - 1], Data(ImagesOfRuns(init)), env)
  }

  /** All runs but the last one. */
  function Finished(runs: seq<Run>): seq<Run> {
    if runs == [] then [] else runs[..|runs| - 1]
  }

  lemma RunsOkSnoc(runs: seq<Run>, run: Run, env: Env)
    ensures RunsOk(runs + [run], env) <==> RunsOk(runs, env) && RunOk(run, Data(ImagesOfRuns(runs)), env)
  {
    hide RunOk, ImagesOfRuns, Data;
    assert (runs + [run])[..|runs|] == runs;
  }

  /** Flushing the pending run succeeds exactly if that run is fine. */
  lemma FlushSucceeds(b: Builder, prologue: seq<HistoryMessage>, runs: seq<Run>, env: Env)
    requires Built(b, prologue, runs, env) && runs != [] && runs[|runs| - 1].msgs != []
    ensures var last := runs[|runs| - 1];
            RunOk(last, Data(ImagesOfRuns(Finished(runs))), env) <==>
            if last.user then FlushUsers(b, env).Success? else FlushAssistants(b, env).Success?
  {
    hide MergeUsers, MergeAssistants, AllShrink, ImagesOfMessages, CallsMapped, Entries, ImagesOfRuns, Data;
    var last := runs[|runs| - 1];
    if last.user {
      UsersSucceed(last.msgs, b.seen, env);
    } else {
      AssistantsSucceed(last.msgs, env);
    }
  }

  lemma AcceptSucceeds(b: Builder, prologue: seq<HistoryMessage>, runs: seq<Run>, m: Message, env: Env)
    requires Built(b, prologue, runs, env) && (forall r <- runs :: OfOneRole(r)) && RunsOk(Finished(runs), env)
    ensures Accept(b, m, env).Success? <==> RunsOk(Finished(Joined(runs, m)), env)
  {
    hide FlushUsers, FlushAssistants, RunOk, RunsOk, Entries, ImagesOfRuns, Data;
    FlushNothing(b, env);
    if runs != [] {
      assert runs[|runs| - 1] in runs;
      FlushSucceeds(b, prologue, runs, env);
      RunsOkSnoc(Finished(runs), runs[|runs| - 1], env);
      assert Finished(runs) + [runs[|runs| - 1]] == runs;
    }
    FinishedJoined(runs, m);
    hide Joined;
  }

  lemma FinishedJoined(runs: seq<Run>, m: Message)
    ensures Finished(Joined(runs, m)) ==
            if m.role != "user" && m.role != "assistant" then Finished(runs)
            else if runs != [] && runs[|runs| - 1].user == (m.role == "user") then Finished(runs)
            else runs
  {
  }

  lemma {:induction false} LoopSucceeds(prologue: seq<HistoryMessage>, msgs: seq<Message>, env: Env)
    ensures AcceptAll(Builder(prologue, [], [], {}), msgs, env).Success? <==> RunsOk(Finished(Runs(msgs)), env)
    decreases |msgs|
  {
    if msgs == [] {
      assert Runs(msgs) == [];
    } else {
      var init, last := msgs[..|msgs| - 1], msgs[|msgs| - 1];
      var before := AcceptAll(Builder(prologue, [], [], {}), init, env);
      LoopSucceeds(prologue, init, env);
      RunsSpec(init);
      FinishedGrow(Runs(init), last, env);
      hide Accept, RunsOk, Joined, Finished, OfOneRole;
      if before.Success? {
        LoopBuilds(prologue, init, env, before.value);
        hide Built;
        AcceptSucceeds(before.value, prologue, Runs(init), last, env);
      }
    }
  }

  lemma FinishedGrow(runs: seq<Run>, m: Message, env: Env)
    ensures RunsOk(Finished(Joined(runs, m)), env) ==> RunsOk(Finished(runs), env)
  {
    FinishedJoined(runs, m);
    hide Joined, RunOk, ImagesOfRuns, Data;
  }

  lemma FinishSucceeds(b: Builder, prologue: seq<HistoryMessage>, runs: seq<Run>, env: Env)
    requires Built(b, prologue, runs, env) && (forall r <- runs :: OfOneRole(r)) && RunsOk(Finished(runs), env)
    ensures Finish(b, env).Success? <==> RunsOk(runs, env)
  {
    hide FlushUsers, FlushAssistants, RunOk, RunsOk, Entries, ImagesOfRuns, Data;
    FlushNothing(b, env);
    if runs == [] {
      assert Finished(runs) == runs;
    } else {
      assert runs[|runs| - 1] in runs;
      FlushSucceeds(b, prologue, runs, env);
      RunsOkSnoc(Finished(runs), runs[|runs| - 1], env);
      assert Finished(runs) + [runs[|runs| - 1]] == runs;
      if !runs[|runs| - 1].user && FlushAssistants(b, env).Success? {
        FlushedAssistants(b, prologue, runs, env);
        FlushNothing(FlushAssistants(b, env).value, env);
      }
    }
  }

  lemma HistorySucceeds(prologue: seq<HistoryMessage>, msgs: seq<Message>, env: Env)
    ensures var prefix := if msgs == [] then [] else msgs[..|msgs| - 1];
            HistoryOf(prologue, msgs, env).Success? <==> RunsOk(Runs(prefix), env)
  {
    hide AcceptAll, Finish, Runs, Built, RunOk;
    var prefix := if msgs == [] then [] else msgs[..|msgs| - 1];
    LoopSucceeds(prologue, prefix, env);
    RunsSpec(prefix);
    var b := AcceptAll(Builder(prologue, [], [], {}), prefix, env);
    if b.Success? {
      LoopBuilds(prologue, prefix, env, b.value);
      FinishSucceeds(b.value, prologue, Runs(prefix), env);
    }
  }

  // ----- The whole request -----

  /** All runs are fine exactly if all images of user messages are accepted, each met for the first time in the
      history, and all calls of assistant messages can be mapped. */
  lemma {:induction false} RunsOkIff(runs: seq<Run>, env: Env)
    ensures RunsOk(runs, env) <==>
            && AllShrink(ImagesOfRuns(runs), Some({}), env)
            && forall r <- runs | !r.user :: forall m <- r.msgs :: CallsMapped(m, env)
    decreases |runs|
  {
    hide CallsMapped, ImagesOfMessages;
    if runs != [] {
      var init, last := runs[..|runs| - 1], runs[|runs| - 1];
      assert runs == init + [last];
      RunsOkIff(init, env);
      MetData({}, ImagesOfRuns(init));
      assert {} + Data(ImagesOfRuns(init)) == Data(ImagesOfRuns(init));
      hide Data, Met;
      AllShrinkAppend(ImagesOfRuns(init), if last.user then ImagesOfMessages(last.msgs) else [], Some({}), env);
    }
  }

  predicate InAssistantRun(runs: seq<Run>, m: Message) {
    exists r <- runs :: !r.user && m in r.msgs
  }

  lemma InAssistantRunSnoc(runs: seq<Run>, run: Run, m: Message)
    ensures InAssistantRun(runs + [run], m) <==> InAssistantRun(runs, m) || (!run.user && m in run.msgs)
  {
    if InAssistantRun(runs, m) {
      var r :| r in runs && !r.user && m in r.msgs;
      assert r in runs + [run];
    }
    assert run in runs + [run];
  }

  lemma InJoined(runs: seq<Run>, last: Message, m: Message)
    ensures InAssistantRun(Joined(runs, last), m) <==>
            InAssistantRun(runs, m) || (m == last && last.role == "assistant")
  {
    hide InAssistantRun;
    var n, user := |runs|, last.role == "user";
    if user || last.role == "assistant" {
      if n > 0 && runs[n - 1].user == user {
        assert runs == runs[..n - 1] + [runs[n - 1]];
        InAssistantRunSnoc(runs[..n - 1], runs[n - 1], m);
        InAssistantRunSnoc(runs[..n - 1], Run(user, runs[n - 1].msgs + [last]), m);
      } else {
        InAssistantRunSnoc(runs, Run(user, [last]), m);
      }
    }
  }

  /** The messages of the assistant's runs are the assistant's messages. */
  lemma {:induction false} InRuns(msgs: seq<Message>, m: Message)
    ensures InAssistantRun(Runs(msgs), m) <==> m in msgs && m.role == "assistant"
    decreases |msgs|
  {
    if msgs != [] {
      var init, last := msgs[..|msgs| - 1], msgs[|msgs| - 1];
      assert msgs == init + [last];
      InRuns(init, m);
      InJoined(Runs(init), last, m);
    }
  }

  /** A request is converted exactly if it has a user message, the images of the current message are accepted, every
      image before it is accepted where it is met first, and the arguments of all calls before it can be mapped. */
  lemma ConvertsIff(
    prologue: seq<HistoryMessage>, all: seq<Message>, tools: seq<string>, lower: string -> string, env: Env)
    ensures var msgs := DropPrefill(all);
            Convert(prologue, all, tools, lower, env).Success? <==>
            && msgs != []
            && var n := |msgs| - 1;
               && AllShrink(MessageImages(msgs[n].content), None, env)
               && AllShrink(ImagesOfRuns(Runs(msgs[..n])), Some({}), env)
               && forall m <- msgs[..n] | m.role == "assistant" :: CallsMapped(m, env)
  {
    hide HistoryOf, UserContent, WithPlaceholders, UsedNames, HistoryUses, Runs, MessageImages, AllShrink, ImagesOfRuns;
    hide CallsMapped, RunsOk;
    var msgs := DropPrefill(all);
    if msgs != [] {
      var n := |msgs| - 1;
      ContentIsAccepted(msgs[n].content, None, env);
      HistorySucceeds(prologue, msgs, env);
      RunsOkIff(Runs(msgs[..n]), env);
      forall m: Message
        ensures InAssistantRun(Runs(msgs[..n]), m) <==> m in msgs[..n] && m.role == "assistant"
      {
        InRuns(msgs[..n], m);
      }
    }
  }
}
