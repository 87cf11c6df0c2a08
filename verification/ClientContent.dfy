/** What the client's messages say, read directly off their JSON: texts, tool results, images and calls. */
module ClientContent {
  import opened Wrappers
  import opened Types
  import opened ToolMap
  import opened ToolNames
  import opened History
  import Json
  import JsonText
  import Strings

  // ----- Single blocks -----

  function StringAt(v: Json.Value, key: string): Option<string> {
    Json.AsStr(Json.Get(v, key))
  }

  /** A field that is there and not null. */
  function GivenAt(v: Json.Value, key: string): Option<Json.Value> {
    if Json.Get(v, key) == Some(Json.Null) then None else Json.Get(v, key)
  }

  predicate IsBlock(v: Json.Value, blockType: string) {
    ValidBlock(v) && StringAt(v, "type") == Some(blockType)
  }

  function TextOf(v: Json.Value): Option<string> {
    if IsBlock(v, "text") then StringAt(v, "text") else None
  }

  function ImageOf(v: Json.Value): Option<ImageSource> {
    if IsBlock(v, "image") && GivenAt(v, "source").Some? then
      var source := GivenAt(v, "source").value;
      Some(ImageSource(Json.StrField(source, "media_type"), Json.StrField(source, "data")))
    else None
  }

  predicate IsResult(v: Json.Value) {
    IsBlock(v, "tool_result") && StringAt(v, "tool_use_id").Some?
  }

  predicate IsCall(v: Json.Value) {
    IsBlock(v, "tool_use") && StringAt(v, "id").Some? && StringAt(v, "name").Some?
  }

  // ----- Images -----

  /** A media type the upstream knows; its format is what follows `image/`. */
  predicate Known(s: ImageSource) {
    s.mediaType in ["image/jpeg", "image/png", "image/gif", "image/webp"]
  }

  function FormatOf(s: ImageSource): string {
    if |s.mediaType| >= 6 then s.mediaType[6..] else ""
  }

  function OnlyKnown(s: Option<ImageSource>): seq<ImageSource> {
    if s.Some? && Known(s.value) then [s.value] else []
  }

  /** An item of a tool result that is an image and not a text. */
  function ItemImage(v: Json.Value): Option<ImageSource> {
    if StringAt(v, "text").Some? then None else ImageOf(v)
  }

  function ImagesOfItems(items: seq<Json.Value>): seq<ImageSource> {
    if items == [] then [] else ImagesOfItems(items[..|items| - 1]) + OnlyKnown(ItemImage(items[|items| - 1]))
  }

  function ImagesOfBlock(v: Json.Value): seq<ImageSource> {
    if IsResult(v) && Json.Get(v, "content").Some? && Json.Get(v, "content").value.Arr?
    then ImagesOfItems(Json.Get(v, "content").value.items)
    else OnlyKnown(ImageOf(v))
  }

  function ImagesOfBlocks(items: seq<Json.Value>): seq<ImageSource> {
    if items == [] then [] else ImagesOfBlocks(items[..|items| - 1]) + ImagesOfBlock(items[|items| - 1])
  }

  function Data(ss: seq<ImageSource>): set<string> {
    set s | s in ss :: s.data
  }

  /** The image data met once more images have been met; nothing is remembered for the current message. */
  function Met(before: Option<set<string>>, ss: seq<ImageSource>): Option<set<string>> {
    if before.Some? then Some(before.value + Data(ss)) else None
  }

  predicate Repeated(s: ImageSource, before: Option<set<string>>) {
    before.Some? && s.data in before.value
  }

  /** Every image not met before, shrunk, in order. */
  function Lifted(ss: seq<ImageSource>, before: Option<set<string>>, env: Env): seq<KiroImage> {
    if ss == [] then []
    else
      var init, last := ss[..|ss| - 1], ss[|ss| - 1];
      Lifted(init, before, env) + if Repeated(last, Met(before, init)) then [] else Shrunk(last, env)
  }

  function Shrunk(s: ImageSource, env: Env): seq<KiroImage> {
    match env.shrink(FormatOf(s), s.data)
    case Success(image) => [image]
    case Failure(_) => []
  }

  const OMITTED := "[image omitted: identical to an earlier screenshot]"

  /** The placeholder, exactly where an image is met again. */
  function PlaceholderFor(s: Option<ImageSource>, before: Option<set<string>>): seq<string> {
    if s.Some? && Known(s.value) && Repeated(s.value, before) then [OMITTED] else []
  }

  // ----- Texts -----

  function TextsOfBlock(v: Json.Value, before: Option<set<string>>): seq<string> {
    if TextOf(v).Some? then [TextOf(v).value] else PlaceholderFor(ImageOf(v), before)
  }

  function TextsOfBlocks(items: seq<Json.Value>, before: Option<set<string>>): seq<string> {
    if items == [] then []
    else
      var init := items[..|items| - 1];
      TextsOfBlocks(init, before) + TextsOfBlock(items[|items| - 1], Met(before, ImagesOfBlocks(init)))
  }

  // ----- Tool results -----

  function PartsOfItem(v: Json.Value, before: Option<set<string>>): seq<string> {
    if StringAt(v, "text").Some? then [StringAt(v, "text").value] else PlaceholderFor(ItemImage(v), before)
  }

  function PartsOfItems(items: seq<Json.Value>, before: Option<set<string>>): seq<string> {
    if items == [] then []
    else
      var init := items[..|items| - 1];
      PartsOfItems(init, before) + PartsOfItem(items[|items| - 1], Met(before, ImagesOfItems(init)))
  }

  predicate AnyImage(items: seq<Json.Value>) {
    exists v <- items :: ItemImage(v).Some?
  }

  /** The content of a tool result: its string, its texts line by line, or its JSON. */
  function ResultText(content: Option<Json.Value>, before: Option<set<string>>): string {
    match content
    case None => ""
    case Some(Str(s)) => s
    case Some(Arr(items)) =>
      var parts := PartsOfItems(items, before);
      if parts == [] && AnyImage(items) then "[image attached]" else Strings.Join(parts, "\n")
    case Some(v) => JsonText.Text(v)
  }

  function ResultOf(v: Json.Value, before: Option<set<string>>): seq<ToolResult> {
    if IsResult(v) then
      [ToolResult(StringAt(v, "tool_use_id").value, ResultText(GivenAt(v, "content"), before),
                  Json.Get(v, "is_error") == Some(Json.Bool(true)))]
    else []
  }

  function ResultsOfBlocks(items: seq<Json.Value>, before: Option<set<string>>): seq<ToolResult> {
    if items == [] then []
    else
      var init := items[..|items| - 1];
      ResultsOfBlocks(init, before) + ResultOf(items[|items| - 1], Met(before, ImagesOfBlocks(init)))
  }

  // ----- One user message -----

  function MessageTexts(content: Json.Value, before: Option<set<string>>): seq<string> {
    match content
    case Str(s) => [s]
    case Arr(items) => TextsOfBlocks(items, before)
    case _ => []
  }

  /** The text blocks alone. */
  function TextBlocks(items: seq<Json.Value>): seq<string> {
    if items == [] then []
    else
      var text := TextOf(items[|items| - 1]);
      TextBlocks(items[..|items| - 1]) + if text.Some? then [text.value] else []
  }

  function PlainTexts(content: Json.Value): seq<string> {
    match content
    case Str(s) => [s]
    case Arr(items) => TextBlocks(items)
    case _ => []
  }

  predicate NoImages(items: seq<Json.Value>) {
    forall v <- items :: ImageOf(v).None?
  }

  /** Where no image can be a repetition there are no placeholders: in the current message and without images. */
  lemma {:induction false} NoPlaceholders(items: seq<Json.Value>, before: Option<set<string>>)
    requires before.None? || NoImages(items)
    ensures TextsOfBlocks(items, before) == TextBlocks(items)
    decreases |items|
  {
    hide TextOf, ImageOf, ImagesOfBlocks;
    if items != [] {
      assert items[|items| - 1] in items;
      NoPlaceholders(items[..|items| - 1], before);
    }
  }

  lemma CurrentTexts(content: Json.Value)
    ensures MessageTexts(content, None) == PlainTexts(content)
  {
    if content.Arr? {
      NoPlaceholders(content.items, None);
    }
  }

  lemma TextsWithoutImages(content: Json.Value, before: Option<set<string>>)
    requires content.Arr? ==> NoImages(content.items)
    ensures MessageTexts(content, before) == PlainTexts(content)
  {
    if content.Arr? {
      NoPlaceholders(content.items, before);
    }
  }

  function MessageImages(content: Json.Value): seq<ImageSource> {
    if content.Arr? then ImagesOfBlocks(content.items) else []
  }

  function MessageResults(content: Json.Value, before: Option<set<string>>): seq<ToolResult> {
    if content.Arr? then ResultsOfBlocks(content.items, before) else []
  }

  // ----- Reading is what the conversion does -----

  lemma ParsedBlock(v: Json.Value)
    ensures ParseBlock(v).Some? <==> ValidBlock(v)
    ensures ParseBlock(v).Some? ==>
              var b := ParseBlock(v).value;
              && StringAt(v, "type") == Some(b.blockType)
              && b.text == StringAt(v, "text") && b.toolUseId == StringAt(v, "tool_use_id")
              && b.id == StringAt(v, "id") && b.name == StringAt(v, "name")
              && b.content == GivenAt(v, "content") && b.input == GivenAt(v, "input")
              && b.isError.GetOr(false) == (Json.Get(v, "is_error") == Some(Json.Bool(true)))
  {
  }

  lemma ParsedSource(v: Json.Value)
    requires ParseBlock(v).Some?
    ensures var b := ParseBlock(v).value;
            b.source == if GivenAt(v, "source").None? then None
                        else Some(ImageSource(Json.StrField(GivenAt(v, "source").value, "media_type"),
                                              Json.StrField(GivenAt(v, "source").value, "data")))
  {
  }

  lemma FormatIsKnown(s: ImageSource)
    ensures ImageFormat(s.mediaType) == if Known(s) then Some(FormatOf(s)) else None
  {
  }

  lemma MetNothing(before: Option<set<string>>)
    ensures Met(before, []) == before
  {
    assert Data([]) == {};
    if before.Some? {
      assert before.value + {} == before.value;
    }
  }

  lemma MetAppend(before: Option<set<string>>, a: seq<ImageSource>, b: seq<ImageSource>)
    ensures Met(before, a + b) == Met(Met(before, a), b)
  {
    assert Data(a + b) == Data(a) + Data(b);
    if before.Some? {
      assert before.value + (Data(a) + Data(b)) == before.value + Data(a) + Data(b);
    }
  }

  lemma MetAgain(before: Option<set<string>>, s: ImageSource)
    requires Repeated(s, before)
    ensures Met(before, [s]) == before
  {
    assert Data([s]) == {s.data};
    assert before.value + {s.data} == before.value;
  }

  lemma NothingLifted(before: Option<set<string>>, env: Env)
    ensures Lifted([], before, env) == [] && Met(before, []) == before
  {
    MetNothing(before);
  }

  lemma LiftedOne(s: ImageSource, before: Option<set<string>>, env: Env)
    ensures Lifted([s], before, env) == if Repeated(s, before) then [] else Shrunk(s, env)
  {
    assert [s][..0] == [];
    MetNothing(before);
  }

  lemma LiftReads(s: ImageSource, acc: UserParts, env: Env)
    requires LiftImage(s, acc, env).Success?
    ensures var (text, acc') := LiftImage(s, acc, env).value;
            && PlaceholderFor(Some(s), acc.seen) == (if text.Some? then [text.value] else [])
            && acc' == acc.(images := acc.images + Lifted(OnlyKnown(Some(s)), acc.seen, env),
                            seen := Met(acc.seen, OnlyKnown(Some(s))))
  {
    FormatIsKnown(s);
    LiftedOne(s, acc.seen, env);
    NothingLifted(acc.seen, env);
    hide ImageFormat, Known, FormatOf;
    assert acc.images + [] == acc.images;
    if Repeated(s, acc.seen) {
      MetAgain(acc.seen, s);
    } else if acc.seen.Some? {
      assert Data([s]) == {s.data};
    }
  }

  lemma LiftedSnoc(ss: seq<ImageSource>, s: ImageSource, before: Option<set<string>>, env: Env)
    ensures Lifted(ss + [s], before, env) ==
            Lifted(ss, before, env) + if Repeated(s, Met(before, ss)) then [] else Shrunk(s, env)
  {
    assert (ss + [s])[..|ss|] == ss;
  }

  lemma {:induction false} LiftedAppend(a: seq<ImageSource>, b: seq<ImageSource>, before: Option<set<string>>, env: Env)
    ensures Lifted(a + b, before, env) == Lifted(a, before, env) + Lifted(b, Met(before, a), env)
    decreases |b|
  {
    NothingLifted(Met(before, a), env);
    hide Lifted, Met, Repeated, Shrunk;
    if b == [] {
      assert a + b == a;
    } else {
      var init, last := b[..|b| - 1], b[|b| - 1];
      assert a + b == (a + init) + [last] && b == init + [last];
      LiftedAppend(a, init, before, env);
      LiftedSnoc(a + init, last, before, env);
      LiftedSnoc(init, last, Met(before, a), env);
      MetAppend(before, a, init);
    }
  }

  // ----- Items of a tool result -----

  lemma ItemReads(v: Json.Value, rc: ResultContent, env: Env)
    requires ResultItem(v, rc, env).Success?
    ensures var rc' := ResultItem(v, rc, env).value;
            && rc'.parts == rc.parts + PartsOfItem(v, rc.acc.seen)
            && rc'.hadImage == (rc.hadImage || ItemImage(v).Some?)
            && rc'.acc == rc.acc.(images := rc.acc.images + Lifted(OnlyKnown(ItemImage(v)), rc.acc.seen, env),
                                  seen := Met(rc.acc.seen, OnlyKnown(ItemImage(v))))
  {
    ParsedBlock(v);
    NothingLifted(rc.acc.seen, env);
    assert rc.acc.images + [] == rc.acc.images && rc.parts + [] == rc.parts;
    if ParseBlock(v).Some? {
      ParsedSource(v);
      if ItemImage(v).Some? {
        LiftReads(ItemImage(v).value, rc.acc, env);
      }
    }
    hide ParseBlock, ValidBlock, Lifted, Met, LiftImage, Known;
  }

  lemma AnyImageSnoc(items: seq<Json.Value>, v: Json.Value)
    ensures AnyImage(items + [v]) <==> AnyImage(items) || ItemImage(v).Some?
  {
    hide ItemImage;
    if AnyImage(items) {
      var x :| x in items && ItemImage(x).Some?;
      assert x in items + [v];
    }
    if ItemImage(v).Some? {
      assert v in items + [v];
    }
  }

  lemma {:induction false} ItemsRead(items: seq<Json.Value>, rc: ResultContent, env: Env)
    requires ResultItems(items, rc, env).Success?
    ensures var rc' := ResultItems(items, rc, env).value;
            && rc'.parts == rc.parts + PartsOfItems(items, rc.acc.seen)
            && rc'.hadImage == (rc.hadImage || AnyImage(items))
            && rc'.acc == rc.acc.(images := rc.acc.images + Lifted(ImagesOfItems(items), rc.acc.seen, env),
                                  seen := Met(rc.acc.seen, ImagesOfItems(items)))
    decreases |items|
  {
    hide ResultItem, PartsOfItem, ItemImage, Lifted, Met, OnlyKnown;
    NothingLifted(rc.acc.seen, env);
    assert rc.acc.images + [] == rc.acc.images && rc.parts + [] == rc.parts;
    if items != [] {
      var init, last := items[..|items| - 1], items[|items| - 1];
      assert items == init + [last];
      ItemsRead(init, rc, env);
      ItemReads(last, ResultItems(init, rc, env).value, env);
      AnyImageSnoc(init, last);
      LiftedAppend(ImagesOfItems(init), OnlyKnown(ItemImage(last)), rc.acc.seen, env);
      MetAppend(rc.acc.seen, ImagesOfItems(init), OnlyKnown(ItemImage(last)));
    }
  }

  lemma ContentReads(content: Option<Json.Value>, acc: UserParts, env: Env)
    requires ToolResultContent(content, acc, env).Success?
    ensures var (text, acc') := ToolResultContent(content, acc, env).value;
            var images := if content.Some? && content.value.Arr? then ImagesOfItems(content.value.items) else [];
            && text == ResultText(content, acc.seen)
            && acc' == acc.(images := acc.images + Lifted(images, acc.seen, env), seen := Met(acc.seen, images))
  {
    hide Lifted, Met, ResultItems, PartsOfItems, AnyImage, ImagesOfItems, Strings.Join, JsonText.Text;
    NothingLifted(acc.seen, env);
    assert acc.images + [] == acc.images;
    if content.Some? && content.value.Arr? {
      ItemsRead(content.value.items, ResultContent([], false, acc), env);
      assert [] + PartsOfItems(content.value.items, acc.seen) == PartsOfItems(content.value.items, acc.seen);
    }
  }

  // ----- Blocks of a user message -----

  /** What a block adds to the parts collected so far. */
  ghost function With(v: Json.Value, acc: UserParts, env: Env): UserParts {
    UserParts(acc.texts + TextsOfBlock(v, acc.seen), acc.images + Lifted(ImagesOfBlock(v), acc.seen, env),
              acc.results + ResultOf(v, acc.seen), Met(acc.seen, ImagesOfBlock(v)))
  }

  lemma ResultIsResult(v: Json.Value, before: Option<set<string>>)
    requires IsResult(v)
    ensures TextsOfBlock(v, before) == []
    ensures var content := GivenAt(v, "content");
            ImagesOfBlock(v) == if content.Some? && content.value.Arr? then ImagesOfItems(content.value.items) else []
  {
    hide ValidBlock, ImagesOfItems;
  }

  lemma ResultReads(v: Json.Value, acc: UserParts, env: Env)
    requires IsResult(v) && UserBlock(v, acc, env).Success?
    ensures UserBlock(v, acc, env).value == With(v, acc, env)
  {
    ParsedBlock(v);
    hide ParseBlock, ValidBlock;
    ResultIsResult(v, acc.seen);
    ContentReads(GivenAt(v, "content"), acc, env);
    hide Lifted, Met, ToolResultContent, ResultText, ImagesOfItems, TextsOfBlock, ImagesOfBlock;
    assert acc.texts + [] == acc.texts;
  }

  lemma ImageReads(v: Json.Value, acc: UserParts, env: Env)
    requires ImageOf(v).Some? && UserBlock(v, acc, env).Success?
    ensures UserBlock(v, acc, env).value == With(v, acc, env)
  {
    ParsedBlock(v);
    ParsedSource(v);
    LiftReads(ImageOf(v).value, acc, env);
    hide ParseBlock, ValidBlock, Lifted, Met, LiftImage, Known;
    assert acc.results + [] == acc.results;
  }

  lemma OtherReads(v: Json.Value, acc: UserParts, env: Env)
    requires !IsResult(v) && ImageOf(v).None?
    ensures UserBlock(v, acc, env) == Success(With(v, acc, env))
  {
    ParsedBlock(v);
    if ParseBlock(v).Some? {
      ParsedSource(v);
    }
    NothingLifted(acc.seen, env);
    hide ParseBlock, ValidBlock, Lifted, Met, LiftImage, ToolResultContent;
    assert acc.images + [] == acc.images && acc.texts + [] == acc.texts && acc.results + [] == acc.results;
  }

  lemma BlockReads(v: Json.Value, acc: UserParts, env: Env)
    requires UserBlock(v, acc, env).Success?
    ensures UserBlock(v, acc, env).value == With(v, acc, env)
  {
    hide UserBlock, With, IsResult, ImageOf;
    if IsResult(v) {
      ResultReads(v, acc, env);
    } else if ImageOf(v).Some? {
      ImageReads(v, acc, env);
    } else {
      OtherReads(v, acc, env);
    }
  }

  lemma {:induction false} BlocksRead(items: seq<Json.Value>, acc: UserParts, env: Env)
    requires UserBlocks(items, acc, env).Success?
    ensures UserBlocks(items, acc, env).value ==
            UserParts(acc.texts + TextsOfBlocks(items, acc.seen),
                      acc.images + Lifted(ImagesOfBlocks(items), acc.seen, env),
                      acc.results + ResultsOfBlocks(items, acc.seen), Met(acc.seen, ImagesOfBlocks(items)))
    decreases |items|
  {
    hide UserBlock, TextsOfBlock, ImagesOfBlock, ResultOf, Lifted, Met;
    NothingLifted(acc.seen, env);
    assert acc.images + [] == acc.images && acc.texts + [] == acc.texts && acc.results + [] == acc.results;
    if items != [] {
      var init, last := items[..|items| - 1], items[|items| - 1];
      BlocksRead(init, acc, env);
      BlockReads(last, UserBlocks(init, acc, env).value, env);
      LiftedAppend(ImagesOfBlocks(init), ImagesOfBlock(last), acc.seen, env);
      MetAppend(acc.seen, ImagesOfBlocks(init), ImagesOfBlock(last));
    }
  }

  /** A user message's texts, images and tool results are the ones its JSON says. */
  lemma ContentIsRead(content: Json.Value, seen: Option<set<string>>, env: Env)
    requires UserContent(content, seen, env).Success?
    ensures UserContent(content, seen, env).value ==
            UserParts(MessageTexts(content, seen), Lifted(MessageImages(content), seen, env),
                      MessageResults(content, seen), Met(seen, MessageImages(content)))
  {
    hide Lifted, Met, UserBlocks, TextsOfBlocks, ResultsOfBlocks, ImagesOfBlocks;
    NothingLifted(seen, env);
    if content.Arr? {
      var items := content.items;
      BlocksRead(items, UserParts([], [], [], seen), env);
      assert [] + TextsOfBlocks(items, seen) == TextsOfBlocks(items, seen);
      assert [] + ResultsOfBlocks(items, seen) == ResultsOfBlocks(items, seen);
      assert [] + Lifted(ImagesOfBlocks(items), seen, env) == Lifted(ImagesOfBlocks(items), seen, env);
    }
  }
}
