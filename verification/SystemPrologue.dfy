/** What the history begins with: the system texts, the writing policy and the thinking tags. */
module SystemPrologue {
  import opened Wrappers
  import opened Types
  import opened History
  import Strings

  function SystemText(blocks: seq<SystemMessage>): string {
    Strings.Join(seq(|blocks|, i requires 0 <= i < |blocks| => blocks[i].text), "\n")
  }

  predicate Contains(s: string, p: string) {
    exists i | 0 <= i <= |s| :: Strings.StartsWith(s[i..], p)
  }

  lemma {:induction false} FoundIffContained(s: string, p: string)
    ensures Strings.SplitOnce(s, p).Some? <==> Contains(s, p)
    decreases |s|
  {
    var i := Strings.Find(s, p);
    if s == [] || Strings.StartsWith(s, p) {
      assert s[0..] == s;
      if Contains(s, p) {
        var j :| 0 <= j <= |s| && Strings.StartsWith(s[j..], p);
      }
    } else {
      FoundIffContained(s[1..], p);
      assert s[1..][Strings.Find(s[1..], p)..] == s[i..];
      if Contains(s[1..], p) {
        var j :| 0 <= j <= |s[1..]| && Strings.StartsWith(s[1..][j..], p);
        assert s[1..][j..] == s[j + 1..];
      }
      if Contains(s, p) {
        var j :| 0 <= j <= |s| && Strings.StartsWith(s[j..], p);
        assert j > 0 by {
          assert s[0..] == s;
        }
        assert s[1..][j - 1..] == s[j..];
      }
    }
  }

  lemma ContainedMore(s: string, t: string, p: string)
    requires Contains(s, p)
    ensures Contains(s + t, p)
  {
    var i :| 0 <= i <= |s| && Strings.StartsWith(s[i..], p);
    assert (s + t)[i..] == s[i..] + t;
    assert (s[i..] + t)[..|p|] == s[i..][..|p|];
  }

  lemma TagsMore(s: string, t: string)
    requires HasThinkingTags(s)
    ensures HasThinkingTags(s + t)
  {
    hide Strings.SplitOnce, Contains;
    var mode, length := "<thinking_mode>", "<max_thinking_length>";
    FoundIffContained(s, mode);
    FoundIffContained(s, length);
    FoundIffContained(s + t, mode);
    FoundIffContained(s + t, length);
    if Contains(s, mode) {
      ContainedMore(s, t, mode);
    } else {
      ContainedMore(s, t, length);
    }
  }

  /** The first entry holds all system texts, one a line, and after them the policy; the thinking tags stand before
      them unless the texts bring tags of their own.  A system that says nothing gives no entry at all. */
  lemma PrologueSays(blocks: seq<SystemMessage>, thinking: Option<string>, policy: string)
    ensures var p, text := Prologue(Some(blocks), thinking, policy), SystemText(blocks);
            var said := text + "\n" + policy;
            && (p == [] <==> text == "")
            && (text != "" ==>
                  && |p| == 2 && p[1] == Assistant("I will follow these instructions.", None)
                  && p[0] == User(if thinking.None? || HasThinkingTags(said) then said
                                  else thinking.value + ("\n" + said), [], []))
  {
    hide HasThinkingTags, Strings.Join;
    var said := SystemText(blocks) + "\n" + policy;
    if thinking.Some? {
      assert thinking.value + "\n" + said == thinking.value + ("\n" + said);
    }
  }

  /** With thinking on, the upstream is told so exactly if the request has no system or its system texts are not all
      empty: an empty system takes the tags away. */
  lemma ThinkingIsAnnouncedIff(system: Option<seq<SystemMessage>>, tags: string, policy: string)
    requires HasThinkingTags(tags)
    ensures var p := Prologue(system, Some(tags), policy);
            p != [] && p[0].User? && HasThinkingTags(p[0].content) <==>
            system.None? || SystemText(system.value) != ""
  {
    hide HasThinkingTags, SystemText;
    if system.Some? {
      PrologueSays(system.value, Some(tags), policy);
      TagsMore(tags, "\n" + (SystemText(system.value) + "\n" + policy));
      hide Prologue;
    }
  }

  /** For instance a request with a system of one empty text and thinking on. */
  lemma EmptySystemHidesThinking(tags: string, policy: string)
    ensures Prologue(Some([SystemMessage("", None)]), Some(tags), policy) == []
  {
    assert SystemText([SystemMessage("", None)]) == "";
    PrologueSays([SystemMessage("", None)], Some(tags), policy);
  }
}
