/**
 * `text.replace(/<@[^>]+>\s?/, '')`: the regular expression has no `g` flag and
 * no anchor, so the LEFTMOST match anywhere in the text is removed and nothing
 * else. The match is found by an explicit scan instead of a regex engine.
 */
module Mention {
  import JsText
  import opened JsValues

  /** A start and the index of the closing `>` of a user-mention token. */
  datatype Token = Token(start: nat, close: nat)

  /** `<@[^>]+>` matches `s[i..k + 1]`: `<@`, one or more characters other than
      `>` (line breaks included), and the `>` at index `k`. */
  ghost predicate TokenAt(s: string, i: nat, k: nat)
  {
    && i + 2 < k < |s|
    && s[i] == '<' && s[i + 1] == '@' && s[k] == '>'
    && forall m :: i + 2 <= m < k ==> s[m] != '>'
  }

  /** The pattern can match starting at index `i`. */
  ghost predicate MatchesAt(s: string, i: nat)
  {
    exists k :: TokenAt(s, i, k)
  }

  /** End of the whole match `<@[^>]+>\s?` whose token closes at `k`: the greedy
      `\s?` takes one following white-space character when there is one. */
  function MatchEnd(s: string, k: nat): (e: nat)
    requires k < |s|
    ensures k < e <= |s|
  {
    if k + 1 < |s| && JsText.IsWhiteSpace(s[k + 1]) then k + 2 else k + 1
  }

  /** At a given start the token can close at one index only: `[^>]+` cannot
      step over a `>`, so the close is the first `>` after `<@`. */
  lemma TokenCloseUnique(s: string, i: nat, k1: nat, k2: nat)
    requires TokenAt(s, i, k1) && TokenAt(s, i, k2)
    ensures k1 == k2
  {
  }

  /** The first `>` at or after index `p`. */
  function FindClose(s: string, p: nat): (r: Option<nat>)
    requires p <= |s|
    ensures r.Some? ==> p <= r.value < |s| && s[r.value] == '>'
    decreases |s| - p
  {
    if p == |s| then None
    else if s[p] == '>' then Some(p)
    else FindClose(s, p + 1)
  }

  /** The scan the regex engine performs: try each start from `from` on, in order,
      and report the first one where the token matches. */
  function FindToken(s: string, from: nat): (r: Option<Token>)
    requires from <= |s|
    ensures r.Some? ==> from <= r.value.start && r.value.start + 2 < r.value.close < |s|
    decreases |s| - from
  {
    if from + 3 >= |s| then
      None
    else if s[from] == '<' && s[from + 1] == '@' then
      match FindClose(s, from + 2)
      case Some(k) =>
        if k > from + 2 then Some(Token(from, k))
        else FindToken(s, from + 1)
      case None =>
        // no `>` anywhere after this `<@`, so no later start can close either
        None
    else
      FindToken(s, from + 1)
  }

  /** FindClose finds the first `>`, and reports None only when there is none. */
  lemma {:induction false} FindCloseSpec(s: string, p: nat)
    requires p <= |s|
    ensures var r := FindClose(s, p);
      && (r.Some? ==> forall m :: p <= m < r.value ==> s[m] != '>')
      && (r.None? ==> forall m :: p <= m < |s| ==> s[m] != '>')
    decreases |s| - p
  {
    if p < |s| && s[p] != '>' {
      FindCloseSpec(s, p + 1);
    }
  }

  /** FindToken reports the leftmost start at or after `from` where the pattern
      matches, with the token's closing `>`; None means no start matches. */
  lemma {:induction false} FindTokenSpec(s: string, from: nat)
    requires from <= |s|
    ensures var r := FindToken(s, from);
      && (r.Some? ==> TokenAt(s, r.value.start, r.value.close))
      && (r.Some? ==> forall j :: from <= j < r.value.start ==> !MatchesAt(s, j))
      && (r.None? ==> forall j :: from <= j ==> !MatchesAt(s, j))
    decreases |s| - from
  {
    if from + 3 >= |s| {
    } else if s[from] == '<' && s[from + 1] == '@' {
      FindCloseSpec(s, from + 2);
      match FindClose(s, from + 2)
      case Some(k) =>
        if k <= from + 2 {
          FindTokenSpec(s, from + 1);
        }
      case None =>
    } else {
      FindTokenSpec(s, from + 1);
    }
  }

  /** `s.replace(/<@[^>]+>\s?/, '')`: cut out the leftmost match, if any. The text is
      either unchanged or shorter by the match, at least four characters (`<@`, one
      id character, `>`). */
  function StripFirstMention(s: string): (r: string)
    ensures |r| == |s| || |r| <= |s| - 4
  {
    match FindToken(s, 0)
    case None => s
    case Some(t) => s[..t.start] + s[MatchEnd(s, t.close)..]
  }

  /** With no match anywhere the text is returned unchanged. */
  lemma StripNoMatch(s: string)
    requires forall j: nat :: !MatchesAt(s, j)
    ensures StripFirstMention(s) == s
  {
    FoundTokenMatches(s);
  }

  /** A token the scan reports is a place where the pattern matches. */
  lemma FoundTokenMatches(s: string)
    ensures FindToken(s, 0).Some? ==> MatchesAt(s, FindToken(s, 0).value.start)
  {
    FindTokenSpec(s, 0);
    if FindToken(s, 0).Some? {
      var t := FindToken(s, 0).value;
      assert TokenAt(s, t.start, t.close);
    }
  }

  /** With a match, exactly the leftmost one is cut out, together with the one
      white-space character the greedy `\s?` takes after it. */
  lemma StripLeftmost(s: string, i: nat, k: nat)
    requires TokenAt(s, i, k)
    requires forall j: nat :: j < i ==> !MatchesAt(s, j)
    ensures StripFirstMention(s) == s[..i] + s[MatchEnd(s, k)..]
  {
    assert MatchesAt(s, i);
    FindTokenSpec(s, 0);
    match FindToken(s, 0)
    case None =>
      assert false;
    case Some(t) =>
      assert MatchesAt(s, t.start);
      TokenCloseUnique(s, i, k, t.close);
  }

  /** A mention in the middle of a message is removed as well. */
  lemma StripMidText()
    ensures StripFirstMention("hi <@U1> there") == "hi there"
  {
    var s := "hi <@U1> there";
    assert TokenAt(s, 3, 7);
    forall j: nat | j < 3 ensures !MatchesAt(s, j) {
      assert s[j] != '<';
    }
    StripLeftmost(s, 3, 7);
  }

  /** Only the first mention goes: the second one stays in the text. */
  lemma StripOnlyFirst()
    ensures StripFirstMention("<@A> <@B> x") == "<@B> x"
  {
    var s := "<@A> <@B> x";
    assert TokenAt(s, 0, 3);
    StripLeftmost(s, 0, 3);
  }

  /** `<@>` is not a mention (the id part needs a character), and the scan moves on. */
  lemma StripSkipsEmptyId()
    ensures StripFirstMention("<@><@U9>ok") == "<@>ok"
  {
    var s := "<@><@U9>ok";
    assert TokenAt(s, 3, 7);
    assert s[2] == '>';
    forall j: nat | j < 3 ensures !MatchesAt(s, j) {
      if j == 0 {
      } else {
        assert s[j] != '<';
      }
    }
    StripLeftmost(s, 3, 7);
  }
}
