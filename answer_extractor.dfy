/** `extract_answer`: the text between the first `<tag>` and the nearest `</tag>` after it,
    the result of `re.search('<tag>(.*?)</tag>', text, re.DOTALL)` for a literal tag. */
module AnswerExtractor {
  import opened Wrappers
  import opened Strings

  const DefaultTag: string := "answer"

  function OpenTag(tag: string): string { "<" + tag + ">" }

  function CloseTag(tag: string): string { "</" + tag + ">" }

  /** Some match of the pattern: an open tag at `i` and a close tag at `k`
      with the group `text[i + |OpenTag(tag)|..k]` between them. */
  predicate Candidate(text: string, tag: string, i: nat, k: nat) {
    OccursAt(text, OpenTag(tag), i) && i + |OpenTag(tag)| <= k && OccursAt(text, CloseTag(tag), k)
  }

  /** The match `re.search` reports: the leftmost start that can succeed and, for it,
      the shortest group, since `.*?` is lazy and `re.DOTALL` lets it cross line feeds. */
  ghost predicate RegexMatch(text: string, tag: string, i: nat, k: nat) {
    && Candidate(text, tag, i, k)
    && (forall i': nat, k': nat :: i' < i ==> !Candidate(text, tag, i', k'))
    && (forall k': nat :: i + |OpenTag(tag)| <= k' < k ==> !OccursAt(text, CloseTag(tag), k'))
  }

  /** The group of the first match, or `None`; it never fails. */
  function ExtractAnswer(text: string, tag: string := DefaultTag): Option<string> {
    var open := FindFrom(text, OpenTag(tag), 0);
    if open.None? then None
    else
      var start := open.value + |OpenTag(tag)|;
      var close := FindFrom(text, CloseTag(tag), start);
      if close.None? then None
      else
        FindFromSpec(text, CloseTag(tag), start);
        Some(text[start..close.value])
  }

  /** `ExtractAnswer` is exactly the regular-expression search: it fails precisely when no
      open tag is followed by a close tag, and otherwise returns the group of the leftmost,
      laziest match. */
  lemma ExtractAnswerIsRegexSearch(text: string, tag: string)
    ensures ExtractAnswer(text, tag).None? <==> forall i: nat, k: nat :: !Candidate(text, tag, i, k)
    ensures ExtractAnswer(text, tag).Some? ==>
      exists i: nat, k: nat :: RegexMatch(text, tag, i, k) && ExtractAnswer(text, tag).value == text[i + |OpenTag(tag)|..k]
  {
    var o, c := OpenTag(tag), CloseTag(tag);
    FindFromSpec(text, o, 0);
    match FindFrom(text, o, 0)
    case None =>
    case Some(i) =>
      FindFromSpec(text, c, i + |o|);
      match FindFrom(text, c, i + |o|)
      case None =>
        forall i': nat, k': nat ensures !Candidate(text, tag, i', k') {
          if OccursAt(text, o, i') && i' + |o| <= k' {
            assert i <= i';
            assert !OccursAt(text, c, k');
          }
        }
      case Some(k) =>
        assert RegexMatch(text, tag, i, k);
  }

  /** At most one match is the one `re.search` reports. */
  lemma RegexMatchUnique(text: string, tag: string, i: nat, k: nat, i': nat, k': nat)
    requires RegexMatch(text, tag, i, k) && RegexMatch(text, tag, i', k')
    ensures i == i' && k == k'
  {
  }

  /** A tag is treated as literal text; one free of `<` makes `<` the first character
      of its open and close tags and nowhere else in them. */
  predicate PlainTag(tag: string) {
    '<' !in tag
  }

  /** When the text before a close tag holds no close tag of its own, the first close tag
      is the one placed right after it: for a plain tag no close tag can straddle the join. */
  lemma FirstCloseAfter(x: string, tag: string, rest: string)
    requires PlainTag(tag)
    requires !Contains(x, CloseTag(tag))
    ensures OccursAt(x + CloseTag(tag) + rest, CloseTag(tag), |x|)
    ensures forall j :: 0 <= j < |x| ==> !OccursAt(x + CloseTag(tag) + rest, CloseTag(tag), j)
  {
    var c := CloseTag(tag);
    var t := x + c + rest;
    ContainsSpec(x, c);
    assert t[|x|..|x| + |c|] == c;
    forall j | 0 <= j < |x| ensures !OccursAt(t, c, j) {
      if j + |c| <= |x| {
        assert t[j..j + |c|] == x[j..j + |c|];
        assert !OccursAt(x, c, j);
      } else {
        var d := |x| - j;
        assert t[j..j + |c|][d] == t[|x|] == '<';
        assert c[d] != '<' by {
          if 2 <= d < |c| - 1 {
            assert c[d] == tag[d - 2];
          }
        }
      }
    }
  }

  /** The same for the open tag: with no open tag in `pre`, the first one is at `|pre|`. */
  lemma FirstOpenAfter(pre: string, tag: string, rest: string)
    requires PlainTag(tag)
    requires !Contains(pre, OpenTag(tag))
    ensures OccursAt(pre + OpenTag(tag) + rest, OpenTag(tag), |pre|)
    ensures forall j :: 0 <= j < |pre| ==> !OccursAt(pre + OpenTag(tag) + rest, OpenTag(tag), j)
  {
    var o := OpenTag(tag);
    var t := pre + o + rest;
    ContainsSpec(pre, o);
    assert t[|pre|..|pre| + |o|] == o;
    forall j | 0 <= j < |pre| ensures !OccursAt(t, o, j) {
      if j + |o| <= |pre| {
        assert t[j..j + |o|] == pre[j..j + |o|];
        assert !OccursAt(pre, o, j);
      } else {
        var d := |pre| - j;
        assert t[j..j + |o|][d] == t[|pre|] == '<';
        assert o[d] != '<' by {
          if 1 <= d < |o| - 1 {
            assert o[d] == tag[d - 1];
          }
        }
      }
    }
  }

  /** Where the two searches of `ExtractAnswer` stop on `<tag>X</tag>` after `pre`. */
  lemma SearchesOfWrapped(pre: string, x: string, post: string, tag: string)
    requires PlainTag(tag)
    requires !Contains(pre, OpenTag(tag))
    requires !Contains(x, CloseTag(tag))
    ensures var t := pre + OpenTag(tag) + (x + CloseTag(tag) + post);
      && OccursAt(t, OpenTag(tag), |pre|)
      && (forall j :: 0 <= j < |pre| ==> !OccursAt(t, OpenTag(tag), j))
      && OccursAt(t, CloseTag(tag), |pre| + |OpenTag(tag)| + |x|)
      && (forall j: nat :: |pre| + |OpenTag(tag)| <= j < |pre| + |OpenTag(tag)| + |x| ==> !OccursAt(t, CloseTag(tag), j))
  {
    FirstOpenAfter(pre, tag, x + CloseTag(tag) + post);
    FirstCloseAfter(x, tag, post);
    FirstOccurrenceShift(pre + OpenTag(tag), x + CloseTag(tag) + post, CloseTag(tag), |x|);
  }

  /** What `ExtractAnswer` returns once the first open tag and the first close tag after
      it are known. */
  lemma ExtractAt(text: string, tag: string, i: nat, k: nat)
    requires OccursAt(text, OpenTag(tag), i)
    requires forall j :: 0 <= j < i ==> !OccursAt(text, OpenTag(tag), j)
    requires i + |OpenTag(tag)| <= k && OccursAt(text, CloseTag(tag), k)
    requires forall j :: i + |OpenTag(tag)| <= j < k ==> !OccursAt(text, CloseTag(tag), j)
    ensures ExtractAnswer(text, tag) == Some(text[i + |OpenTag(tag)|..k])
  {
    FindFromIs(text, OpenTag(tag), 0, i);
    FindFromIs(text, CloseTag(tag), i + |OpenTag(tag)|, k);
  }

  /** For `<tag>X</tag>` with X free of `</tag>`, after a prefix with no `<tag>`,
      extraction returns exactly X, line feeds included. */
  lemma ExtractWrapped(pre: string, x: string, post: string, tag: string)
    requires PlainTag(tag)
    requires !Contains(pre, OpenTag(tag))
    requires !Contains(x, CloseTag(tag))
    ensures ExtractAnswer(pre + OpenTag(tag) + x + CloseTag(tag) + post, tag) == Some(x)
  {
    var o, c := OpenTag(tag), CloseTag(tag);
    var t := pre + o + (x + c + post);
    Regroup(pre, o, x, c, post);
    SearchesOfWrapped(pre, x, post, tag);
    ExtractAt(t, tag, |pre|, |pre| + |o| + |x|);
    SliceMiddle(pre + o, x, c, post);
  }

  /** `ExtractAnswer` gives `None`, and does not fail, when an open tag is present but no
      close tag follows any open tag. */
  lemma ExtractMissingClose(text: string, tag: string)
    requires Contains(text, OpenTag(tag))
    requires forall k :: !OccursAt(text, CloseTag(tag), k)
    ensures ExtractAnswer(text, tag) == None
  {
    ExtractAnswerIsRegexSearch(text, tag);
  }
}
