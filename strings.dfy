/** The handful of Python `str` operations the helper layer relies on:
    substring search (`pat in s`, the scan inside `re.search`) and `s.replace("\n", "")`. */
module Strings {
  import opened Wrappers

  /** `pat` occurs in `s` starting at index `i`. */
  predicate OccursAt(s: string, pat: string, i: nat) {
    i + |pat| <= |s| && s[i..i + |pat|] == pat
  }

  /** The first index at or after `from` where `pat` occurs in `s`, if any. */
  function FindFrom(s: string, pat: string, from: nat): Option<nat>
    decreases |s| - from
  {
    if |s| < from + |pat| then None
    else if OccursAt(s, pat, from) then Some(from)
    else FindFrom(s, pat, from + 1)
  }

  /** What the search finds: the leftmost occurrence at or after `from`, and `None` only
      when there is none. */
  lemma {:induction false} FindFromSpec(s: string, pat: string, from: nat)
    ensures FindFrom(s, pat, from).Some? ==>
      && from <= FindFrom(s, pat, from).value
      && OccursAt(s, pat, FindFrom(s, pat, from).value)
      && forall j :: from <= j < FindFrom(s, pat, from).value ==> !OccursAt(s, pat, j)
    ensures FindFrom(s, pat, from).None? ==> forall j :: from <= j ==> !OccursAt(s, pat, j)
    decreases |s| - from
  {
    if |s| >= from + |pat| && !OccursAt(s, pat, from) {
      FindFromSpec(s, pat, from + 1);
    }
  }

  /** The same read backwards: an occurrence with none before it is the one found. */
  lemma FindFromIs(s: string, pat: string, from: nat, k: nat)
    requires from <= k && OccursAt(s, pat, k)
    requires forall j :: from <= j < k ==> !OccursAt(s, pat, j)
    ensures FindFrom(s, pat, from) == Some(k)
  {
    FindFromSpec(s, pat, from);
  }

  /** An occurrence in `tail` is an occurrence in `head + tail`, shifted by `|head|`. */
  lemma OccursAtShift(head: string, tail: string, pat: string, j: nat)
    ensures OccursAt(head + tail, pat, |head| + j) == OccursAt(tail, pat, j)
  {
    var t := head + tail;
    if |head| + j + |pat| <= |t| {
      assert t[|head| + j..|head| + j + |pat|] == tail[j..j + |pat|];
    }
  }

  /** The first occurrence in `tail` is, shifted, the first one in `head + tail` from `|head|`. */
  lemma FirstOccurrenceShift(head: string, tail: string, pat: string, k: nat)
    requires OccursAt(tail, pat, k)
    requires forall j :: 0 <= j < k ==> !OccursAt(tail, pat, j)
    ensures OccursAt(head + tail, pat, |head| + k)
    ensures forall j: nat :: |head| <= j < |head| + k ==> !OccursAt(head + tail, pat, j)
  {
    OccursAtShift(head, tail, pat, k);
    forall j: nat | |head| <= j < |head| + k ensures !OccursAt(head + tail, pat, j) {
      OccursAtShift(head, tail, pat, j - |head|);
    }
  }

  /** Python's `pat in s`. */
  function Contains(s: string, pat: string): bool {
    FindFrom(s, pat, 0).Some?
  }

  /** `pat in s` holds exactly when `pat` occurs somewhere in `s`. */
  lemma ContainsSpec(s: string, pat: string)
    ensures Contains(s, pat) <==> exists i :: OccursAt(s, pat, i)
  {
    FindFromSpec(s, pat, 0);
  }

  /** Python's `s.replace("\n", "")`: `s` with every line feed dropped. */
  function RemoveNewlines(s: string): (r: string)
    ensures '\n' !in r
    ensures |r| <= |s|
    ensures '\n' !in s ==> r == s
  {
    if s == [] then []
    else (if s[0] == '\n' then [] else [s[0]]) + RemoveNewlines(s[1..])
  }

  /** On a single character: a line feed is dropped and any other character kept. */
  lemma RemoveNewlinesUnit(c: char)
    ensures RemoveNewlines([c]) == if c == '\n' then [] else [c]
  {
  }

  /** Removing line feeds works piece by piece: it distributes over concatenation, which
      with `RemoveNewlinesUnit` determines it on every string, order of the kept characters
      included. */
  lemma {:induction false} RemoveNewlinesAppend(a: string, b: string)
    ensures RemoveNewlines(a + b) == RemoveNewlines(a) + RemoveNewlines(b)
    decreases |a|
  {
    if a == [] {
      assert a + b == b;
    } else {
      assert (a + b)[0] == a[0];
      assert (a + b)[1..] == a[1..] + b;
      RemoveNewlinesAppend(a[1..], b);
    }
  }

  /** Concatenation regrouped: the tail of a five-part string as one part. Stated on its own
      so that proofs about searches in such a string need not re-derive it. */
  lemma Regroup(a: string, b: string, c: string, d: string, e: string)
    ensures a + b + c + d + e == a + b + (c + d + e)
  {
  }

  /** The slice of `a + (x + b + d)` right after `a`, of the length of `x`, is `x`. */
  lemma SliceMiddle(a: string, x: string, b: string, d: string)
    ensures (a + (x + b + d))[|a|..|a| + |x|] == x
  {
  }
}
