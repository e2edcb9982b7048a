/**
 * Lookup strings such as "content_object__comments": attribute names
 * joined by Django's LOOKUP_SEP, split the way Python's `str.split` does.
 */
module Lookups {
  import opened Wrappers

  type Lookup = string

  /** LOOKUP_SEP. */
  const Sep: string := "__"

  /** A separator starts at index i of s. */
  predicate SepAt(s: string, i: int)
  {
    0 <= i && i + 1 < |s| && s[i] == '_' && s[i + 1] == '_'
  }

  /** The leftmost separator at or after `from`. */
  function FindSep(s: string, from: nat): (r: Option<nat>)
    ensures r.Some? ==> from <= r.value && SepAt(s, r.value)
    ensures forall j :: from <= j && (r.None? || j < r.value) ==> !SepAt(s, j)
    decreases |s| - from
  {
    if from + 1 >= |s| then None
    else if SepAt(s, from) then Some(from)
    else FindSep(s, from + 1)
  }

  /** p holds no separator. */
  predicate NoSep(p: string)
  {
    forall j :: 0 <= j < |p| ==> !SepAt(p, j)
  }

  /** p is non-empty and its last character is '_'. */
  predicate EndsInUnderscore(p: string)
  {
    |p| > 0 && p[|p| - 1] == '_'
  }

  /** Pieces a split can produce: none holds a separator, and none but the
      last ends in '_' (it would have formed a separator with the next one). */
  predicate SplitPieces(parts: seq<string>)
  {
    && (forall k :: 0 <= k < |parts| ==> NoSep(parts[k]))
    && (forall k :: 0 <= k < |parts| - 1 ==> !EndsInUnderscore(parts[k]))
  }

  /** `s.split(LOOKUP_SEP)`: scanning left to right, cut at each separator. */
  function Split(s: string): (parts: seq<string>)
    ensures |parts| >= 1
    ensures SplitPieces(parts)
    decreases |s|
  {
    match FindSep(s, 0)
    case None => [s]
    case Some(i) =>
      var head := s[..i];
      assert NoSep(head) by {
        forall j ensures !SepAt(head, j) {
          if SepAt(head, j) { assert SepAt(s, j); }
        }
      }
      assert !EndsInUnderscore(head) by {
        if EndsInUnderscore(head) { assert SepAt(s, i - 1); }
      }
      [head] + Split(s[i + 2..])
  }

  /** The leftmost separator of s is at i when one is there and none is before it. */
  lemma FirstSepAt(s: string, i: nat)
    requires SepAt(s, i)
    requires forall j :: 0 <= j < i ==> !SepAt(s, j)
    ensures FindSep(s, 0) == Some(i)
  {
  }

  /** `LOOKUP_SEP.join(parts)`. */
  function Join(parts: seq<string>): (r: string)
    ensures |parts| > 0 ==> parts[0] <= r
    ensures |parts| > 1 ==> SepAt(r, |parts[0]|)
    ensures r == "" <==> parts == [] || parts == [""]
  {
    if |parts| == 0 then ""
    else if |parts| == 1 then parts[0]
    else parts[0] + Sep + Join(parts[1..])
  }

  /** Joining the pieces of a split gives the string back. */
  lemma {:induction false} JoinSplit(s: string)
    ensures Join(Split(s)) == s
    decreases |s|
  {
    match FindSep(s, 0)
    case None =>
    case Some(i) =>
      var rest := s[i + 2..];
      JoinSplit(rest);
      assert Split(s) == [s[..i]] + Split(rest);
      assert Split(s)[1..] == Split(rest);
      assert s == s[..i] + Sep + rest;
  }

  /** Splitting what a join of such pieces gives returns the pieces. */
  lemma {:induction false} SplitJoin(parts: seq<string>)
    requires |parts| >= 1 && SplitPieces(parts)
    ensures Split(Join(parts)) == parts
    decreases |parts|
  {
    if |parts| == 1 {
      assert NoSep(parts[0]);
    } else {
      var p, rest := parts[0], parts[1..];
      var s := Join(parts);
      assert s == p + Sep + Join(rest);
      assert NoSep(p) && !EndsInUnderscore(p);
      forall j | 0 <= j < |p|
        ensures !SepAt(s, j)
      {
        if j + 1 < |p| {
          assert !SepAt(p, j);
        }
      }
      FirstSepAt(s, |p|);
      assert s[..|p|] == p;
      assert s[|p| + 2..] == Join(rest);
      assert SplitPieces(rest) by {
        forall k | 0 <= k < |rest| ensures NoSep(rest[k]) { assert rest[k] == parts[k + 1]; }
        forall k | 0 <= k < |rest| - 1 ensures !EndsInUnderscore(rest[k]) { assert rest[k] == parts[k + 1]; }
      }
      SplitJoin(rest);
    }
  }

  /** Number of segments of a lookup. */
  function Segments(l: Lookup): nat
  {
    |Split(l)|
  }

  /** `LOOKUP_SEP in l`. */
  function HasSep(l: Lookup): (b: bool)
    ensures b <==> exists j :: SepAt(l, j)
    ensures b <==> Segments(l) > 1
  {
    FindSep(l, 0).Some?
  }

  /** `l.split(LOOKUP_SEP)[0]`: the attribute a round resolves. It is the
      text before the first separator, and it holds no separator itself. */
  function HeadAttr(l: Lookup): (a: string)
    ensures a <= l
    ensures forall j :: !SepAt(a, j)
    ensures forall j :: 0 <= j < |a| ==> !SepAt(l, j)
    ensures HasSep(l) ==> SepAt(l, |a|)
    ensures !HasSep(l) ==> a == l
  {
    match FindSep(l, 0)
    case None => Split(l)[0]
    case Some(i) =>
      assert forall j :: SepAt(l[..i], j) ==> SepAt(l, j);
      Split(l)[0]
  }

  /** A lookup cut at its first separator i: the split's first piece and
      the head attribute are the text before i, the other pieces are the
      split of the text after the separator. */
  lemma SplitFirst(l: Lookup, i: nat)
    requires FindSep(l, 0) == Some(i)
    ensures Split(l) == [l[..i]] + Split(l[i + 2..])
    ensures HeadAttr(l) == l[..i]
    ensures l == l[..i] + Sep + l[i + 2..]
  {
    assert SepAt(l, i);
    assert l[i..i + 2] == Sep;
    assert l == l[..i] + l[i..i + 2] + l[i + 2..];
  }

  /** What follows the first separator is what the tail of the split joins to. */
  lemma SplitRest(l: Lookup)
    ensures FindSep(l, 0).None? ==> Split(l)[1..] == []
    ensures FindSep(l, 0).Some? ==> Split(l)[1..] == Split(l[FindSep(l, 0).value + 2..])
    ensures FindSep(l, 0).Some? ==> Join(Split(l)[1..]) == l[FindSep(l, 0).value + 2..]
    ensures FindSep(l, 0).Some? ==> l == HeadAttr(l) + Sep + l[FindSep(l, 0).value + 2..]
  {
    match FindSep(l, 0)
    case None =>
    case Some(i) =>
      SplitFirst(l, i);
      var rest := l[i + 2..];
      assert Split(l)[1..] == Split(rest);
      JoinSplit(rest);
  }

  /** `clip_lookup(l)`: `LOOKUP_SEP.join(l.split(LOOKUP_SEP)[1:]) or None`. */
  function ClipLookup(l: Lookup): (r: Option<Lookup>)
    ensures r.Some? ==> l == HeadAttr(l) + Sep + r.value
    ensures r.Some? ==> Split(r.value) == Split(l)[1..]
    ensures r.Some? ==> Segments(r.value) == Segments(l) - 1
    ensures r.None? <==> !HasSep(l) || l == HeadAttr(l) + Sep
  {
    SplitRest(l);
    var rest := Join(Split(l)[1..]);
    if rest == "" then None else Some(rest)
  }
}
