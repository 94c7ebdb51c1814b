/** The JavaScript string built-ins the core relies on: `String.prototype.indexOf`,
    `includes` and `split` with a string separator. A `char` here is a Unicode scalar
    value, whereas JavaScript strings are sequences of UTF-16 code units. For text with
    characters outside the Basic Multilingual Plane the positions `indexOf` returns
    therefore differ from JavaScript's; the pieces `split` returns do not. */
module JsString {
  import opened Wrappers

  /** `sep` occurs in `s` at position `i`. */
  predicate OccursAt(s: string, sep: string, i: nat)
  {
    i + |sep| <= |s| && s[i..i + |sep|] == sep
  }

  /** `s.indexOf(sep)`, with `None` for -1: a position where `sep` occurs, the
      leftmost one (`IndexOfLeftmost`). */
  function IndexOf(s: string, sep: string): (r: Option<nat>)
    ensures r.Some? ==> OccursAt(s, sep, r.value)
  {
    if |s| < |sep| then None
    else if s[..|sep|] == sep then Some(0)
    else
      OccursInTail(s, sep);
      match IndexOf(s[1..], sep)
      case None => None
      case Some(k) => Some(k + 1)
  }

  /** An occurrence past the first position is an occurrence in the tail. */
  lemma OccursInTail(s: string, sep: string)
    requires s != []
    ensures forall j: nat :: j >= 1 ==> (OccursAt(s, sep, j) <==> OccursAt(s[1..], sep, j - 1))
  {
    forall j: nat | j >= 1 ensures OccursAt(s, sep, j) <==> OccursAt(s[1..], sep, j - 1) {
      if j + |sep| <= |s| {
        assert s[j..j + |sep|] == s[1..][j - 1..j - 1 + |sep|];
      }
    }
  }

  /** The position `indexOf` returns is the leftmost occurrence, and `None` means
      there is no occurrence at all. */
  lemma {:induction false} IndexOfLeftmost(s: string, sep: string)
    ensures IndexOf(s, sep).Some? ==> forall j :: 0 <= j < IndexOf(s, sep).value ==> !OccursAt(s, sep, j)
    ensures IndexOf(s, sep).None? ==> forall j :: 0 <= j <= |s| ==> !OccursAt(s, sep, j)
    decreases |s|
  {
    if |s| >= |sep| && s[..|sep|] != sep {
      OccursInTail(s, sep);
      IndexOfLeftmost(s[1..], sep);
      assert !OccursAt(s, sep, 0) by {
        assert s[0..|sep|] == s[..|sep|];
      }
    }
  }

  /** `s.includes(sub)`. */
  predicate Includes(s: string, sub: string)
  {
    IndexOf(s, sub).Some?
  }

  /** `s.split(sep)` for a non-empty string separator: the pieces between the
      leftmost non-overlapping occurrences of `sep`, scanning left to right. */
  function Split(s: string, sep: string): (r: seq<string>)
    requires sep != []
    ensures |r| >= 1
    decreases |s|
  {
    match IndexOf(s, sep)
    case None => [s]
    case Some(i) => [s[..i]] + Split(s[i + |sep|..], sep)
  }

  /** One step of `split`: the piece before the leftmost occurrence, then the split of the rest. */
  lemma SplitStep(s: string, sep: string)
    requires sep != []
    ensures IndexOf(s, sep).None? ==> Split(s, sep) == [s]
    ensures IndexOf(s, sep).Some? ==>
      Split(s, sep) == [s[..IndexOf(s, sep).value]] + Split(s[IndexOf(s, sep).value + |sep|..], sep)
  {
  }

  /** `split` yields a single piece iff `sep` does not occur. */
  lemma SplitOne(s: string, sep: string)
    requires sep != []
    ensures |Split(s, sep)| == 1 <==> IndexOf(s, sep).None?
  {
    SplitStep(s, sep);
  }

  /** Splitting yields exactly two pieces iff `sep` occurs once in the
      left-to-right scan, and then the second piece is everything after it. */
  lemma {:induction false} SplitInTwo(s: string, sep: string)
    requires sep != []
    ensures |Split(s, sep)| == 2 <==>
      IndexOf(s, sep).Some? && IndexOf(s[IndexOf(s, sep).value + |sep|..], sep).None?
    ensures |Split(s, sep)| == 2 ==> Split(s, sep)[1] == s[IndexOf(s, sep).value + |sep|..]
  {
    SplitStep(s, sep);
    var first := IndexOf(s, sep);
    if first.Some? {
      var rest := s[first.value + |sep|..];
      SplitOne(rest, sep);
      SplitStep(rest, sep);
    }
  }

  /** The first piece of a split on a single character is the longest prefix
      free of that character. */
  lemma {:induction false} FirstPiece(s: string, c: char)
    ensures Split(s, [c])[0] <= s
    ensures c !in Split(s, [c])[0]
    ensures |Split(s, [c])[0]| < |s| ==> s[|Split(s, [c])[0]|] == c
  {
    IndexOfLeftmost(s, [c]);
    match IndexOf(s, [c])
    case None =>
      forall j | 0 <= j < |s| ensures s[j] != c {
        assert !OccursAt(s, [c], j);
        assert s[j..j + 1] == [s[j]];
      }
    case Some(i) =>
      assert s[i..i + 1] == [c];
      forall j | 0 <= j < i ensures s[j] != c {
        assert !OccursAt(s, [c], j);
        assert s[j..j + 1] == [s[j]];
      }
  }
}
