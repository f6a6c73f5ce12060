/**
 * The parts of Go's `strings` package that scan.go uses: `Contains`,
 * `IndexByte`, `Split` (with a one-character separator), `Join` and
 * `TrimSpace`. Text is a sequence of Unicode scalar values; for valid UTF-8
 * this agrees with Go's byte-wise functions, because every separator and
 * sentinel used here is ASCII.
 */
module GoStrings {

  // ---------------------------------------------------------------------
  // Contains
  // ---------------------------------------------------------------------

  /** `sub` occurs in `s` starting at index `i`. */
  ghost predicate OccursAt(s: string, sub: string, i: int) {
    0 <= i && i + |sub| <= |s| && s[i..i + |sub|] == sub
  }

  /** Go's `strings.Contains`: a left-to-right search for `sub`. */
  function Contains(s: string, sub: string): (b: bool)
    ensures b <==> exists i :: OccursAt(s, sub, i)
    decreases |s|
  {
    if |sub| > |s| then false
    else if s[..|sub|] == sub then assert OccursAt(s, sub, 0); true
    else
      var b := Contains(s[1..], sub);
      OccursShift(s, sub);
      b
  }

  /** When `sub` is not a prefix of `s`, its occurrences in `s` are those in `s[1..]`, one place on. */
  lemma OccursShift(s: string, sub: string)
    requires |sub| <= |s| && s[..|sub|] != sub
    ensures (exists i :: OccursAt(s, sub, i)) <==> (exists j :: OccursAt(s[1..], sub, j))
  {
    if i :| OccursAt(s, sub, i) {
      assert i != 0;
      assert s[1..][i - 1..i - 1 + |sub|] == s[i..i + |sub|];
      assert OccursAt(s[1..], sub, i - 1);
    }
    if j :| OccursAt(s[1..], sub, j) {
      assert s[j + 1..j + 1 + |sub|] == s[1..][j..j + |sub|];
      assert OccursAt(s, sub, j + 1);
    }
  }

  /** Text that contains `sub` somewhere still contains it with anything around it. */
  lemma ContainsInContext(a: string, sub: string, b: string)
    ensures Contains(a + sub + b, sub)
  {
    var s := a + sub + b;
    assert s[|a|..|a| + |sub|] == sub;
    assert OccursAt(s, sub, |a|);
  }

  // ---------------------------------------------------------------------
  // IndexByte
  // ---------------------------------------------------------------------

  /** Go's `strings.IndexByte`: the first index of `c` in `s`, or -1. */
  function IndexByte(s: string, c: char): (i: int)
    ensures -1 <= i < |s|
    ensures i == -1 <==> c !in s
    ensures i >= 0 ==> s[i] == c && c !in s[..i]
  {
    if |s| == 0 then -1
    else if s[0] == c then 0
    else
      var j := IndexByte(s[1..], c);
      assert s[1..][..if j < 0 then 0 else j] == s[1..if j < 0 then 1 else j + 1];
      if j < 0 then -1 else j + 1
  }

  /** The first occurrence is the one with no occurrence before it. */
  lemma {:induction false} IndexByteAt(s: string, c: char, k: nat)
    requires k < |s| && s[k] == c && c !in s[..k]
    ensures IndexByte(s, c) == k
    decreases k
  {
    if k > 0 {
      assert s[0] == s[..k][0];
      assert s[1..][..k - 1] == s[..k][1..];
      IndexByteAt(s[1..], c, k - 1);
    }
  }

  // ---------------------------------------------------------------------
  // Split and Join
  // ---------------------------------------------------------------------

  /** Go's `strings.Join` of the pieces with a one-character separator. */
  function Join(parts: seq<string>, sep: char): string
  {
    if |parts| == 0 then ""
    else if |parts| == 1 then parts[0]
    else parts[0] + [sep] + Join(parts[1..], sep)
  }

  /** None of the pieces holds the separator. */
  ghost predicate SeparatorFree(parts: seq<string>, sep: char) {
    forall k :: 0 <= k < |parts| ==> sep !in parts[k]
  }

  /**
   * Go's `strings.Split(s, sep)` for a one-character `sep`: the pieces of
   * `s` between consecutive separators, one more than there are separators.
   */
  function Split(s: string, sep: char): (parts: seq<string>)
    ensures |parts| >= 1
    ensures |parts| > 1 <==> sep in s
    ensures SeparatorFree(parts, sep)
    ensures Join(parts, sep) == s
    decreases |s|
  {
    var i := IndexByte(s, sep);
    if i < 0 then [s]
    else
      var rest := Split(s[i + 1..], sep);
      var parts := [s[..i]] + rest;
      assert parts[1..] == rest;
      assert s == s[..i] + [sep] + s[i + 1..];
      parts
  }

  /** Splitting undoes joining: `Split` is the inverse of `Join` on separator-free pieces. */
  lemma {:induction false} SplitJoin(parts: seq<string>, sep: char)
    requires |parts| >= 1 && SeparatorFree(parts, sep)
    ensures Split(Join(parts, sep), sep) == parts
    decreases |parts|
  {
    var s := Join(parts, sep);
    if |parts| == 1 {
      assert sep !in parts[0];
    } else {
      var tail := Join(parts[1..], sep);
      assert s == parts[0] + [sep] + tail;
      assert sep !in parts[0];
      assert s[|parts[0]|] == sep;
      assert s[..|parts[0]|] == parts[0];
      assert IndexByte(s, sep) == |parts[0]|;
      assert s[|parts[0]| + 1..] == tail;
      SplitJoin(parts[1..], sep);
      assert parts == [parts[0]] + parts[1..];
    }
  }

  /**
   * The second piece of a split, for text with at least one separator: the
   * text after the first separator, up to the next separator or the end.
   */
  lemma SplitSecondPiece(s: string, sep: char)
    requires sep in s
    ensures var i := IndexByte(s, sep);
            var rest := s[i + 1..];
            var j := IndexByte(rest, sep);
            Split(s, sep)[1] == if j < 0 then rest else rest[..j]
  {
    var i := IndexByte(s, sep);
    var rest := s[i + 1..];
    assert Split(s, sep) == [s[..i]] + Split(rest, sep);
  }

  // ---------------------------------------------------------------------
  // TrimSpace
  // ---------------------------------------------------------------------

  /** Go's `unicode.IsSpace`: the white space that `strings.TrimSpace` removes. */
  predicate IsSpace(c: char) {
    c == ' ' || ('\t' <= c <= '\r') || c == '\U{0085}' || c == '\U{00A0}' || c == '\U{1680}'
    || ('\U{2000}' <= c <= '\U{200A}') || c == '\U{2028}' || c == '\U{2029}'
    || c == '\U{202F}' || c == '\U{205F}' || c == '\U{3000}'
  }

  ghost predicate AllSpace(s: string) {
    forall k :: 0 <= k < |s| ==> IsSpace(s[k])
  }

  /** Neither end of `r` is white space. */
  ghost predicate Trimmed(r: string) {
    r == [] || (!IsSpace(r[0]) && !IsSpace(r[|r| - 1]))
  }

  /** The end of the run of white space that starts at `i`: the first index from `i` on that is not white space, or `|s|`. */
  function SpaceEnd(s: string, i: nat): (n: nat)
    requires i <= |s|
    ensures i <= n <= |s| && (n < |s| ==> !IsSpace(s[n]))
    ensures forall k :: i <= k < n ==> IsSpace(s[k])
    decreases |s| - i
  {
    if i < |s| && IsSpace(s[i]) then SpaceEnd(s, i + 1) else i
  }

  /** The start of the run of white space that ends at `j`, going back no further than `lo`. */
  function SpaceStart(s: string, lo: nat, j: nat): (n: nat)
    requires lo <= j <= |s|
    ensures lo <= n <= j && (lo < n ==> !IsSpace(s[n - 1]))
    ensures forall k :: n <= k < j ==> IsSpace(s[k])
    decreases j
  {
    if lo < j && IsSpace(s[j - 1]) then SpaceStart(s, lo, j - 1) else j
  }

  /**
   * Go's `strings.TrimSpace`: `s` without its leading and trailing white
   * space, found by scanning in from the front and then from the back;
   * `TrimSpaceCutsSpace` shows that only white space is cut off.
   */
  function TrimSpace(s: string): (r: string)
    ensures Trimmed(r) && |r| <= |s|
  {
    var i := SpaceEnd(s, 0);
    var j := SpaceStart(s, i, |s|);
    s[i..j]
  }

  /** `TrimSpace(s)` is a piece of `s`, and everything cut off on either side of it is white space. */
  lemma TrimSpaceCutsSpace(s: string)
    ensures var r := TrimSpace(s);
            exists n :: 0 <= n <= |s| - |r| && AllSpace(s[..n]) && r == s[n..n + |r|] && AllSpace(s[n + |r|..])
  {
    var i := SpaceEnd(s, 0);
    var j := SpaceStart(s, i, |s|);
    assert TrimSpace(s) == s[i..j];
    assert AllSpace(s[..i]) && AllSpace(s[j..]);
  }

  /**
   * `TrimSpace` is determined by what it promises: whenever `s` is white
   * space, then a piece whose ends are not white space, then white space,
   * that piece is `TrimSpace(s)`.
   */
  lemma TrimSpaceUnique(pre: string, r: string, post: string)
    requires AllSpace(pre) && AllSpace(post) && Trimmed(r)
    ensures TrimSpace(pre + r + post) == r
  {
    var s := pre + r + post;
    forall k | 0 <= k < |pre|
      ensures IsSpace(s[k])
    {
      assert s[k] == pre[k];
    }
    forall k | |pre| + |r| <= k < |s|
      ensures IsSpace(s[k])
    {
      assert s[k] == post[k - |pre| - |r|];
    }
    var i := SpaceEnd(s, 0);
    var j := SpaceStart(s, i, |s|);
    if r == [] {
      assert i == |s| && j == |s|;
    } else {
      assert s[|pre|] == r[0] && s[|pre| + |r| - 1] == r[|r| - 1];
      assert i == |pre|;
      assert j == |pre| + |r|;
      assert s[i..j] == r;
    }
  }

  /** Trimming twice is trimming once. */
  lemma TrimSpaceIdempotent(s: string)
    ensures TrimSpace(TrimSpace(s)) == TrimSpace(s)
  {
    var r := TrimSpace(s);
    assert [] + r + [] == r;
    TrimSpaceUnique([], r, []);
  }
}
