/**
  Whitespace stripping of edit-box text, as done by the hashtag lookup of the
  "go to" menu (Python's `str.strip()` with no argument).

  `Strip` is defined by skipping whitespace from the front and then from the
  back; `IsStripOf` is an independent description of what a stripped string is
  (a contiguous slice of the input, everything outside it whitespace, nothing
  at its edges whitespace). `Strip`'s contract and `StripOfUnique` show the two
  agree, and `StripIndices` is the two-loop scan of the Python runtime.
 */
module Text {

  /** The characters Python's `str.isspace` accepts, which are the ones
      `str.strip()` removes. */
  predicate IsWhitespace(c: char)
  {
    var n := c as int;
    || 0x09 <= n <= 0x0D
    || 0x1C <= n <= 0x20
    || n == 0x85
    || n == 0xA0
    || n == 0x1680
    || 0x2000 <= n <= 0x200A
    || n == 0x2028
    || n == 0x2029
    || n == 0x202F
    || n == 0x205F
    || n == 0x3000
  }

  /** Every character of `s` from `lo` up to (not including) `hi` is whitespace. */
  predicate WhitespaceBetween(s: string, lo: int, hi: int)
    requires 0 <= lo <= hi <= |s|
  {
    forall k :: lo <= k < hi ==> IsWhitespace(s[k])
  }

  predicate AllWhitespace(s: string)
  {
    WhitespaceBetween(s, 0, |s|)
  }

  /** Neither the first nor the last character of `s` is whitespace. */
  predicate NoEdgeWhitespace(s: string)
  {
    |s| == 0 || (!IsWhitespace(s[0]) && !IsWhitespace(s[|s| - 1]))
  }

  /** `s[i..j]` is the stripped part of `s`: only whitespace before `i` and
      from `j` on, and no whitespace at either end of the slice. */
  predicate IsStripSlice(s: string, i: int, j: int)
    requires 0 <= i <= j <= |s|
  {
    && WhitespaceBetween(s, 0, i)
    && WhitespaceBetween(s, j, |s|)
    && (i < j ==> !IsWhitespace(s[i]) && !IsWhitespace(s[j - 1]))
  }

  /** `r` is `s` with its leading and trailing whitespace removed. */
  ghost predicate IsStripOf(s: string, r: string)
  {
    exists i, j :: 0 <= i <= j <= |s| && IsStripSlice(s, i, j) && r == s[i..j]
  }

  /** The first position at or after `i` that does not hold whitespace, or
      `|s|` if there is none. */
  function SkipLeading(s: string, i: nat): (r: nat)
    requires i <= |s|
    decreases |s| - i
    ensures i <= r <= |s|
    ensures WhitespaceBetween(s, i, r)
    ensures r < |s| ==> !IsWhitespace(s[r])
  {
    if i < |s| && IsWhitespace(s[i]) then SkipLeading(s, i + 1) else i
  }

  /** The position just after the last non-whitespace character in
      `s[lo..j]`, or `lo` if there is none. */
  function SkipTrailing(s: string, lo: nat, j: nat): (r: nat)
    requires lo <= j <= |s|
    decreases j - lo
    ensures lo <= r <= j
    ensures WhitespaceBetween(s, r, j)
    ensures lo < r ==> !IsWhitespace(s[r - 1])
  {
    if lo < j && IsWhitespace(s[j - 1]) then SkipTrailing(s, lo, j - 1) else j
  }

  /** `s` with leading and trailing whitespace removed. */
  function Strip(s: string): (r: string)
    ensures IsStripOf(s, r)
    ensures NoEdgeWhitespace(r)
  {
    var i := SkipLeading(s, 0);
    var j := SkipTrailing(s, i, |s|);
    assert IsStripSlice(s, i, j);
    s[i..j]
  }

  /** The stripped form of a string is unique: any two strings that are each a
      strip of `s` are equal. Together with `Strip`'s contract this makes
      `IsStripOf` a complete description of `Strip`. */
  lemma StripOfUnique(s: string, r1: string, r2: string)
    requires IsStripOf(s, r1) && IsStripOf(s, r2)
    ensures r1 == r2
  {
    var i1, j1 :| 0 <= i1 <= j1 <= |s| && IsStripSlice(s, i1, j1) && r1 == s[i1..j1];
    var i2, j2 :| 0 <= i2 <= j2 <= |s| && IsStripSlice(s, i2, j2) && r2 == s[i2..j2];
    EmptyStripMeansAllWhitespace(s, i1, j1);
    EmptyStripMeansAllWhitespace(s, i2, j2);
    if i1 < j1 && i2 < j2 {
      assert i1 == i2 && j1 == j2;
    }
  }

  /** A strip slice is empty exactly when the whole string is whitespace. */
  lemma EmptyStripMeansAllWhitespace(s: string, i: int, j: int)
    requires 0 <= i <= j <= |s| && IsStripSlice(s, i, j)
    ensures i == j <==> AllWhitespace(s)
  {
  }

  /** Any slice meeting the strip description is what `Strip` returns. */
  lemma StripIsSlice(s: string, i: int, j: int)
    requires 0 <= i <= j <= |s| && IsStripSlice(s, i, j)
    ensures Strip(s) == s[i..j]
  {
    StripOfUnique(s, s[i..j], Strip(s));
  }

  /** Stripping twice is the same as stripping once. */
  lemma StripIdempotent(s: string)
    ensures Strip(Strip(s)) == Strip(s)
  {
    var r := Strip(s);
    assert IsStripSlice(r, 0, |r|);
    assert r[0..|r|] == r;
    StripIsSlice(r, 0, |r|);
  }

  /** The stripped text is empty exactly when the input is empty or consists
      of whitespace only. */
  lemma StripEmptyIff(s: string)
    ensures |Strip(s)| == 0 <==> AllWhitespace(s)
  {
    var r := Strip(s);
    var i, j :| 0 <= i <= j <= |s| && IsStripSlice(s, i, j) && r == s[i..j];
    EmptyStripMeansAllWhitespace(s, i, j);
  }

  /** The two-loop scan that computes the bounds of the stripped slice: skip
      whitespace from the front, then from the back. */
  method StripIndices(s: string) returns (i: nat, j: nat)
    ensures i <= j <= |s|
    ensures s[i..j] == Strip(s)
  {
    i := 0;
    while i < |s| && IsWhitespace(s[i])
      invariant i <= |s|
      invariant WhitespaceBetween(s, 0, i)
    {
      i := i + 1;
    }
    j := |s|;
    while j > i && IsWhitespace(s[j - 1])
      invariant i <= j <= |s|
      invariant WhitespaceBetween(s, j, |s|)
    {
      j := j - 1;
    }
    StripIsSlice(s, i, j);
  }
}
