/** The parts of Python's `str` that the prompt shim relies on: `isspace`,
    `strip()` with no argument, `startswith`, and slicing with clamped,
    possibly negative indices. Strings are sequences of code points. */
module PyStr {

  /** Python's `str.isspace` for one code point: the characters that
      `str.strip()` removes when called without an argument. */
  predicate IsSpace(c: char)
  {
    || c == ' '
    || ('\t' <= c <= '\r')
    || ('\U{1C}' <= c <= '\U{1F}')
    || c == '\U{85}'
    || c == '\U{A0}'
    || c == '\U{1680}'
    || ('\U{2000}' <= c <= '\U{200A}')
    || c == '\U{2028}'
    || c == '\U{2029}'
    || c == '\U{202F}'
    || c == '\U{205F}'
    || c == '\U{3000}'
  }

  predicate AllSpace(s: seq<char>)
  {
    forall i :: 0 <= i < |s| ==> IsSpace(s[i])
  }

  /** Neither end of `s` is whitespace: `s` is a fixed point of `strip`. */
  predicate Trimmed(s: seq<char>)
  {
    |s| == 0 || (!IsSpace(s[0]) && !IsSpace(s[|s| - 1]))
  }

  /** `m` occurs in `s` at offset `lo`, and everything around it is whitespace. */
  predicate Frames(s: seq<char>, lo: int, m: seq<char>)
  {
    && 0 <= lo
    && lo + |m| <= |s|
    && s[lo..lo + |m|] == m
    && AllSpace(s[..lo])
    && AllSpace(s[lo + |m|..])
  }

  /** `str.lstrip()`: drop leading whitespace. */
  function LStrip(s: seq<char>): (r: seq<char>)
    ensures |r| <= |s| && r == s[|s| - |r|..]
    ensures AllSpace(s[..|s| - |r|])
    ensures r == [] || !IsSpace(r[0])
    decreases |s|
  {
    if |s| > 0 && IsSpace(s[0]) then
      var r := LStrip(s[1..]);
      assert s[..|s| - |r|] == [s[0]] + s[1..][..|s| - 1 - |r|];
      r
    else
      s
  }

  /** `str.rstrip()`: drop trailing whitespace. */
  function RStrip(s: seq<char>): (r: seq<char>)
    ensures |r| <= |s| && r == s[..|r|]
    ensures AllSpace(s[|r|..])
    ensures r == [] || !IsSpace(r[|r| - 1])
    decreases |s|
  {
    if |s| > 0 && IsSpace(s[|s| - 1]) then
      var r := RStrip(s[..|s| - 1]);
      assert s[|r|..] == s[..|s| - 1][|r|..] + [s[|s| - 1]];
      r
    else
      s
  }

  /** `str.strip()`: the result is a trimmed piece of `s` with only
      whitespace around it. */
  function Strip(s: seq<char>): (r: seq<char>)
    ensures Trimmed(r)
    ensures exists lo :: Frames(s, lo, r)
  {
    var l := LStrip(s);
    var r := RStrip(l);
    var lo := |s| - |l|;
    assert r == [] || r[0] == l[0];
    assert s[lo..lo + |r|] == l[..|r|];
    assert s[lo + |r|..] == l[|r|..];
    assert Frames(s, lo, r);
    r
  }

  /** Two trimmed pieces of the same string that are both framed by
      whitespace are the same piece. */
  lemma {:induction false} FramesUnique(s: seq<char>, lo1: int, m1: seq<char>, lo2: int, m2: seq<char>)
    requires Frames(s, lo1, m1) && Trimmed(m1)
    requires Frames(s, lo2, m2) && Trimmed(m2)
    ensures m1 == m2
  {
    if |m1| == 0 || |m2| == 0 {
      // The empty piece means s is all whitespace, so the other is empty too.
      NonEmptyPieceIsSeen(s, lo1, m1, lo2, m2);
      NonEmptyPieceIsSeen(s, lo2, m2, lo1, m1);
    } else {
      SameStart(s, lo1, m1, lo2, m2);
      SameStart(s, lo2, m2, lo1, m1);
      SameEnd(s, lo1, m1, lo2, m2);
      SameEnd(s, lo2, m2, lo1, m1);
    }
  }

  lemma NonEmptyPieceIsSeen(s: seq<char>, lo1: int, m1: seq<char>, lo2: int, m2: seq<char>)
    requires Frames(s, lo1, m1) && |m1| == 0
    requires Frames(s, lo2, m2) && Trimmed(m2)
    ensures |m2| == 0
  {
  }

  lemma SameStart(s: seq<char>, lo1: int, m1: seq<char>, lo2: int, m2: seq<char>)
    requires Frames(s, lo1, m1) && Trimmed(m1) && |m1| > 0
    requires Frames(s, lo2, m2)
    ensures lo2 <= lo1
  {
  }

  lemma SameEnd(s: seq<char>, lo1: int, m1: seq<char>, lo2: int, m2: seq<char>)
    requires Frames(s, lo1, m1) && Trimmed(m1) && |m1| > 0
    requires Frames(s, lo2, m2)
    ensures lo1 + |m1| <= lo2 + |m2|
  {
  }

  /** `strip` returns the one trimmed piece of `s` framed by whitespace. */
  lemma StripUnique(s: seq<char>, lo: int, m: seq<char>)
    requires Frames(s, lo, m) && Trimmed(m)
    ensures Strip(s) == m
  {
    var r := Strip(s);
    var lo' :| Frames(s, lo', r);
    FramesUnique(s, lo', r, lo, m);
  }

  /** A trimmed string is left alone by `strip`. */
  lemma StripTrimmed(s: seq<char>)
    requires Trimmed(s)
    ensures Strip(s) == s
  {
    assert s[..0] == [] && s[|s|..] == [];
    StripUnique(s, 0, s);
  }

  /** Stripping twice is stripping once. */
  lemma StripIdempotent(s: seq<char>)
    ensures Strip(Strip(s)) == Strip(s)
  {
    StripTrimmed(Strip(s));
  }

  /** Whitespace added around a trimmed string is exactly what `strip` removes. */
  lemma StripPadded(pre: seq<char>, m: seq<char>, post: seq<char>)
    requires AllSpace(pre) && AllSpace(post) && Trimmed(m)
    ensures Strip(pre + m + post) == m
  {
    var s := pre + m + post;
    assert s[..|pre|] == pre;
    assert s[|pre|..|pre| + |m|] == m;
    assert s[|pre| + |m|..] == post;
    StripUnique(s, |pre|, m);
  }

  /** Leading whitespace is dropped before anything else is looked at. */
  lemma StripSkipsLeadingSpace(pad: seq<char>, rest: seq<char>)
    requires AllSpace(pad)
    ensures Strip(pad + rest) == Strip(rest)
  {
    var m := Strip(rest);
    var lo :| Frames(rest, lo, m);
    StripShifted(pad, rest, lo, m);
  }

  lemma StripShifted(pad: seq<char>, rest: seq<char>, lo: int, m: seq<char>)
    requires AllSpace(pad) && Frames(rest, lo, m) && Trimmed(m)
    ensures Strip(pad + rest) == m
  {
    FramesShift(pad, rest, lo, m);
    StripUnique(pad + rest, |pad| + lo, m);
  }

  /** A frame survives putting whitespace in front of the string. */
  lemma FramesShift(pad: seq<char>, rest: seq<char>, lo: int, m: seq<char>)
    requires AllSpace(pad) && Frames(rest, lo, m)
    ensures Frames(pad + rest, |pad| + lo, m)
  {
    var s := pad + rest;
    var hi := |pad| + lo + |m|;
    assert s[|pad| + lo..hi] == rest[lo..lo + |m|];
    assert s[..|pad| + lo] == pad + rest[..lo];
    assert s[hi..] == rest[lo + |m|..];
  }

  /** Every non-whitespace character of `s` lies inside a whitespace frame. */
  lemma InsideFrame(s: seq<char>, lo: int, m: seq<char>, i: int)
    requires Frames(s, lo, m)
    requires 0 <= i < |s| && !IsSpace(s[i])
    ensures lo <= i < lo + |m|
  {
  }

  /** A frame whose string begins with the non-whitespace run `s[..n]`
      starts with that run. */
  lemma FrameKeepsStart(s: seq<char>, lo: int, m: seq<char>, n: int)
    requires Frames(s, lo, m)
    requires 0 < n <= |s| && !IsSpace(s[0]) && !IsSpace(s[n - 1])
    ensures n <= |m| && m[..n] == s[..n]
  {
    InsideFrame(s, lo, m, 0);
    InsideFrame(s, lo, m, n - 1);
    assert m == s[..|m|];
  }

  /** A string whose start `p` begins and ends with non-whitespace keeps
      that start through `strip`. */
  lemma StripKeepsStart(p: seq<char>, q: seq<char>)
    requires |p| > 0 && Trimmed(p)
    ensures |p| <= |Strip(p + q)| && Strip(p + q)[..|p|] == p
  {
    var s := p + q;
    var r := Strip(s);
    var lo :| Frames(s, lo, r);
    assert s[..|p|] == p;
    assert s[0] == p[0] && s[|p| - 1] == p[|p| - 1];
    FrameKeepsStart(s, lo, r, |p|);
  }

  /** `s.startswith(p)`. */
  predicate StartsWith(s: seq<char>, p: seq<char>)
  {
    |p| <= |s| && s[..|p|] == p
  }

  /** Python's normalisation of a slice bound against a length `n` (step 1):
      a negative bound counts from the end, then the bound is clamped to
      `0..n`. Slicing never raises. */
  function ClampIndex(i: int, n: nat): (k: nat)
    ensures k <= n
    ensures 0 <= i <= n ==> k == i
    ensures -(n as int) <= i < 0 ==> k == n + i
    ensures i < -(n as int) ==> k == 0
    ensures n < i ==> k == n
  {
    var j := if i < 0 then i + n else i;
    if j < 0 then 0 else if j > n then n else j
  }

  /** `s[start:stop]`: an empty slice when the normalised bounds cross. */
  function Slice(s: seq<char>, start: int, stop: int): (r: seq<char>)
    ensures |r| <= |s|
    ensures 0 <= start <= stop <= |s| ==> r == s[start..stop]
    ensures forall k :: 0 <= k < |r| ==> ClampIndex(start, |s|) + k < |s| && r[k] == s[ClampIndex(start, |s|) + k]
    ensures
      var lo, hi := ClampIndex(start, |s|), ClampIndex(stop, |s|);
      && (lo <= hi ==> |r| == hi - lo)
      && (hi < lo ==> r == [])
  {
    var lo := ClampIndex(start, |s|);
    var hi := ClampIndex(stop, |s|);
    if lo <= hi then s[lo..hi] else []
  }

  /** `s[start:]`. */
  function SliceFrom(s: seq<char>, start: int): (r: seq<char>)
    ensures 0 <= start <= |s| ==> r == s[start..]
    ensures |s| <= start ==> r == []
    ensures |r| <= |s| && r == s[|s| - |r|..]
  {
    s[ClampIndex(start, |s|)..]
  }

  /** `s[k:-k]` for a positive `k` is the middle of `s` once `s` has at
      least `2 * k` characters, and empty otherwise. */
  lemma SliceInner(s: seq<char>, k: nat)
    requires 0 < k
    ensures 2 * k <= |s| ==> Slice(s, k, -(k as int)) == s[k..|s| - k]
    ensures |s| <= 2 * k ==> Slice(s, k, -(k as int)) == []
  {
  }
}
