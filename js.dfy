/**
 * The JavaScript string built-ins that the extraction handlers rely on, with the
 * semantics ECMAScript gives them: `indexOf`, `lastIndexOf`, `substring`,
 * a global `replace` of a literal pattern by the empty string, and `trim`.
 * A string is a sequence of characters.
 */
module Js {

  /** `s.indexOf(c)`: the position of the first `c`, or -1 when there is none. */
  function IndexOf(s: string, c: char): (r: int)
    ensures -1 <= r < |s|
    ensures r == -1 <==> c !in s
    ensures 0 <= r ==> s[r] == c && c !in s[..r]
  {
    if s == [] then -1
    else if s[0] == c then 0
    else
      var k := IndexOf(s[1..], c);
      assert s[1..] == s[..|s|][1..];
      if k == -1 then -1
      else
        assert s[..k + 1] == [s[0]] + s[1..][..k];
        k + 1
  }

  /** `s.lastIndexOf(c)`: the position of the last `c`, or -1 when there is none. */
  function LastIndexOf(s: string, c: char): (r: int)
    ensures -1 <= r < |s|
    ensures r == -1 <==> c !in s
    ensures 0 <= r ==> s[r] == c && c !in s[r + 1..]
  {
    if s == [] then -1
    else if s[|s| - 1] == c then |s| - 1
    else
      var init := s[..|s| - 1];
      var k := LastIndexOf(init, c);
      assert s == init + [s[|s| - 1]];
      if k == -1 then -1
      else
        assert s[k + 1..] == init[k + 1..] + [s[|s| - 1]];
        k
  }

  /** `i` is the position of the first `c` in `s`. */
  ghost predicate FirstAt(s: string, c: char, i: int) {
    0 <= i < |s| && s[i] == c && c !in s[..i]
  }

  /** `j` is the position of the last `c` in `s`. */
  ghost predicate LastAt(s: string, c: char, j: int) {
    0 <= j < |s| && s[j] == c && c !in s[j + 1..]
  }

  lemma IndexOfFirst(s: string, c: char, i: int)
    requires FirstAt(s, c, i)
    ensures IndexOf(s, c) == i
  {
    assert s[i] in s;
  }

  lemma LastIndexOfLast(s: string, c: char, j: int)
    requires LastAt(s, c, j)
    ensures LastIndexOf(s, c) == j
  {
    assert s[j] in s;
  }

  /** ToIntegerOrInfinity followed by clamping into [0, len], as `substring` does with each bound. */
  function Clamp(n: int, len: nat): (r: nat)
    ensures r <= len
    ensures 0 <= n <= len ==> r == n
    ensures n < 0 ==> r == 0
    ensures n > len ==> r == len
  {
    if n < 0 then 0 else if n > len then len else n
  }

  /** `s.substring(start, end)`: both bounds are clamped into [0, |s|] and swapped when reversed. */
  function Substring(s: string, start: int, end: int): (r: string)
    ensures 0 <= start <= end <= |s| ==> r == s[start..end]
    ensures 0 <= end <= start <= |s| ==> r == s[end..start]
    ensures start < 0 && 0 <= end <= |s| ==> r == s[..end]
    ensures 0 <= start <= |s| && end < 0 ==> r == s[..start]
    ensures start > |s| && 0 <= end <= |s| ==> r == s[end..]
    ensures 0 <= start <= |s| && end > |s| ==> r == s[start..]
    ensures start < 0 && end > |s| ==> r == s
  {
    var from, to := Clamp(start, |s|), Clamp(end, |s|);
    if from <= to then s[from..to] else s[to..from]
  }

  /** `pat` occurs somewhere in `s` as a contiguous piece. */
  predicate Occurs(pat: string, s: string)
    decreases |s|
  {
    pat <= s || (s != [] && Occurs(pat, s[1..]))
  }

  /**
   * `s.replace(/pat/g, '')` for a literal, non-empty pattern: the string is scanned
   * left to right and each match is deleted, the scan resuming after it.
   */
  function RemoveAll(s: string, pat: string): (r: string)
    requires pat != []
    ensures |r| <= |s|
    decreases |s|
  {
    if s == [] then []
    else if pat <= s then RemoveAll(s[|pat|..], pat)
    else [s[0]] + RemoveAll(s[1..], pat)
  }

  /** ECMAScript WhiteSpace and LineTerminator code points: what `trim` removes. */
  predicate IsSpace(c: char) {
    || c == '\t' || c == '\n' || c == '\U{B}' || c == '\U{C}' || c == '\r' || c == ' '
    || c == '\U{A0}' || c == '\U{1680}' || ('\U{2000}' <= c <= '\U{200A}')
    || c == '\U{2028}' || c == '\U{2029}' || c == '\U{202F}' || c == '\U{205F}'
    || c == '\U{3000}' || c == '\U{FEFF}'
  }

  /** Neither end of `s` is white space. */
  predicate Trimmed(s: string) {
    s == [] || (!IsSpace(s[0]) && !IsSpace(s[|s| - 1]))
  }

  /** Leading white space removed: the result is the suffix after it. */
  function TrimStart(s: string): (r: string)
    ensures |r| <= |s| && r == s[|s| - |r|..]
    ensures r == [] || !IsSpace(r[0])
    ensures forall i :: 0 <= i < |s| - |r| ==> IsSpace(s[i])
  {
    if s != [] && IsSpace(s[0]) then TrimStart(s[1..]) else s
  }

  /** Trailing white space removed: the result is the prefix before it. */
  function TrimEnd(s: string): (r: string)
    ensures |r| <= |s| && r == s[..|r|]
    ensures r == [] || !IsSpace(r[|r| - 1])
    ensures forall i :: |r| <= i < |s| ==> IsSpace(s[i])
  {
    if s != [] && IsSpace(s[|s| - 1]) then TrimEnd(s[..|s| - 1]) else s
  }

  /** Every character of `t` is white space. */
  predicate AllSpace(t: string) {
    forall k :: 0 <= k < |t| ==> IsSpace(t[k])
  }

  /** `r` sits in `s` at offset `i`, and everything of `s` before and after it is white space. */
  predicate CoreAt(s: string, i: int, r: string) {
    0 <= i && i + |r| <= |s| && r == s[i..i + |r|] && AllSpace(s[..i]) && AllSpace(s[i + |r|..])
  }

  /** `s.trim()`: the piece of `s` between its leading and its trailing white space. */
  function Trim(s: string): (r: string)
    ensures Trimmed(r)
    ensures |r| <= |s|
  {
    TrimEnd(TrimStart(s))
  }

  /** A stretch of `s` that is white space character by character is white space as a slice. */
  lemma AllSpaceSlice(s: string, lo: int, hi: int)
    requires 0 <= lo <= hi <= |s|
    requires forall k :: lo <= k < hi ==> IsSpace(s[k])
    ensures AllSpace(s[lo..hi])
  {
    forall k | 0 <= k < hi - lo ensures IsSpace(s[lo..hi][k]) {
      assert s[lo..hi][k] == s[lo + k];
    }
  }

  /** A suffix of `s` behind white space, cut down to a prefix before white space, sits in `s` as a core. */
  lemma CoreOfCuts(s: string, t: string, r: string)
    requires |t| <= |s| && t == s[|s| - |t|..]
    requires forall k :: 0 <= k < |s| - |t| ==> IsSpace(s[k])
    requires |r| <= |t| && r == t[..|r|]
    requires forall k :: |r| <= k < |t| ==> IsSpace(t[k])
    ensures CoreAt(s, |s| - |t|, r)
  {
    var i := |s| - |t|;
    assert r == s[i..i + |r|];
    AllSpaceSlice(s, 0, i);
    assert s[..i] == s[0..i];
    forall k | i + |r| <= k < |s| ensures IsSpace(s[k]) {
      assert s[k] == t[k - i];
    }
    AllSpaceSlice(s, i + |r|, |s|);
    assert s[i + |r|..] == s[i + |r|..|s|];
  }

  /**
   * What `trim` keeps is a contiguous piece of the input, and all it cuts away,
   * before and after that piece, is white space.
   */
  lemma TrimCore(s: string)
    ensures exists i :: CoreAt(s, i, Trim(s))
  {
    var t := TrimStart(s);
    CoreOfCuts(s, t, TrimEnd(t));
    assert CoreAt(s, |s| - |t|, Trim(s));
  }
}
