/** String helpers with JavaScript's meaning: `String.prototype.trim`, `toLowerCase`, `startsWith`. */
module Text {

  /** The characters `trim` removes: ECMAScript WhiteSpace and LineTerminator code points. */
  predicate IsWhitespace(c: char) {
    var n := c as int;
    (0x09 <= n <= 0x0D) || n == 0x20 || n == 0xA0 || n == 0x1680 || (0x2000 <= n <= 0x200A)
    || n == 0x2028 || n == 0x2029 || n == 0x202F || n == 0x205F || n == 0x3000 || n == 0xFEFF
  }

  /** True when every character of `s` is whitespace (so also for the empty string). */
  predicate IsBlank(s: string) {
    forall i :: 0 <= i < |s| ==> IsWhitespace(s[i])
  }

  /** Where the text starts once the whitespace from `i` on is skipped. */
  function SkipLeading(s: string, i: nat): (lo: nat)
    requires i <= |s|
    ensures i <= lo <= |s|
    ensures forall k :: i <= k < lo ==> IsWhitespace(s[k])
    ensures lo == |s| || !IsWhitespace(s[lo])
    decreases |s| - i
  {
    if i < |s| && IsWhitespace(s[i]) then SkipLeading(s, i + 1) else i
  }

  /** Where the text ends once the whitespace before `j`, down to `lo`, is skipped. */
  function SkipTrailing(s: string, lo: nat, j: nat): (hi: nat)
    requires lo <= j <= |s|
    ensures lo <= hi <= j
    ensures forall k :: hi <= k < j ==> IsWhitespace(s[k])
    ensures hi == lo || !IsWhitespace(s[hi - 1])
  {
    if lo < j && IsWhitespace(s[j - 1]) then SkipTrailing(s, lo, j - 1) else j
  }

  /** `r` is what is left of `s` after removing the whitespace before `lo` and after `lo + |r|`. */
  ghost predicate TrimmedAt(s: string, lo: int, r: string) {
    && 0 <= lo <= lo + |r| <= |s|
    && r == s[lo..lo + |r|]
    && (forall i :: 0 <= i < lo ==> IsWhitespace(s[i]))
    && (forall i :: lo + |r| <= i < |s| ==> IsWhitespace(s[i]))
    && (r == [] || (!IsWhitespace(r[0]) && !IsWhitespace(r[|r| - 1])))
  }

  /** `String.prototype.trim`. */
  function Trim(s: string): (r: string)
    ensures exists lo :: TrimmedAt(s, lo, r)
    ensures r == [] <==> IsBlank(s)
  {
    var lo := SkipLeading(s, 0);
    var hi := SkipTrailing(s, lo, |s|);
    assert TrimmedAt(s, lo, s[lo..hi]) by {
      assert hi > lo ==> s[lo..hi][0] == s[lo] && s[lo..hi][hi - lo - 1] == s[hi - 1];
    }
    assert IsBlank(s) ==> lo == |s|;
    s[lo..hi]
  }

  /** The only trimming of `s`: trimming is determined by `s`. */
  lemma {:induction false} TrimmedAtUnique(s: string, lo: int, r: string, lo': int, r': string)
    requires TrimmedAt(s, lo, r) && TrimmedAt(s, lo', r')
    requires r != [] && r' != []
    ensures lo == lo' && r == r'
  {
    assert !IsWhitespace(s[lo]) && !IsWhitespace(s[lo']);
    assert !IsWhitespace(s[lo + |r| - 1]) && !IsWhitespace(s[lo' + |r'| - 1]);
  }

  /** Whitespace around a string that neither starts nor ends with whitespace is exactly what `trim` removes. */
  lemma TrimPadded(pre: string, s: string, post: string)
    requires IsBlank(pre) && IsBlank(post)
    requires s != [] && !IsWhitespace(s[0]) && !IsWhitespace(s[|s| - 1])
    ensures Trim(pre + s + post) == s
  {
    var t := pre + s + post;
    assert TrimmedAt(t, |pre|, s) by {
      assert t[|pre|..|pre| + |s|] == s;
      assert forall i :: |pre| + |s| <= i < |t| ==> t[i] == post[i - |pre| - |s|];
    }
    assert !IsWhitespace(t[|pre|]);
    var lo :| TrimmedAt(t, lo, Trim(t));
    TrimmedAtUnique(t, lo, Trim(t), |pre|, s);
  }

  predicate IsAsciiUpper(c: char) {
    'A' <= c <= 'Z'
  }

  function LowerChar(c: char): char {
    if IsAsciiUpper(c) then (c as int + 32) as char else c
  }

  /** `toLowerCase`, restricted to the ASCII letters. */
  function ToLower(s: string): (r: string)
    ensures |r| == |s|
    ensures forall i :: 0 <= i < |r| ==> !IsAsciiUpper(r[i])
    ensures forall i :: 0 <= i < |r| ==> r[i] == s[i] || (IsAsciiUpper(s[i]) && r[i] as int == s[i] as int + 32)
  {
    seq(|s|, i requires 0 <= i < |s| => LowerChar(s[i]))
  }

  /** Lower-casing twice is lower-casing once. */
  lemma ToLowerIdempotent(s: string)
    ensures ToLower(ToLower(s)) == ToLower(s)
  {
  }
}
