/** `String.prototype.trim` as the request handlers use it to validate titles. */
module Text {

  /** The code points ECMAScript's `trim` strips: the WhiteSpace class (tab, vertical tab,
      form feed, space, no-break space, byte-order mark and the Unicode space separators) and
      the LineTerminator class (line feed, carriage return, line and paragraph separators). */
  function WhitespaceCodes(): seq<int>
  {
    [ 0x09, 0x0A, 0x0B, 0x0C, 0x0D, 0x20, 0xA0, 0x1680,
      0x2000, 0x2001, 0x2002, 0x2003, 0x2004, 0x2005, 0x2006, 0x2007, 0x2008, 0x2009, 0x200A,
      0x2028, 0x2029, 0x202F, 0x205F, 0x3000, 0xFEFF ]
  }

  /** `n` is one of `codes`. */
  predicate Listed(n: int, codes: seq<int>)
  {
    codes != [] && (n == codes[0] || Listed(n, codes[1..]))
  }

  predicate IsWhitespace(c: char)
  {
    Listed(c as int, WhitespaceCodes())
  }

  /** Every character of `s` is whitespace (vacuously so for the empty string). */
  predicate IsBlank(s: string)
  {
    forall i :: 0 <= i < |s| ==> IsWhitespace(s[i])
  }

  /** The length of the whitespace run of `s` that starts at index `i`. */
  function RunFrom(s: string, i: nat): (k: nat)
    requires i <= |s|
    decreases |s| - i
    ensures i + k <= |s|
    ensures forall j :: i <= j < i + k ==> IsWhitespace(s[j])
    ensures i + k < |s| ==> !IsWhitespace(s[i + k])
  {
    if i < |s| && IsWhitespace(s[i]) then 1 + RunFrom(s, i + 1) else 0
  }

  /** The length of the whitespace run of `s` that ends just before index `hi`, not reaching
      below index `lo`. */
  function RunBefore(s: string, lo: nat, hi: nat): (k: nat)
    requires lo <= hi <= |s|
    ensures k <= hi - lo
    ensures forall j :: hi - k <= j < hi ==> IsWhitespace(s[j])
    ensures k < hi - lo ==> !IsWhitespace(s[hi - 1 - k])
  {
    if lo < hi && IsWhitespace(s[hi - 1]) then 1 + RunBefore(s, lo, hi - 1) else 0
  }

  /** `s.trim()`: `s` without its leading and trailing whitespace. The result is a contiguous
      slice of `s`, everything cut off is whitespace, the result neither starts nor ends with
      whitespace, and it is empty exactly when `s` is blank. */
  function Trim(s: string): (r: string)
    ensures |r| <= |s|
    ensures exists i :: 0 <= i <= |s| - |r| && r == s[i..i + |r|]
                        && IsBlank(s[..i]) && IsBlank(s[i + |r|..])
    ensures r != [] ==> !IsWhitespace(r[0]) && !IsWhitespace(r[|r| - 1])
    ensures r == [] <==> IsBlank(s)
  {
    var a := RunFrom(s, 0);
    var b := RunBefore(s, a, |s|);
    TrimSlice(s, a, b);
    s[a..|s| - b]
  }

  /** The facts behind `Trim`: `a` and `b` are the lengths of the leading run and of the
      trailing run that follows it. */
  lemma TrimSlice(s: string, a: nat, b: nat)
    requires a + b <= |s|
    requires forall j :: 0 <= j < a ==> IsWhitespace(s[j])
    requires a < |s| ==> !IsWhitespace(s[a])
    requires forall j :: |s| - b <= j < |s| ==> IsWhitespace(s[j])
    requires b < |s| - a ==> !IsWhitespace(s[|s| - 1 - b])
    ensures IsBlank(s[..a]) && IsBlank(s[|s| - b..])
    ensures a < |s| - b ==> !IsWhitespace(s[a]) && !IsWhitespace(s[|s| - b - 1])
    ensures a == |s| - b <==> IsBlank(s)
  {
    BlankPrefix(s, a);
    BlankSuffix(s, b);
  }

  /** A whitespace run at the start is a blank prefix. */
  lemma BlankPrefix(s: string, k: nat)
    requires k <= |s| && forall i :: 0 <= i < k ==> IsWhitespace(s[i])
    ensures IsBlank(s[..k])
  {
    assert forall i :: 0 <= i < k ==> s[..k][i] == s[i];
  }

  /** A whitespace run at the end is a blank suffix. */
  lemma BlankSuffix(s: string, k: nat)
    requires k <= |s| && forall i :: |s| - k <= i < |s| ==> IsWhitespace(s[i])
    ensures IsBlank(s[|s| - k..])
  {
    var tail := s[|s| - k..];
    assert forall i :: 0 <= i < k ==> tail[i] == s[|s| - k + i];
  }

  /** Trimming an already trimmed string changes nothing. */
  lemma TrimIdempotent(s: string)
    ensures Trim(Trim(s)) == Trim(s)
  {
    var r := Trim(s);
    assert RunFrom(r, 0) == 0;
    assert RunBefore(r, 0, |r|) == 0;
    assert r[0..|r|] == r;
  }
}
