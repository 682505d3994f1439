/** Strings as JavaScript sees them: sequences of UTF-16 code units, ordered by `<`. */
module JsText {
  type CodeUnit = u: int | 0 <= u < 0x10000

  type Str = seq<CodeUnit>

  const QUOTE: CodeUnit := 0x22
  const BACKSLASH: CodeUnit := 0x5C
  const COMMA: CodeUnit := 0x2C
  const COLON: CodeUnit := 0x3A
  const LBRACKET: CodeUnit := 0x5B
  const RBRACKET: CodeUnit := 0x5D
  const LBRACE: CodeUnit := 0x7B
  const RBRACE: CodeUnit := 0x7D

  /** The code units of an ASCII literal. */
  function Ascii(s: string): (t: Str)
    ensures |t| == |s|
  {
    seq(|s|, i requires 0 <= i < |s| => if s[i] as int < 0x10000 then s[i] as int else 0)
  }

  predicate IsHighSurrogate(u: CodeUnit) { 0xD800 <= u < 0xDC00 }

  predicate IsLowSurrogate(u: CodeUnit) { 0xDC00 <= u < 0xE000 }

  /** White space and line terminators. */
  predicate IsBlank(u: CodeUnit) {
    || 0x09 <= u <= 0x0D || u == 0x20 || u == 0xA0 || u == 0x1680 || 0x2000 <= u <= 0x200A
    || u == 0x2028 || u == 0x2029 || u == 0x202F || u == 0x205F || u == 0x3000 || u == 0xFEFF
  }

  function TrimStart(s: Str): Str { if s != [] && IsBlank(s[0]) then TrimStart(s[1..]) else s }

  function TrimEnd(s: Str): Str { if s != [] && IsBlank(s[|s|-1]) then TrimEnd(s[..|s|-1]) else s }

  /** `trim()`. */
  function Trim(s: Str): Str { TrimEnd(TrimStart(s)) }

  // ---- What trimming leaves ----

  lemma {:induction false} TrimStartMeaning(s: Str) returns (i: nat)
    ensures i <= |s| && TrimStart(s) == s[i..] && (i < |s| ==> !IsBlank(s[i])) && forall k :: 0 <= k < i ==> IsBlank(s[k])
  {
    if s != [] && IsBlank(s[0]) {
      var j := TrimStartMeaning(s[1..]);
      i := j + 1;
      assert s[1..][j..] == s[i..];
      forall k | 0 <= k < i ensures IsBlank(s[k]) { if k > 0 { assert s[k] == s[1..][k-1]; } }
    } else {
      i := 0;
    }
  }

  lemma {:induction false} TrimEndMeaning(s: Str) returns (j: nat)
    ensures j <= |s| && TrimEnd(s) == s[..j] && (j > 0 ==> !IsBlank(s[j-1])) && forall k :: j <= k < |s| ==> IsBlank(s[k])
  {
    if s != [] && IsBlank(s[|s|-1]) {
      j := TrimEndMeaning(s[..|s|-1]);
      assert s[..|s|-1][..j] == s[..j];
    } else {
      j := |s|;
    }
  }

  /** Trimming takes the blanks off both ends, and no more. */
  lemma TrimMeaning(s: Str) returns (i: nat, j: nat)
    ensures i <= j <= |s| && Trim(s) == s[i..j] && (i < j ==> !IsBlank(s[i]) && !IsBlank(s[j-1]))
    ensures forall k :: 0 <= k < |s| && !(i <= k < j) ==> IsBlank(s[k])
  {
    i := TrimStartMeaning(s);
    var t := s[i..];
    var n := TrimEndMeaning(t);
    j := i + n;
    assert t[..n] == s[i..j];
    if i < j { assert t[n-1] == s[j-1] && n > 0; }
    forall k | 0 <= k < |s| && !(i <= k < j) ensures IsBlank(s[k]) { if k >= j { assert s[k] == t[k - i]; } }
  }

  /** Tab, line feed, line tabulation, form feed, carriage return, the spaces of Unicode, the two separators and the byte
      order mark. */
  lemma BlankExactly(u: CodeUnit)
    ensures IsBlank(u) <==> u in {0x0009, 0x000A, 0x000B, 0x000C, 0x000D, 0x0020, 0x00A0, 0x1680, 0x2000, 0x2001, 0x2002, 0x2003,
      0x2004, 0x2005, 0x2006, 0x2007, 0x2008, 0x2009, 0x200A, 0x2028, 0x2029, 0x202F, 0x205F, 0x3000, 0xFEFF}
  {
  }

  /** The order of the `<` operator and of the default `sort()`: lexicographic by code unit. */
  predicate Less(a: Str, b: Str) {
    if b == [] then false
    else if a == [] then true
    else if a[0] != b[0] then a[0] < b[0]
    else Less(a[1..], b[1..])
  }

  lemma {:induction false} LessTotal(a: Str, b: Str)
    ensures Less(a, b) || Less(b, a) || a == b
    ensures !(Less(a, b) && Less(b, a))
  {
    if a != [] && b != [] && a[0] == b[0] {
      LessTotal(a[1..], b[1..]);
      assert a == [a[0]] + a[1..] && b == [b[0]] + b[1..];
    }
  }

  lemma {:induction false} LessTransitive(a: Str, b: Str, c: Str)
    requires Less(a, b) && Less(b, c)
    ensures Less(a, c)
  {
    if a != [] && a[0] == b[0] && b[0] == c[0] {
      LessTransitive(a[1..], b[1..], c[1..]);
    }
  }
}
