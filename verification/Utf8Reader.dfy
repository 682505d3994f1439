/** A reader for UTF-8 (RFC 3629 section 3), written from the table of byte ranges, and what it reads from the bytes of an
    evidence id. */
module Utf8Reader {
  import opened EvidenceId
  import opened JsText
  import opened Options

  predicate Follows(b: Byte) { 0x80 <= b <= 0xBF }

  /** The first scalar value and the number of its bytes: none for a byte that cannot start one, for missing bytes, for an
      overlong form, for a surrogate and for a value above U+10FFFF. */
  function ReadScalar(b: Bytes): Option<(Scalar, nat)>
    ensures ReadScalar(b).Some? ==> 0 < ReadScalar(b).value.1 <= |b|
  {
    if b == [] then None
    else if b[0] <= 0x7F then Some((b[0], 1))
    else if 0xC2 <= b[0] <= 0xDF && |b| >= 2 && Follows(b[1]) then Some(((b[0] as int - 0xC0) * 64 + (b[1] as int - 0x80), 2))
    else if 0xE0 <= b[0] <= 0xEF && |b| >= 3 && Follows(b[1]) && Follows(b[2]) then
      var c := (b[0] as int - 0xE0) * 4096 + (b[1] as int - 0x80) * 64 + (b[2] as int - 0x80);
      if c < 0x800 || 0xD800 <= c <= 0xDFFF then None else Some((c, 3))
    else if 0xF0 <= b[0] <= 0xF4 && |b| >= 4 && Follows(b[1]) && Follows(b[2]) && Follows(b[3]) then
      var c := (b[0] as int - 0xF0) * 262144 + (b[1] as int - 0x80) * 4096 + (b[2] as int - 0x80) * 64 + (b[3] as int - 0x80);
      if c < 0x1_0000 || c > 0x10_FFFF then None else Some((c, 4))
    else None
  }

  function ReadUtf8(b: Bytes): Option<seq<Scalar>> {
    if b == [] then Some([])
    else
      var first := ReadScalar(b);
      if first.None? then None
      else
        var more := ReadUtf8(b[first.value.1..]);
        if more.None? then None else Some([first.value.0] + more.value)
  }

  /** The UTF-16 code units of scalar values (RFC 2781 section 2.1). */
  function Units(cs: seq<Scalar>): Str {
    if cs == [] then []
    else if cs[0] < 0x1_0000 then [cs[0]] + Units(cs[1..])
    else [0xD800 + (cs[0] - 0x1_0000) / 0x400, 0xDC00 + (cs[0] - 0x1_0000) % 0x400] + Units(cs[1..])
  }

  lemma ScalarRead(c: Scalar, rest: Bytes)
    ensures ReadScalar(EncodeScalar(c) + rest) == Some((c, |EncodeScalar(c)|))
  {
    var e := EncodeScalar(c);
    var b := e + rest;
    assert forall i :: 0 <= i < |e| ==> b[i] == e[i];
    assert c / 0x40 * 0x40 + c % 0x40 == c;
    if c >= 0x800 { assert c / 0x40 / 0x40 * 0x40 + c / 0x40 % 0x40 == c / 0x40; }
    if c >= 0x1_0000 { assert c / 0x40 / 0x40 / 0x40 * 0x40 + c / 0x40 / 0x40 % 0x40 == c / 0x40 / 0x40; }
  }

  lemma {:induction false} ScalarsRead(cs: seq<Scalar>)
    ensures ReadUtf8(EncodeScalars(cs)) == Some(cs)
  {
    if cs != [] {
      var e, rest := EncodeScalar(cs[0]), EncodeScalars(cs[1..]);
      ScalarRead(cs[0], rest);
      assert (e + rest)[|e|..] == rest;
      ScalarsRead(cs[1..]);
      assert cs == [cs[0]] + cs[1..];
    }
  }

  /** A surrogate that is no half of a pair. */
  predicate Lone(s: Str, i: nat)
    requires i < |s|
  {
    || (0xD800 <= s[i] <= 0xDBFF && !(i + 1 < |s| && 0xDC00 <= s[i+1] <= 0xDFFF))
    || (0xDC00 <= s[i] <= 0xDFFF && !(i > 0 && 0xD800 <= s[i-1] <= 0xDBFF))
  }

  lemma LoneLater(s: Str, k: nat, i: nat)
    requires k in {1, 2} && k <= i < |s|
    requires if k == 1 then !(0xD800 <= s[0] <= 0xDBFF && 0xDC00 <= s[1] <= 0xDFFF) else 0xDC00 <= s[1] <= 0xDFFF
    ensures Lone(s, i) <==> Lone(s[k..], i - k)
  {
  }

  /** The code units come back, each lone surrogate as U+FFFD. */
  lemma {:induction false} UnitsBack(s: Str)
    ensures var t := Units(Scalars(s)); |t| == |s| && forall i :: 0 <= i < |s| ==> t[i] == if Lone(s, i) then 0xFFFD else s[i]
  {
    if s != [] {
      var k := if |s| >= 2 && IsHighSurrogate(s[0]) && IsLowSurrogate(s[1]) then 2 else 1;
      UnitsBack(s[k..]);
      assert Scalars(s) == [Scalars(s)[0]] + Scalars(s[k..]);
      var t := Units(Scalars(s));
      assert t[k..] == Units(Scalars(s[k..]));
      forall i | 0 <= i < |s| ensures t[i] == if Lone(s, i) then 0xFFFD else s[i] {
        if i >= k {
          LoneLater(s, k, i);
          assert t[i] == t[k..][i - k];
        }
      }
    }
  }

  /** The bytes of a string are UTF-8: a reader gives its code units back, with U+FFFD for each lone surrogate; the string
      itself if it has none. */
  lemma Utf8Read(s: Str)
    ensures var cs := ReadUtf8(Utf8(s));
      && cs.Some? && |Units(cs.value)| == |s|
      && (forall i :: 0 <= i < |s| ==> Units(cs.value)[i] == if Lone(s, i) then 0xFFFD else s[i])
      && ((forall i :: 0 <= i < |s| ==> !Lone(s, i)) ==> Units(cs.value) == s)
  {
    ScalarsRead(Scalars(s));
    UnitsBack(s);
  }

  /** The components of an evidence id can be read back from the bytes that are hashed. */
  lemma TupleRead(fields: seq<Str>)
    requires Encodable(FieldBytes(fields))
    ensures var read := Decode(Encode(FieldBytes(fields)));
      && read.Some? && |read.value| == |fields|
      && forall i :: 0 <= i < |fields| ==> ReadUtf8(read.value[i]) == Some(Scalars(fields[i]))
  {
    DecodeEncode(FieldBytes(fields));
    forall i | 0 <= i < |fields| ensures ReadUtf8(FieldBytes(fields)[i]) == Some(Scalars(fields[i])) { ScalarsRead(Scalars(fields[i])); }
  }
}
