/** Evidence identity: UTF-8 component bytes, the length-prefixed tuple encoding and its decoder. */
module EvidenceId {
  import opened JsText
  import opened Options

  type Byte = b: int | 0 <= b < 0x100

  type Bytes = seq<Byte>

  const MAX_LENGTH := 0x1_0000_0000

  // ---- The tuple encoding over byte strings ----

  /** writeUInt32BE. */
  function UInt32BE(n: nat): (r: Bytes)
    requires n < MAX_LENGTH
    ensures |r| == 4
  {
    [n / 0x100_0000, n / 0x1_0000 % 0x100, n / 0x100 % 0x100, n % 0x100]
  }

  function ReadUInt32BE(b: Bytes): (n: nat)
    requires |b| == 4
    ensures n < MAX_LENGTH
  {
    ((b[0] as int * 0x100 + b[1]) * 0x100 + b[2]) * 0x100 + b[3]
  }

  predicate Encodable(fields: seq<Bytes>) {
    forall i :: 0 <= i < |fields| ==> |fields[i]| < MAX_LENGTH
  }

  function Encode(fields: seq<Bytes>): Bytes
    requires Encodable(fields)
  {
    if fields == [] then [] else UInt32BE(|fields[0]|) + fields[0] + Encode(fields[1..])
  }

  /** The inverse: read a length, that many bytes, and so on to the end of the input. */
  function Decode(b: Bytes): Option<seq<Bytes>> {
    if b == [] then Some([])
    else if |b| < 4 then None
    else
      var n := ReadUInt32BE(b[..4]);
      if |b| < 4 + n then None
      else match Decode(b[4 + n..])
        case None => None
        case Some(rest) => Some([b[4..4 + n]] + rest)
  }

  lemma UInt32RoundTrip(n: nat)
    requires n < MAX_LENGTH
    ensures ReadUInt32BE(UInt32BE(n)) == n
  {
    var a, b := n / 0x100, n / 0x1_0000;
    assert n == a * 0x100 + n % 0x100;
    assert a / 0x100 == b && a == b * 0x100 + a % 0x100;
    assert b / 0x100 == n / 0x100_0000 && b == b / 0x100 * 0x100 + b % 0x100;
  }

  lemma UInt32Unread(b: Bytes)
    requires |b| == 4
    ensures UInt32BE(ReadUInt32BE(b)) == b
  {
    var x: int := b[0] as int * 0x100 + b[1];
    var y: int := x * 0x100 + b[2];
    var n: int := y * 0x100 + b[3];
    assert n / 0x100 == y && n % 0x100 == b[3];
    assert y / 0x100 == x && y % 0x100 == b[2];
    assert n / 0x1_0000 == x && n / 0x100_0000 == b[0];
  }

  /** The encoding is uniquely decodable, for tuples of any length. */
  lemma {:induction false} DecodeEncode(fields: seq<Bytes>)
    requires Encodable(fields)
    ensures Decode(Encode(fields)) == Some(fields)
  {
    if fields != [] {
      var b, n := Encode(fields), |fields[0]|;
      UInt32RoundTrip(n);
      assert b[..4] == UInt32BE(n);
      assert b[4..4 + n] == fields[0];
      assert b[4 + n..] == Encode(fields[1..]);
      DecodeEncode(fields[1..]);
      assert fields == [fields[0]] + fields[1..];
    }
  }

  lemma EncodeCons(b: Bytes, n: nat, rest: seq<Bytes>)
    requires 4 <= |b| && n == ReadUInt32BE(b[..4]) && 4 + n <= |b| && Encodable(rest)
    ensures Encodable([b[4..4 + n]] + rest)
    ensures Encode([b[4..4 + n]] + rest) == b[..4 + n] + Encode(rest)
  {
    var fields := [b[4..4 + n]] + rest;
    UInt32Unread(b[..4]);
    assert fields[1..] == rest;
    assert b[..4 + n] == b[..4] + b[4..4 + n];
  }

  lemma DecodeCons(b: Bytes)
    requires Decode(b).Some? && b != []
    ensures 4 <= |b| && 4 + ReadUInt32BE(b[..4]) <= |b|
    ensures var n := ReadUInt32BE(b[..4]);
            Decode(b[4 + n..]).Some? && Decode(b).value == [b[4..4 + n]] + Decode(b[4 + n..]).value
  {
  }

  /** And whatever the decoder accepts is the encoding of what it returns. */
  lemma {:induction false} EncodeDecode(b: Bytes)
    requires Decode(b).Some?
    ensures Encodable(Decode(b).value) && Encode(Decode(b).value) == b
    decreases |b|
  {
    if b != [] {
      DecodeCons(b);
      var n := ReadUInt32BE(b[..4]);
      EncodeDecode(b[4 + n..]);
      EncodeCons(b, n, Decode(b[4 + n..]).value);
      assert b[..4 + n] + b[4 + n..] == b;
    }
  }

  // ---- UTF-8 ----

  /** A Unicode scalar value. */
  type Scalar = c: int | 0 <= c < 0xD800 || 0xE000 <= c < 0x11_0000

  /** The scalar values of a string; the encoder reads a lone surrogate as U+FFFD. */
  function Scalars(s: Str): seq<Scalar> {
    if s == [] then []
    else if |s| >= 2 && IsHighSurrogate(s[0]) && IsLowSurrogate(s[1]) then
      [0x1_0000 + (s[0] as int - 0xD800) * 0x400 + (s[1] as int - 0xDC00)] + Scalars(s[2..])
    else [if IsHighSurrogate(s[0]) || IsLowSurrogate(s[0]) then 0xFFFD else s[0]] + Scalars(s[1..])
  }

  function Continuation(c: nat): Byte { 0x80 + c % 0x40 }

  function EncodeScalar(c: Scalar): Bytes {
    if c < 0x80 then [c]
    else if c < 0x800 then [0xC0 + c / 0x40, Continuation(c)]
    else if c < 0x1_0000 then [0xE0 + c / 0x40 / 0x40, Continuation(c / 0x40), Continuation(c)]
    else [0xF0 + c / 0x40 / 0x40 / 0x40, Continuation(c / 0x40 / 0x40), Continuation(c / 0x40), Continuation(c)]
  }

  function EncodeScalars(cs: seq<Scalar>): Bytes {
    if cs == [] then [] else EncodeScalar(cs[0]) + EncodeScalars(cs[1..])
  }

  /** Buffer.from(s, 'utf8'). */
  function Utf8(s: Str): Bytes { EncodeScalars(Scalars(s)) }

  lemma EncodeScalarUnique(c: Scalar, d: Scalar, r1: Bytes, r2: Bytes)
    requires EncodeScalar(c) + r1 == EncodeScalar(d) + r2
    ensures c == d && r1 == r2
  {
    var x, y := EncodeScalar(c) + r1, EncodeScalar(d) + r2;
    assert EncodeScalar(c)[0] == x[0] == y[0] == EncodeScalar(d)[0];
    assert |EncodeScalar(c)| == |EncodeScalar(d)|;
    assert EncodeScalar(c) == x[..|EncodeScalar(c)|] && EncodeScalar(d) == y[..|EncodeScalar(d)|];
    assert r1 == x[|EncodeScalar(c)|..] && r2 == y[|EncodeScalar(d)|..];
    SameScalar(c, d);
  }

  lemma Digits64(c: nat, d: nat)
    requires c / 0x40 == d / 0x40 && Continuation(c) == Continuation(d)
    ensures c == d
  {
  }

  lemma SameScalar(c: Scalar, d: Scalar)
    requires EncodeScalar(c) == EncodeScalar(d)
    ensures c == d
  {
    var x, y := EncodeScalar(c), EncodeScalar(d);
    assert x[0] == y[0];
    if c >= 0x80 {
      assert x[1] == y[1];
      if c >= 0x800 {
        assert x[2] == y[2];
        if c >= 0x1_0000 {
          assert x[3] == y[3];
          Digits64(c / 0x40 / 0x40, d / 0x40 / 0x40);
        }
        Digits64(c / 0x40, d / 0x40);
      }
      Digits64(c, d);
    }
  }

  lemma {:induction false} EncodeScalarsUnique(a: seq<Scalar>, b: seq<Scalar>)
    requires EncodeScalars(a) == EncodeScalars(b)
    ensures a == b
  {
    if a != [] && b != [] {
      EncodeScalarUnique(a[0], b[0], EncodeScalars(a[1..]), EncodeScalars(b[1..]));
      EncodeScalarsUnique(a[1..], b[1..]);
      assert a == [a[0]] + a[1..] && b == [b[0]] + b[1..];
    }
  }

  lemma {:induction false} Utf8Length(s: Str)
    ensures |Utf8(s)| <= 3 * |s|
  {
    if s != [] {
      Utf8Length(if |s| >= 2 && IsHighSurrogate(s[0]) && IsLowSurrogate(s[1]) then s[2..] else s[1..]);
    }
  }

  /** No lone surrogate: every surrogate is half of a pair. */
  predicate WellFormed(s: Str) {
    s == []
    || (|s| >= 2 && IsHighSurrogate(s[0]) && IsLowSurrogate(s[1]) && WellFormed(s[2..]))
    || (!IsHighSurrogate(s[0]) && !IsLowSurrogate(s[0]) && WellFormed(s[1..]))
  }

  lemma {:induction false} ScalarsUnique(s: Str, t: Str)
    requires WellFormed(s) && WellFormed(t) && Scalars(s) == Scalars(t)
    ensures s == t
  {
    if s != [] && t != [] {
      assert Scalars(s)[0] == Scalars(t)[0] && Scalars(s)[1..] == Scalars(t)[1..];
      if IsHighSurrogate(s[0]) {
        assert s[0] == t[0] && s[1] == t[1];
        ScalarsUnique(s[2..], t[2..]);
        assert s == s[..2] + s[2..] && t == t[..2] + t[2..];
      } else {
        ScalarsUnique(s[1..], t[1..]);
        assert s == [s[0]] + s[1..] && t == [t[0]] + t[1..];
      }
    }
  }

  // ---- The encoder and the evidence id ----

  function FieldBytes(fields: seq<Str>): seq<Bytes> { seq(|fields|, i requires 0 <= i < |fields| => Utf8(fields[i])) }

  function Concat(chunks: seq<Bytes>): Bytes {
    if chunks == [] then [] else Concat(chunks[..|chunks|-1]) + chunks[|chunks|-1]
  }

  lemma {:induction false} EncodeAppend(fields: seq<Bytes>, last: Bytes)
    requires Encodable(fields) && |last| < MAX_LENGTH
    ensures Encodable(fields + [last])
    ensures Encode(fields + [last]) == Encode(fields) + (UInt32BE(|last|) + last)
  {
    var all := fields + [last];
    assert Encodable(all);
    if fields != [] {
      EncodeAppend(fields[1..], last);
      assert all[1..] == fields[1..] + [last];
    } else {
      assert all[1..] == [];
    }
  }

  lemma ConcatPair(chunks: seq<Bytes>, a: Bytes, b: Bytes)
    ensures Concat(chunks + [a, b]) == Concat(chunks) + (a + b)
  {
    assert (chunks + [a, b])[..|chunks|+1] == chunks + [a];
    assert (chunks + [a])[..|chunks|] == chunks;
  }

  lemma FieldBytesAppend(fields: seq<Str>, i: nat)
    requires i < |fields|
    ensures FieldBytes(fields[..i+1]) == FieldBytes(fields[..i]) + [Utf8(fields[i])]
  {
  }

  /** encodeEvidenceIdTuple: chunks are collected in a list and joined at the end. A component of
      2^32 bytes or more makes writeUInt32BE throw, and there is no result. */
  method EncodeEvidenceIdTuple(fields: seq<Str>) returns (out: Option<Bytes>)
    ensures out.Some? <==> Encodable(FieldBytes(fields))
    ensures out.None? <==> exists i :: 0 <= i < |fields| && |Utf8(fields[i])| >= 4_294_967_296
    ensures out.Some? ==> Decode(out.value) == Some(FieldBytes(fields))
    ensures out.Some? ==> out.value == Encode(FieldBytes(fields))
  {
    var chunks: seq<Bytes>, i := [], 0;
    while i < |fields|
      invariant 0 <= i <= |fields|
      invariant Encodable(FieldBytes(fields[..i])) && Concat(chunks) == Encode(FieldBytes(fields[..i]))
    {
      var bytes := Utf8(fields[i]);
      if |bytes| >= MAX_LENGTH {
        assert FieldBytes(fields)[i] == bytes;
        assert |Utf8(fields[i])| >= 4_294_967_296;
        return None;
      }
      EncodeAppend(FieldBytes(fields[..i]), bytes);
      FieldBytesAppend(fields, i);
      ConcatPair(chunks, UInt32BE(|bytes|), bytes);
      chunks := chunks + [UInt32BE(|bytes|), bytes];
      i := i + 1;
    }
    assert fields[..i] == fields;
    DecodeEncode(FieldBytes(fields));
    forall k | 0 <= k < |fields| ensures |Utf8(fields[k])| < 4_294_967_296 { assert FieldBytes(fields)[k] == Utf8(fields[k]); }
    out := Some(Concat(chunks));
  }

  predicate ValidComponent(s: Str) {
    && 0 < |s| <= 10_000
    && forall i :: 0 <= i < |s| ==> !(s[i] <= 0x1F || s[i] == 0x7F)
  }

  /** The five components of an id: provider, class, subject, source item and claim digest. */
  type Identity = fields: seq<Str> | |fields| == 5 witness [[], [], [], [], []]

  ghost predicate Injective<A(!new), B>(f: A -> B) {
    forall x, y :: f(x) == f(y) ==> x == y
  }

  predicate AllValid(fields: seq<Str>) { forall i :: 0 <= i < |fields| ==> ValidComponent(fields[i]) }

  /** buildEvidenceId: an invalid component is EVIDENCE_INPUT_INVALID, otherwise the hash of the tuple. */
  function BuildEvidenceId(hash: Bytes -> Str, fields: Identity): Option<Str> {
    if AllValid(fields) && Encodable(FieldBytes(fields)) then Some(hash(Encode(FieldBytes(fields)))) else None
  }

  lemma ValidEncodable(fields: seq<Str>)
    requires AllValid(fields)
    ensures Encodable(FieldBytes(fields))
  {
    forall i | 0 <= i < |fields| ensures |FieldBytes(fields)[i]| < MAX_LENGTH { Utf8Length(fields[i]); }
  }

  /** An id is refused exactly for a component that is empty, longer than ten thousand units, or has a control character. */
  lemma RefusedExactly(hash: Bytes -> Str, fields: Identity)
    ensures BuildEvidenceId(hash, fields).None? <==>
      exists i :: 0 <= i < 5 &&
        (|fields[i]| == 0 || |fields[i]| > 10_000 || exists k :: 0 <= k < |fields[i]| && (fields[i][k] < 0x20 || fields[i][k] == 0x7F))
  {
    if AllValid(fields) {
      ValidEncodable(fields);
      assert forall i :: 0 <= i < 5 ==> ValidComponent(fields[i]);
    }
  }

  /** Under a collision-free hash two ids coincide exactly when all five components have the same
      scalar values; on well-formed strings, exactly when the components are equal. */
  lemma EvidenceIdIdentifies(hash: Bytes -> Str, a: Identity, b: Identity)
    requires Injective(hash) && AllValid(a) && AllValid(b)
    ensures BuildEvidenceId(hash, a).Some? && BuildEvidenceId(hash, b).Some?
    ensures BuildEvidenceId(hash, a) == BuildEvidenceId(hash, b)
       <==> forall i :: 0 <= i < 5 ==> Scalars(a[i]) == Scalars(b[i])
    ensures (forall i :: 0 <= i < 5 ==> WellFormed(a[i]) && WellFormed(b[i])) ==>
              (BuildEvidenceId(hash, a) == BuildEvidenceId(hash, b) <==> a == b)
  {
    ValidEncodable(a);
    ValidEncodable(b);
    var x, y := FieldBytes(a), FieldBytes(b);
    if BuildEvidenceId(hash, a) == BuildEvidenceId(hash, b) {
      DecodeEncode(x);
      DecodeEncode(y);
      forall i | 0 <= i < 5 ensures Scalars(a[i]) == Scalars(b[i]) {
        assert x[i] == y[i];
        EncodeScalarsUnique(Scalars(a[i]), Scalars(b[i]));
      }
    }
    if forall i :: 0 <= i < 5 ==> Scalars(a[i]) == Scalars(b[i]) {
      assert x == y;
      if forall i :: 0 <= i < 5 ==> WellFormed(a[i]) && WellFormed(b[i]) {
        forall i | 0 <= i < 5 ensures a[i] == b[i] { ScalarsUnique(a[i], b[i]); }
        assert a == b;
      }
    }
  }

  /** Distinct subjects need not give distinct ids: two lone surrogates are replaced alike, whatever the provider,
      the class, the source item and the claim. */
  lemma LoneSurrogatesShareAnId(hash: Bytes -> Str, provider: Str, evidenceClass: Str, item: Str, digest: Str)
    requires ValidComponent(provider) && ValidComponent(evidenceClass) && ValidComponent(item) && ValidComponent(digest)
    ensures var a, b := [provider, evidenceClass, [0x61, 0xD800], item, digest], [provider, evidenceClass, [0x61, 0xD801], item, digest];
            a != b && BuildEvidenceId(hash, a).Some? && BuildEvidenceId(hash, a) == BuildEvidenceId(hash, b)
  {
    var x, y: Str := [0x61, 0xD800], [0x61, 0xD801];
    var a: Identity, b: Identity := [provider, evidenceClass, x, item, digest], [provider, evidenceClass, y, item, digest];
    assert x[1] != y[1] && a[2] != b[2];
    SurrogateScalars(0xD800);
    SurrogateScalars(0xD801);
    assert FieldBytes(a) == FieldBytes(b);
    ValidEncodable(a);
  }

  lemma SurrogateScalars(u: CodeUnit)
    requires IsHighSurrogate(u)
    ensures Scalars([0x61, u]) == [0x61, 0xFFFD]
  {
    assert [0x61, u][1..] == [u] && [u][1..] == [];
    assert Scalars([u]) == [0xFFFD];
  }
}
