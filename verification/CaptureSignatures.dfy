/** Which committed signatures are kept. */
module CaptureSignatures {
  import opened CaptureAudits
  import opened JsText

  lemma {:induction false} PutKeeps(m: Signatures, s: Signature)
    ensures s in PutSignature(m, s)
    ensures |PutSignature(m, s)| == |m| + if HasKey(m, s.key) then 0 else 1
  {
    if m != [] && m[0].key != s.key && !(ListedBefore(s.key, m[0].key) && !HasKey(m, s.key)) {
      PutKeeps(m[1..], s);
    }
  }

  lemma {:induction false} HasKeyMeaning(m: Signatures, key: Str)
    ensures HasKey(m, key) <==> exists i :: 0 <= i < |m| && m[i].key == key
  {
    if m != [] {
      HasKeyMeaning(m[1..], key);
      assert forall i :: 1 <= i < |m| ==> m[i] == m[1..][i-1];
      if i :| 0 <= i < |m| && m[i].key == key { assert i == 0 || m[1..][i-1].key == key; }
    }
  }

  /** A committed signature is in the map afterwards, unless the map is full, the key is new, and the key is an
      array index that comes before every key in it: then it is the one that is dropped. */
  lemma CommitKeeps(m: Signatures, s: Signature)
    requires |m| <= MAX_SIGNATURES
    ensures |Committed(m, s)| <= MAX_SIGNATURES
    ensures HasKey(Committed(m, s), s.key)
       <==> !(|m| == MAX_SIGNATURES && !HasKey(m, s.key) && ListedBefore(s.key, m[0].key))
    ensures HasKey(Committed(m, s), s.key) ==> s in Committed(m, s)
  {
    var put := PutSignature(m, s);
    PutKeeps(m, s);
    HasKeyMeaning(Committed(m, s), s.key);
    HasKeyMeaning(m, s.key);
    if |put| > MAX_SIGNATURES {
      assert Committed(m, s) == put[1..];
      if ListedBefore(s.key, m[0].key) {
        assert put[1..] == m;
      } else {
        PutKeeps(m[1..], s);
        assert put[1..] == PutSignature(m[1..], s);
        var i :| 0 <= i < |put[1..]| && put[1..][i] == s;
      }
    } else {
      var i :| 0 <= i < |put| && put[i] == s;
    }
  }

  // ---- What becomes of the others ----

  /** The place of a new key: the first one whose key it is listed before, or the end. */
  ghost predicate IsPlace(m: Signatures, key: Str, p: nat) {
    p <= |m| && (p < |m| ==> ListedBefore(key, m[p].key)) && forall k :: 0 <= k < p ==> !ListedBefore(key, m[k].key)
  }

  lemma {:induction false} PutExisting(m: Signatures, s: Signature) returns (p: nat)
    requires HasKey(m, s.key)
    ensures p < |m| && m[p].key == s.key && (forall k :: 0 <= k < p ==> m[k].key != s.key) && PutSignature(m, s) == m[p := s]
  {
    if m[0].key == s.key {
      p := 0;
    } else {
      var q := PutExisting(m[1..], s);
      p := q + 1;
      assert PutSignature(m, s) == [m[0]] + m[1..][q := s];
      assert m[p] == m[1..][q];
      forall k | 0 <= k < p ensures m[k].key != s.key { if k > 0 { assert m[k] == m[1..][k-1]; } }
    }
  }

  lemma {:induction false} PutNew(m: Signatures, s: Signature) returns (p: nat)
    requires !HasKey(m, s.key)
    ensures IsPlace(m, s.key, p) && PutSignature(m, s) == m[..p] + [s] + m[p..]
  {
    if m == [] || ListedBefore(s.key, m[0].key) {
      p := 0;
    } else {
      var q := PutNew(m[1..], s);
      p := q + 1;
      assert PutSignature(m, s) == [m[0]] + (m[1..][..q] + [s] + m[1..][q..]);
      assert m[..p] == [m[0]] + m[1..][..q] && m[p..] == m[1..][q..];
      forall k | 0 <= k < p ensures !ListedBefore(s.key, m[k].key) { if k > 0 { assert m[k] == m[1..][k-1]; } }
    }
  }

  /** A commit changes one signature, or adds one; all others stay, with their values and in their order, except that the
      first one makes room when there are two hundred. */
  lemma CommitExactly(m: Signatures, s: Signature) returns (p: nat)
    requires |m| <= 200
    ensures HasKey(m, s.key) ==>
              p < |m| && m[p].key == s.key && (forall k :: 0 <= k < p ==> m[k].key != s.key) && Committed(m, s) == m[p := s]
    ensures !HasKey(m, s.key) ==>
              IsPlace(m, s.key, p) && Committed(m, s) ==
              (if |m| < 200 then m[..p] + [s] + m[p..] else if p == 0 then m else m[1..p] + [s] + m[p..])
  {
    if HasKey(m, s.key) { p := PutExisting(m, s); } else { p := PutNew(m, s); }
    var put := PutSignature(m, s);
    PutKeeps(m, s);
    if !HasKey(m, s.key) && |m| == 200 { assert put[1..] == if p == 0 then m else m[1..p] + [s] + m[p..]; }
  }

  /** The array indices come first, in ascending order; no other key is ever listed before one. */
  ghost predicate ListsInOrder(m: Signatures) { forall i, j :: 0 <= i < j < |m| ==> !ListedBefore(m[j].key, m[i].key) }

  lemma PlaceInOrder(m: Signatures, s: Signature, p: nat)
    requires ListsInOrder(m) && !HasKey(m, s.key) && IsPlace(m, s.key, p)
    ensures ListsInOrder(m[..p] + [s] + m[p..])
  {
    var n := m[..p] + [s] + m[p..];
    HasKeyMeaning(m, s.key);
    forall i, j | 0 <= i < j < |n| ensures !ListedBefore(n[j].key, n[i].key) {
      if j == p {
        assert n[i] == m[i];
      } else if i == p {
        assert n[j] == m[j-1];
        if p < j - 1 { assert !ListedBefore(m[j-1].key, m[p].key); }
      } else {
        assert n[i] == m[if i < p then i else i - 1] && n[j] == m[if j < p then j else j - 1];
      }
    }
  }

  /** Every map that commits have built is in that order. */
  lemma OrderKept(m: Signatures, s: Signature)
    requires ListsInOrder(m) && |m| <= 200
    ensures ListsInOrder(Committed(m, s))
  {
    var p := CommitExactly(m, s);
    if HasKey(m, s.key) {
      var n := m[p := s];
      forall i, j | 0 <= i < j < |n| ensures !ListedBefore(n[j].key, n[i].key) {
        assert n[i].key == m[i].key && n[j].key == m[j].key;
      }
    } else {
      PlaceInOrder(m, s, p);
      var n := m[..p] + [s] + m[p..];
      if |m| == 200 && p > 0 {
        assert Committed(m, s) == n[1..];
        forall i, j | 0 <= i < j < |n[1..]| ensures !ListedBefore(n[1..][j].key, n[1..][i].key) {
          assert n[1..][i] == n[i+1] && n[1..][j] == n[j+1];
        }
      }
    }
  }

  /** An array index is written without leading zeros and is below 2^32 - 1. */
  lemma IndexExactly(key: Str)
    ensures IsIndex(key) <==>
      && key != [] && (forall i :: 0 <= i < |key| ==> 0x30 <= key[i] <= 0x39)
      && (|key| > 1 ==> key[0] != 0x30) && ValueOf(key) < 4_294_967_295
  {
  }

  /** A key that is no array index is always kept. Every key that is built from an origin is such a key: it has a
      character that is no digit, as the colon after its scheme is one. */
  lemma PageKeysAreKept(m: Signatures, s: Signature)
    requires |m| <= MAX_SIGNATURES
    ensures !IsIndex(s.key) ==> s in Committed(m, s)
    ensures (exists i :: 0 <= i < |s.key| && !(0x30 <= s.key[i] <= 0x39)) ==> !IsIndex(s.key)
  {
    CommitKeeps(m, s);
  }

  // ---- A signature that is lost ----

  predicate HexDigit(u: CodeUnit) { 0x30 <= u <= 0x39 || 0x61 <= u <= 0x66 || 0x41 <= u <= 0x46 }

  /** What normalization demands: a key of at most 2048 units, and a length, a colon and 64 hexadecimal digits. */
  predicate Normalized(s: Signature) {
    && 0 < |s.key| <= 2048
    && |s.sig| >= 66 && s.sig[|s.sig|-65] == COLON
    && Digits(s.sig[..|s.sig|-65])
    && forall i :: |s.sig| - 64 <= i < |s.sig| ==> HexDigit(s.sig[i])
  }

  function SomeSig(): Str { [0x31, COLON] + seq(64, _ => 0x61) }

  /** A page of a site, one for each length of its path. */
  function PageKey(i: nat): Str { Ascii("https://example.org/") + seq(i, _ => 0x61) }

  lemma PageSignature(i: nat)
    requires i < MAX_SIGNATURES
    ensures Normalized(Signature(PageKey(i), SomeSig(), 1)) && |PageKey(i)| == 20 + i && PageKey(i)[0] == 0x68
  {
  }

  lemma SevenSignature()
    ensures Normalized(Signature([0x37], SomeSig(), 1)) && IsIndex([0x37])
  {
    assert [0x37][..0] == [];
    assert ValueOf([0x37]) == 10 * ValueOf([]) + 7;
  }

  /** Two hundred pages, into which the normalized key "7" is committed and lost. */
  lemma NumericKeyLost() returns (m: Signatures, s: Signature)
    ensures |m| == MAX_SIGNATURES && forall i, j :: 0 <= i < j < |m| ==> m[i].key != m[j].key
    ensures Normalized(s) && forall i :: 0 <= i < |m| ==> Normalized(m[i])
    ensures !HasKey(Committed(m, s), s.key)
  {
    m := seq(MAX_SIGNATURES, i requires 0 <= i < MAX_SIGNATURES => Signature(PageKey(i), SomeSig(), 1));
    s := Signature([0x37], SomeSig(), 1);
    forall i | 0 <= i < |m| ensures Normalized(m[i]) && |m[i].key| == 20 + i && m[i].key[0] == 0x68 { PageSignature(i); }
    SevenSignature();
    HasKeyMeaning(m, s.key);
    assert !Digits(m[0].key);
    CommitKeeps(m, s);
  }
}
