/** The approval binding: fourteen fields of a plan folded into one canonical text and hashed. */
module ApprovalBinding {
  import opened CanonicalJson
  import opened JsText
  import opened Options

  /** What an approval must not silently change, except the policy version, which is passed beside it. */
  datatype Terms = Terms(
    planId: Str, decisionId: Str, capabilityId: Str, capabilityVersion: Str, adapterId: Str,
    inputs: Json, risk: Json, coverage: Json, timeout: Number,
    verification: Option<Json>, rollback: Option<Json>, createdAt: int, expiresAt: Option<int>)

  /** SHA-256 of a text, and the ISO 8601 text of a time. */
  datatype Texts = Texts(hash: Str -> Str, iso: int -> Str)

  ghost predicate CollisionFree(texts: Texts) {
    && (forall x, y :: texts.hash(x) == texts.hash(y) ==> x == y)
    && (forall x, y :: texts.iso(x) == texts.iso(y) ==> x == y)
  }

  // ---- The number domain shared with the native side ----

  const MAX_SAFE_INTEGER := 9007199254740991
  const MAX_FRACTION_DIGITS := 6
  const MAX_NUMBER_CHARS := 24

  const POINT: CodeUnit := 0x2E

  /** The decimal value of the digits before the point. */
  function IntegerPart(s: Str, value: nat): nat {
    if s == [] || s[0] == POINT then value
    else if 0x30 <= s[0] <= 0x39 then IntegerPart(s[1..], 10 * value + (s[0] - 0x30))
    else IntegerPart(s[1..], value)
  }

  /** The digits after the point. */
  function FractionDigits(s: Str): nat {
    if s == [] then 0 else if s[0] == POINT then |s| - 1 else FractionDigits(s[1..])
  }

  predicate NumberInDomain(n: Number) {
    match n
    case NegativeZero => true
    case Finite(token) =>
      && 0x65 !in token
      && IntegerPart(token, 0) <= MAX_SAFE_INTEGER
      && |token| <= MAX_NUMBER_CHARS
      && FractionDigits(token) <= MAX_FRACTION_DIGITS
  }

  predicate AllDigits(s: Str) { forall i :: 0 <= i < |s| ==> 0x30 <= s[i] <= 0x39 }

  /** The number that the digits write, after those of `v`. */
  function Decimal(v: nat, s: Str): nat
    requires AllDigits(s)
  {
    if s == [] then v else 10 * Decimal(v, s[..|s|-1]) + (s[|s|-1] - 0x30)
  }

  lemma {:induction false} DecimalFirst(v: nat, s: Str)
    requires s != [] && AllDigits(s)
    ensures Decimal(v, s) == Decimal(10 * v + (s[0] - 0x30), s[1..])
  {
    if |s| == 1 {
      assert s[..0] == [] && s[1..] == [];
    } else {
      DecimalFirst(v, s[..|s|-1]);
      assert s[..|s|-1][1..] == s[1..][..|s|-2];
    }
  }

  lemma {:induction false} PartsOf(whole: Str, rest: Str, v: nat)
    requires AllDigits(whole) && (rest == [] || rest[0] == POINT)
    ensures IntegerPart(whole + rest, v) == Decimal(v, whole)
    ensures FractionDigits(whole + rest) == if rest == [] then 0 else |rest| - 1
    decreases |whole|
  {
    if whole == [] {
      assert whole + rest == rest;
    } else {
      assert (whole + rest)[1..] == whole[1..] + rest;
      DecimalFirst(v, whole);
      PartsOf(whole[1..], rest, 10 * v + (whole[0] - 0x30));
    }
  }

  /** A number printed with these digits may be bound exactly when it is at most 2^53 - 1 in size, with six fractional
      digits or fewer, in 24 characters or fewer; one printed with an exponent never. */
  lemma DomainExactly(negative: bool, whole: Str, fraction: Str)
    requires AllDigits(whole) && AllDigits(fraction) && whole != []
    ensures var sign: Str, tail: Str := if negative then [0x2D] else [], if fraction == [] then [] else [0x2E] + fraction;
      var token := sign + whole + tail;
      IsNumberToken(token) &&
      (NumberInDomain(Finite(token)) <==> Decimal(0, whole) <= 9_007_199_254_740_991 && |fraction| <= 6 && |token| <= 24)
  {
    var sign: Str, tail: Str := if negative then [0x2D] else [], if fraction == [] then [] else [0x2E] + fraction;
    var token := sign + whole + tail;
    PartsOf(whole, tail, 0);
    if negative {
      assert token[1..] == whole + tail;
    } else {
      assert token == whole + tail;
    }
    forall i | 0 <= i < |token| ensures NumberChar(token[i]) && token[i] != 0x65 {
      if |sign| <= i < |sign| + |whole| { assert token[i] == whole[i - |sign|]; }
      if |sign| + |whole| < i { assert token[i] == fraction[i - |sign| - |whole| - 1]; }
    }
  }

  lemma ExponentOutside(token: Token)
    requires 0x65 in token
    ensures !NumberInDomain(Finite(token)) && NumberInDomain(NegativeZero)
  {
  }

  /** The walk over every number of a value. */
  predicate InDomain(v: Json) {
    match v
    case Num(n) => NumberInDomain(n)
    case Arr(items) => forall i :: 0 <= i < |items| ==> InDomain(items[i])
    case Obj(fields) => forall i :: 0 <= i < |fields| ==> InDomain(fields[i].value)
    case _ => true
  }

  ghost predicate Occurs(n: Number, v: Json) {
    match v
    case Num(m) => m == n
    case Arr(items) => exists i :: 0 <= i < |items| && Occurs(n, items[i])
    case Obj(fields) => exists i :: 0 <= i < |fields| && Occurs(n, fields[i].value)
    case _ => false
  }

  /** The walk misses no number, at any depth, and refuses for nothing else. */
  lemma {:induction false} DomainOfAll(v: Json)
    ensures InDomain(v) <==> forall n :: Occurs(n, v) ==> NumberInDomain(n)
    decreases v
  {
    match v
    case Num(m) => assert Occurs(m, v);
    case Arr(items) =>
      forall i | 0 <= i < |items| ensures InDomain(items[i]) <==> forall n :: Occurs(n, items[i]) ==> NumberInDomain(n) {
        DomainOfAll(items[i]);
      }
      forall n, i | 0 <= i < |items| && Occurs(n, items[i]) ensures Occurs(n, v) { }
    case Obj(fields) =>
      forall i | 0 <= i < |fields| ensures InDomain(fields[i].value) <==> forall n :: Occurs(n, fields[i].value) ==> NumberInDomain(n) {
        DomainOfAll(fields[i].value);
      }
      forall n, i | 0 <= i < |fields| && Occurs(n, fields[i].value) ensures Occurs(n, v) { }
    case _ =>
  }

  // ---- The payload ----

  function Key(i: nat): string
    requires i < 14
  {
    match i
    case 0 => "plan_id"
    case 1 => "decision_id"
    case 2 => "capability_id"
    case 3 => "capability_version"
    case 4 => "adapter_id"
    case 5 => "normalized_inputs_digest"
    case 6 => "risk_snapshot_digest"
    case 7 => "evidence_coverage_digest"
    case 8 => "timeout_ms"
    case 9 => "verification_plan_digest"
    case 10 => "rollback_plan_digest"
    case 11 => "created_at"
    case 12 => "expires_at"
    case _ => "policy_version"
  }

  function DigestOf(texts: Texts, v: Json): Json { Text(texts.hash(Print(v))) }

  function OptionalDigest(texts: Texts, v: Option<Json>): Json { if v.None? then Null else DigestOf(texts, v.value) }

  function TimeValue(texts: Texts, time: Option<int>): Json { if time.None? then Null else Text(texts.iso(time.value)) }

  /** The value under the i-th key. */
  function Value(texts: Texts, t: Terms, policyVersion: Str, i: nat): Json
    requires i < 14
  {
    match i
    case 0 => Text(t.planId)
    case 1 => Text(t.decisionId)
    case 2 => Text(t.capabilityId)
    case 3 => Text(t.capabilityVersion)
    case 4 => Text(t.adapterId)
    case 5 => DigestOf(texts, t.inputs)
    case 6 => DigestOf(texts, t.risk)
    case 7 => DigestOf(texts, t.coverage)
    case 8 => Num(t.timeout)
    case 9 => OptionalDigest(texts, t.verification)
    case 10 => OptionalDigest(texts, t.rollback)
    case 11 => TimeValue(texts, Some(t.createdAt))
    case 12 => TimeValue(texts, t.expiresAt)
    case _ => Text(policyVersion)
  }

  function Payload(texts: Texts, t: Terms, policyVersion: Str): Json {
    Obj(seq(14, i requires 0 <= i < 14 => Field(Ascii(Key(i)), Value(texts, t, policyVersion, i))))
  }

  /** The fourteen fields by name. */
  lemma PayloadFields(texts: Texts, t: Terms, policyVersion: Str)
    ensures Payload(texts, t, policyVersion) == Obj([
      Field(Ascii("plan_id"), Text(t.planId)),
      Field(Ascii("decision_id"), Text(t.decisionId)),
      Field(Ascii("capability_id"), Text(t.capabilityId)),
      Field(Ascii("capability_version"), Text(t.capabilityVersion)),
      Field(Ascii("adapter_id"), Text(t.adapterId)),
      Field(Ascii("normalized_inputs_digest"), Text(texts.hash(Print(t.inputs)))),
      Field(Ascii("risk_snapshot_digest"), Text(texts.hash(Print(t.risk)))),
      Field(Ascii("evidence_coverage_digest"), Text(texts.hash(Print(t.coverage)))),
      Field(Ascii("timeout_ms"), Num(t.timeout)),
      Field(Ascii("verification_plan_digest"), if t.verification.None? then Null else Text(texts.hash(Print(t.verification.value)))),
      Field(Ascii("rollback_plan_digest"), if t.rollback.None? then Null else Text(texts.hash(Print(t.rollback.value)))),
      Field(Ascii("created_at"), Text(texts.iso(t.createdAt))),
      Field(Ascii("expires_at"), if t.expiresAt.None? then Null else Text(texts.iso(t.expiresAt.value))),
      Field(Ascii("policy_version"), Text(policyVersion))])
  {
  }

  predicate BindingInDomain(t: Terms) {
    && InDomain(t.inputs) && InDomain(t.risk) && InDomain(t.coverage)
    && (t.verification.Some? ==> InDomain(t.verification.value))
    && (t.rollback.Some? ==> InDomain(t.rollback.value))
  }

  /** None when a number is outside the domain: APPROVAL_INPUT_INVALID. */
  function BindingDigest(texts: Texts, t: Terms, policyVersion: Str): Option<Str> {
    if BindingInDomain(t) then Some(texts.hash(Print(Payload(texts, t, policyVersion)))) else None
  }

  // ---- What the digest identifies ----

  ghost predicate TermsWellKeyed(t: Terms) {
    && WellKeyed(t.inputs) && WellKeyed(t.risk) && WellKeyed(t.coverage)
    && (t.verification.Some? ==> WellKeyed(t.verification.value))
    && (t.rollback.Some? ==> WellKeyed(t.rollback.value))
  }

  ghost predicate SameOptional(a: Option<Json>, b: Option<Json>) {
    a.Some? == b.Some? && (a.Some? ==> Same(a.value, b.value))
  }

  /** Equality of the bound fields, up to the order of object keys. */
  ghost predicate SameTerms(a: Terms, b: Terms) {
    && a.planId == b.planId && a.decisionId == b.decisionId
    && a.capabilityId == b.capabilityId && a.capabilityVersion == b.capabilityVersion && a.adapterId == b.adapterId
    && Same(a.inputs, b.inputs) && Same(a.risk, b.risk) && Same(a.coverage, b.coverage)
    && SameNumber(a.timeout, b.timeout)
    && SameOptional(a.verification, b.verification) && SameOptional(a.rollback, b.rollback)
    && a.createdAt == b.createdAt && a.expiresAt == b.expiresAt
  }

  /** The length and the second letter of a key tell the fourteen keys apart. */
  function Mark(i: nat): (int, int)
    requires i < 14
  {
    match i
    case 0 => (7, 0x6C)
    case 1 => (11, 0x65)
    case 2 => (13, 0x61)
    case 3 => (18, 0x61)
    case 4 => (10, 0x64)
    case 5 => (24, 0x6F)
    case 6 => (20, 0x69)
    case 7 => (24, 0x76)
    case 8 => (10, 0x69)
    case 9 => (24, 0x65)
    case 10 => (20, 0x6F)
    case 11 => (10, 0x72)
    case 12 => (10, 0x78)
    case _ => (14, 0x6F)
  }

  lemma KeyMark(i: nat)
    requires i < 14
    ensures (|Key(i)|, Key(i)[1] as int) == Mark(i)
  {
  }

  lemma MarksDiffer(i: nat, j: nat)
    requires i < j < 14
    ensures Mark(i) != Mark(j)
  {
  }

  lemma AsciiDiffer(s: string, t: string)
    requires |s| > 1 && |t| > 1 && s[1] as int < 128 && t[1] as int < 128
    requires (|s|, s[1] as int) != (|t|, t[1] as int)
    ensures Ascii(s) != Ascii(t)
  {
    if |s| == |t| { assert Ascii(s)[1] == s[1] as int && Ascii(t)[1] == t[1] as int; }
  }

  lemma KeysDiffer(i: nat, j: nat)
    requires i < 14 && j < 14 && i != j
    ensures Ascii(Key(i)) != Ascii(Key(j))
  {
    KeyMark(i);
    KeyMark(j);
    if i < j { MarksDiffer(i, j); } else { MarksDiffer(j, i); }
    AsciiDiffer(Key(i), Key(j));
  }

  lemma ValueKeyed(texts: Texts, t: Terms, policyVersion: Str, i: nat)
    requires i < 14
    ensures WellKeyed(Value(texts, t, policyVersion, i))
  {
  }

  lemma PayloadKeyed(texts: Texts, t: Terms, p: Str)
    ensures WellKeyed(Payload(texts, t, p))
  {
    var f := Payload(texts, t, p).fields;
    forall i, j | 0 <= i < j < 14 ensures f[i].key != f[j].key { KeysDiffer(i, j); }
    forall i | 0 <= i < 14 ensures WellKeyed(f[i].value) { ValueKeyed(texts, t, p, i); }
  }

  /** Two objects with the same distinct keys in the same places are the same exactly when they agree in place. */
  lemma SameInPlace(f: seq<Field>, g: seq<Field>)
    requires |f| == |g| && DistinctKeys(f) && forall i :: 0 <= i < |f| ==> f[i].key == g[i].key
    ensures Same(Obj(f), Obj(g)) <==> forall i :: 0 <= i < |f| ==> Same(f[i].value, g[i].value)
  {
    forall k ensures k in Keys(f) <==> k in Keys(g) {
      if x :| x in f && x.key == k { var i :| 0 <= i < |f| && f[i] == x; assert g[i] in g && g[i].key == k; }
      if x :| x in g && x.key == k { var i :| 0 <= i < |g| && g[i] == x; assert f[i] in f && f[i].key == k; }
    }
    forall i, j | 0 <= i < |f| && 0 <= j < |f| && f[i].key == g[j].key ensures i == j {
      assert f[j].key == g[j].key;
      assert i < j || j < i || i == j;
    }
    if Same(Obj(f), Obj(g)) {
      forall i | 0 <= i < |f| ensures Same(f[i].value, g[i].value) { assert f[i].key == g[i].key; }
    }
  }

  lemma DigestSame(texts: Texts, v: Json, w: Json)
    requires CollisionFree(texts) && WellKeyed(v) && WellKeyed(w)
    ensures Same(DigestOf(texts, v), DigestOf(texts, w)) <==> Same(v, w)
  {
    PrintInjective(v, w);
  }

  lemma OptionalSame(texts: Texts, v: Option<Json>, w: Option<Json>)
    requires CollisionFree(texts) && (v.Some? ==> WellKeyed(v.value)) && (w.Some? ==> WellKeyed(w.value))
    ensures Same(OptionalDigest(texts, v), OptionalDigest(texts, w)) <==> SameOptional(v, w)
  {
    if v.Some? && w.Some? { DigestSame(texts, v.value, w.value); }
  }

  ghost predicate FieldSame(a: Terms, b: Terms, p: Str, q: Str, i: nat)
    requires i < 14
  {
    match i
    case 0 => a.planId == b.planId
    case 1 => a.decisionId == b.decisionId
    case 2 => a.capabilityId == b.capabilityId
    case 3 => a.capabilityVersion == b.capabilityVersion
    case 4 => a.adapterId == b.adapterId
    case 5 => Same(a.inputs, b.inputs)
    case 6 => Same(a.risk, b.risk)
    case 7 => Same(a.coverage, b.coverage)
    case 8 => SameNumber(a.timeout, b.timeout)
    case 9 => SameOptional(a.verification, b.verification)
    case 10 => SameOptional(a.rollback, b.rollback)
    case 11 => a.createdAt == b.createdAt
    case 12 => a.expiresAt == b.expiresAt
    case _ => p == q
  }

  lemma AtomSame(v: Json, w: Json)
    requires (v.Text? || v.Null?) && (w.Text? || w.Null?)
    ensures Same(v, w) <==> v == w
  {
  }

  lemma IsoSame(texts: Texts, x: int, y: int)
    requires CollisionFree(texts)
    ensures texts.iso(x) == texts.iso(y) <==> x == y
  {
  }

  lemma TimeSame(texts: Texts, x: Option<int>, y: Option<int>)
    requires CollisionFree(texts)
    ensures Same(TimeValue(texts, x), TimeValue(texts, y)) <==> x == y
  {
    AtomSame(TimeValue(texts, x), TimeValue(texts, y));
    if x.Some? && y.Some? { IsoSame(texts, x.value, y.value); }
  }

  lemma PlainSame(texts: Texts, a: Terms, b: Terms, p: Str, q: Str, i: nat)
    requires i in {0, 1, 2, 3, 4, 8, 13}
    ensures Same(Value(texts, a, p, i), Value(texts, b, q, i)) <==> FieldSame(a, b, p, q, i)
  {
    if i != 8 { AtomSame(Value(texts, a, p, i), Value(texts, b, q, i)); }
  }

  /** The seven fields that enter as digests or as time texts are told apart by them. */
  ghost predicate CodedApart(texts: Texts, a: Terms, b: Terms) {
    && (Same(DigestOf(texts, a.inputs), DigestOf(texts, b.inputs)) <==> Same(a.inputs, b.inputs))
    && (Same(DigestOf(texts, a.risk), DigestOf(texts, b.risk)) <==> Same(a.risk, b.risk))
    && (Same(DigestOf(texts, a.coverage), DigestOf(texts, b.coverage)) <==> Same(a.coverage, b.coverage))
    && (Same(OptionalDigest(texts, a.verification), OptionalDigest(texts, b.verification)) <==>
          SameOptional(a.verification, b.verification))
    && (Same(OptionalDigest(texts, a.rollback), OptionalDigest(texts, b.rollback)) <==> SameOptional(a.rollback, b.rollback))
    && (Same(TimeValue(texts, Some(a.createdAt)), TimeValue(texts, Some(b.createdAt))) <==> a.createdAt == b.createdAt)
    && (Same(TimeValue(texts, a.expiresAt), TimeValue(texts, b.expiresAt)) <==> a.expiresAt == b.expiresAt)
  }

  lemma CodedSame(texts: Texts, a: Terms, b: Terms)
    requires CollisionFree(texts) && TermsWellKeyed(a) && TermsWellKeyed(b)
    ensures CodedApart(texts, a, b)
  {
    DigestSame(texts, a.inputs, b.inputs);
    DigestSame(texts, a.risk, b.risk);
    DigestSame(texts, a.coverage, b.coverage);
    OptionalSame(texts, a.verification, b.verification);
    OptionalSame(texts, a.rollback, b.rollback);
    TimeSame(texts, Some(a.createdAt), Some(b.createdAt));
    TimeSame(texts, a.expiresAt, b.expiresAt);
  }

  lemma ValueSame(texts: Texts, a: Terms, b: Terms, p: Str, q: Str, i: nat)
    requires CodedApart(texts, a, b) && i < 14
    ensures Same(Value(texts, a, p, i), Value(texts, b, q, i)) <==> FieldSame(a, b, p, q, i)
  {
    if i in {0, 1, 2, 3, 4, 8, 13} { PlainSame(texts, a, b, p, q, i); }
  }

  lemma FieldByField(a: Terms, b: Terms, p: Str, q: Str)
    ensures (forall i :: 0 <= i < 14 ==> FieldSame(a, b, p, q, i)) <==> SameTerms(a, b) && p == q
  {
    if forall i :: 0 <= i < 14 ==> FieldSame(a, b, p, q, i) {
      assert FieldSame(a, b, p, q, 0) && FieldSame(a, b, p, q, 1) && FieldSame(a, b, p, q, 2) && FieldSame(a, b, p, q, 3);
      assert FieldSame(a, b, p, q, 4) && FieldSame(a, b, p, q, 5) && FieldSame(a, b, p, q, 6) && FieldSame(a, b, p, q, 7);
      assert FieldSame(a, b, p, q, 8) && FieldSame(a, b, p, q, 9) && FieldSame(a, b, p, q, 10) && FieldSame(a, b, p, q, 11);
      assert FieldSame(a, b, p, q, 12) && FieldSame(a, b, p, q, 13);
    }
  }

  lemma PayloadSame(texts: Texts, a: Terms, b: Terms, p: Str, q: Str)
    requires CollisionFree(texts) && TermsWellKeyed(a) && TermsWellKeyed(b)
    ensures Same(Payload(texts, a, p), Payload(texts, b, q)) <==> SameTerms(a, b) && p == q
  {
    var f, g := Payload(texts, a, p).fields, Payload(texts, b, q).fields;
    PayloadKeyed(texts, a, p);
    SameInPlace(f, g);
    FieldByField(a, b, p, q);
    CodedSame(texts, a, b);
    forall i | 0 <= i < 14 ensures Same(f[i].value, g[i].value) <==> FieldSame(a, b, p, q, i) {
      ValueSame(texts, a, b, p, q, i);
    }
  }

  lemma {:induction false} InDomainSame(v: Json, w: Json)
    requires Same(v, w) && InDomain(v)
    ensures InDomain(w)
    decreases v
  {
    match (v, w)
    case (Arr(a), Arr(b)) =>
      forall i | 0 <= i < |b| ensures InDomain(b[i]) { InDomainSame(a[i], b[i]); }
    case (Obj(f), Obj(g)) =>
      forall j | 0 <= j < |g| ensures InDomain(g[j].value) {
        assert g[j].key in Keys(g);
        var x :| x in f && x.key == g[j].key;
        var i :| 0 <= i < |f| && f[i] == x;
        InDomainSame(f[i].value, g[j].value);
      }
    case _ =>
  }

  lemma SameSymmetric(v: Json, w: Json)
    requires WellKeyed(v) && WellKeyed(w)
    ensures Same(v, w) == Same(w, v)
  {
    PrintInjective(v, w);
    PrintInjective(w, v);
  }

  /** Two values that are the same are both in the number domain or both outside. */
  lemma DomainSame(v: Json, w: Json)
    requires WellKeyed(v) && WellKeyed(w) && Same(v, w)
    ensures InDomain(v) <==> InDomain(w)
  {
    SameSymmetric(v, w);
    if InDomain(v) { InDomainSame(v, w); }
    if InDomain(w) { InDomainSame(w, v); }
  }

  lemma OptionalDomainSame(a: Option<Json>, b: Option<Json>)
    requires (a.Some? ==> WellKeyed(a.value)) && (b.Some? ==> WellKeyed(b.value)) && SameOptional(a, b)
    ensures a.Some? ==> (InDomain(a.value) <==> InDomain(b.value))
  {
    if a.Some? { DomainSame(a.value, b.value); }
  }

  /** Plans that agree on the fourteen fields up to key order get the same answer; two digests are equal only
      for plans that agree. */
  lemma BindingIdentifies(texts: Texts, a: Terms, b: Terms, p: Str, q: Str)
    requires CollisionFree(texts) && TermsWellKeyed(a) && TermsWellKeyed(b)
    ensures SameTerms(a, b) && p == q ==> BindingDigest(texts, a, p) == BindingDigest(texts, b, q)
    ensures (BindingDigest(texts, a, p).Some? && BindingDigest(texts, a, p) == BindingDigest(texts, b, q)) ==>
              SameTerms(a, b) && p == q
  {
    PayloadKeyed(texts, a, p);
    PayloadKeyed(texts, b, q);
    PayloadSame(texts, a, b, p, q);
    PrintInjective(Payload(texts, a, p), Payload(texts, b, q));
    if SameTerms(a, b) {
      DomainSame(a.inputs, b.inputs);
      DomainSame(a.risk, b.risk);
      DomainSame(a.coverage, b.coverage);
      OptionalDomainSame(a.verification, b.verification);
      OptionalDomainSame(a.rollback, b.rollback);
    }
  }
}
