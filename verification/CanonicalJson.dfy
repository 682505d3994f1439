/** The canonical JSON printer behind every digest of the server, and its injectivity: two values
    print alike exactly when they are the same value with unordered object keys. */
module CanonicalJson {
  import opened JsText
  import opened Sorting
  import opened StringOrder

  // A finite JavaScript number is represented by the token the engine prints for it (shortest
  // decimal form), which identifies it. Negative zero is the one number without a token of its own.

  predicate NumberChar(u: CodeUnit) {
    0x30 <= u <= 0x39 || u == 0x2D || u == 0x2B || u == 0x2E || u == 0x65
  }

  predicate IsNumberToken(s: Str) {
    && s != []
    && (0x30 <= s[0] <= 0x39 || s[0] == 0x2D)
    && forall i :: 0 <= i < |s| ==> NumberChar(s[i])
  }

  type Token = s: Str | IsNumberToken(s) witness [0x30]

  datatype Number = Finite(token: Token) | NegativeZero

  datatype Json =
    | Null
    | Bool(b: bool)
    | Num(n: Number)
    | Text(s: Str)
    | Arr(items: seq<Json>)
    | Obj(fields: seq<Field>)

  /** One own property; the fields of an object are listed in insertion order. */
  datatype Field = Field(key: Str, value: Json)

  function Keys(fields: seq<Field>): set<Str> { set f | f in fields :: f.key }

  ghost predicate DistinctKeys(fields: seq<Field>) {
    forall i, j :: 0 <= i < j < |fields| ==> fields[i].key != fields[j].key
  }

  /** A JavaScript object has at most one property per key, at every depth. */
  ghost predicate WellKeyed(v: Json) {
    match v
    case Arr(items) => forall i :: 0 <= i < |items| ==> WellKeyed(items[i])
    case Obj(fields) =>
      DistinctKeys(fields) && forall i :: 0 <= i < |fields| ==> WellKeyed(fields[i].value)
    case _ => true
  }

  ghost predicate SameNumber(a: Number, b: Number) {
    a == b || (a in {NegativeZero, Finite([0x30])} && b in {NegativeZero, Finite([0x30])})
  }

  /** Equality of JSON values: array order counts, the order of object keys does not, -0 is 0. */
  ghost predicate Same(v: Json, w: Json) {
    match (v, w)
    case (Num(a), Num(b)) => SameNumber(a, b)
    case (Arr(a), Arr(b)) => |a| == |b| && forall i :: 0 <= i < |a| ==> Same(a[i], b[i])
    case (Obj(f), Obj(g)) =>
      && Keys(f) == Keys(g)
      && forall i, j :: 0 <= i < |f| && 0 <= j < |g| && f[i].key == g[j].key ==> Same(f[i].value, g[j].value)
    case _ => v == w
  }

  // ---- Printing ----

  function HexDigit(d: nat): CodeUnit
    requires d < 16
  {
    if d < 10 then 0x30 + d else 0x61 + (d - 10)
  }

  function HexByte(b: nat): (r: Str)
    requires b < 256
    ensures |r| == 2
  {
    [HexDigit(b / 16), HexDigit(b % 16)]
  }

  /** Six units: a backslash, the letter u and four lower-case hexadecimal digits. */
  function UnicodeEscape(u: CodeUnit): Str {
    [BACKSLASH, 0x75] + HexByte(u / 256) + HexByte(u % 256)
  }

  predicate HasShortEscape(u: CodeUnit) {
    u in {QUOTE, BACKSLASH, 0x08, 0x09, 0x0A, 0x0C, 0x0D}
  }

  /** The letter after the backslash of a two-character escape. */
  function ShortEscape(u: CodeUnit): CodeUnit
    requires HasShortEscape(u)
  {
    if u == 0x08 then 0x62
    else if u == 0x09 then 0x74
    else if u == 0x0A then 0x6E
    else if u == 0x0C then 0x66
    else if u == 0x0D then 0x72
    else u
  }

  predicate StartsPair(s: Str) {
    |s| >= 2 && IsHighSurrogate(s[0]) && IsLowSurrogate(s[1])
  }

  /** JSON.stringify on a string, without the quotes: a surrogate pair is kept, a lone surrogate escaped. */
  function QuoteBody(s: Str): Str {
    if s == [] then []
    else if StartsPair(s) then s[..2] + QuoteBody(s[2..])
    else EscapeUnit(s[0]) + QuoteBody(s[1..])
  }

  /** A code unit that is not the first of a surrogate pair. */
  function EscapeUnit(u: CodeUnit): Str {
    if HasShortEscape(u) then [BACKSLASH, ShortEscape(u)]
    else if u < 0x20 || IsHighSurrogate(u) || IsLowSurrogate(u) then UnicodeEscape(u)
    else [u]
  }

  function Quote(s: Str): Str { [QUOTE] + QuoteBody(s) + [QUOTE] }

  function NumberText(n: Number): Str {
    match n
    case Finite(token) => token
    case NegativeZero => [0x30]
  }

  /** `parts.join(',')`. */
  function Join(parts: seq<Str>): Str {
    if parts == [] then []
    else if |parts| == 1 then parts[0]
    else parts[0] + [COMMA] + Join(parts[1..])
  }

  const byKey := (x: Field, y: Field) => Less(x.key, y.key)

  function SortFields(fields: seq<Field>): (sorted: seq<Field>)
    ensures multiset(sorted) == multiset(fields)
    ensures |sorted| == |fields|
    ensures forall i :: 0 <= i < |sorted| ==> sorted[i] in fields
  {
    var sorted := Sort(byKey, fields);
    SameElements(sorted, fields);
    sorted
  }

  /** `"key":value` for a value already printed. */
  function Member(key: Str, text: Str): Str { Quote(key) + [COLON] + text }

  function Print(v: Json): Str {
    match v
    case Null => Ascii("null")
    case Bool(b) => if b then Ascii("true") else Ascii("false")
    case Num(n) => NumberText(n)
    case Text(s) => Quote(s)
    case Arr(items) =>
      [LBRACKET] + Join(seq(|items|, i requires 0 <= i < |items| => Print(items[i]))) + [RBRACKET]
    case Obj(fields) =>
      var sorted := SortFields(fields);
      [LBRACE] + Join(seq(|sorted|, i requires 0 <= i < |sorted| =>
        assert sorted[i] in fields; Member(sorted[i].key, Print(sorted[i].value)))) + [RBRACE]
  }

  function PrintItems(items: seq<Json>): seq<Str> { seq(|items|, i requires 0 <= i < |items| => Print(items[i])) }

  function PrintMembers(fields: seq<Field>): seq<Str> {
    seq(|fields|, i requires 0 <= i < |fields| => Member(fields[i].key, Print(fields[i].value)))
  }

  lemma PrintStructure(v: Json)
    ensures v.Arr? ==> Print(v) == [LBRACKET] + Join(PrintItems(v.items)) + [RBRACKET]
    ensures v.Obj? ==> Print(v) == [LBRACE] + Join(PrintMembers(SortFields(v.fields))) + [RBRACE]
  {
    match v
    case Arr(items) =>
      assert PrintItems(items) == seq(|items|, i requires 0 <= i < |items| => Print(items[i]));
    case Obj(fields) =>
      var sorted := SortFields(fields);
      assert PrintMembers(sorted) == seq(|sorted|, i requires 0 <= i < |sorted| =>
        assert sorted[i] in fields; Member(sorted[i].key, Print(sorted[i].value)));
    case _ =>
  }

  // ---- Unique reading ----

  /** What may follow a value inside a text: nothing, a comma or a closing bracket. */
  predicate Delimited(rest: Str) {
    rest == [] || rest[0] in {COMMA, RBRACKET, RBRACE}
  }

  lemma HexByteUnique(b: nat, c: nat)
    requires b < 256 && c < 256 && HexByte(b) == HexByte(c)
    ensures b == c
  {
    assert HexByte(b)[0] == HexByte(c)[0] && HexByte(b)[1] == HexByte(c)[1];
    assert b / 16 == c / 16 && b % 16 == c % 16;
  }

  lemma UnicodeEscapeUnique(u: CodeUnit, w: CodeUnit)
    requires UnicodeEscape(u) == UnicodeEscape(w)
    ensures u == w
  {
    assert UnicodeEscape(u)[2..4] == HexByte(u / 256) && UnicodeEscape(u)[4..6] == HexByte(u % 256);
    assert UnicodeEscape(w)[2..4] == HexByte(w / 256) && UnicodeEscape(w)[4..6] == HexByte(w % 256);
    HexByteUnique(u / 256, w / 256);
    HexByteUnique(u % 256, w % 256);
  }

  lemma EscapeUnitUnique(u: CodeUnit, w: CodeUnit, r1: Str, r2: Str)
    requires EscapeUnit(u) + r1 == EscapeUnit(w) + r2
    ensures u == w && r1 == r2
  {
    var a, b := EscapeUnit(u) + r1, EscapeUnit(w) + r2;
    assert EscapeUnit(u)[0] == a[0] == b[0] == EscapeUnit(w)[0];
    if a[0] == BACKSLASH {
      assert EscapeUnit(u)[1] == a[1] == b[1] == EscapeUnit(w)[1];
      if a[1] == 0x75 {
        assert UnicodeEscape(u) == a[..6] && UnicodeEscape(w) == b[..6];
        UnicodeEscapeUnique(u, w);
      }
    }
    assert r1 == a[|EscapeUnit(u)|..] && r2 == b[|EscapeUnit(w)|..];
  }

  /** The text of a string after its opening quote. */
  function Rest(s: Str, r: Str): Str { QuoteBody(s) + [QUOTE] + r }

  lemma RestFirst(s: Str, r: Str)
    ensures (s == [] <==> Rest(s, r)[0] == QUOTE) && (StartsPair(s) <==> IsHighSurrogate(Rest(s, r)[0]))
  {
    if s != [] && !StartsPair(s) {
      assert Rest(s, r)[0] == EscapeUnit(s[0])[0];
    }
  }

  lemma RestPair(s: Str, r: Str)
    requires StartsPair(s)
    ensures Rest(s, r) == s[..2] + Rest(s[2..], r)
  {
  }

  lemma RestUnit(s: Str, r: Str)
    requires s != [] && !StartsPair(s)
    ensures Rest(s, r) == EscapeUnit(s[0]) + Rest(s[1..], r)
  {
  }

  lemma {:induction false} RestUnique(s: Str, t: Str, r1: Str, r2: Str)
    requires Rest(s, r1) == Rest(t, r2)
    ensures s == t && r1 == r2
  {
    RestFirst(s, r1);
    RestFirst(t, r2);
    if s == [] {
      assert r1 == Rest(s, r1)[1..] && r2 == Rest(t, r2)[1..];
    } else if StartsPair(s) {
      RestPair(s, r1);
      RestPair(t, r2);
      assert Rest(s[2..], r1) == Rest(s, r1)[2..] && Rest(t[2..], r2) == Rest(t, r2)[2..];
      assert s[..2] == Rest(s, r1)[..2] && t[..2] == Rest(t, r2)[..2];
      RestUnique(s[2..], t[2..], r1, r2);
      assert s == s[..2] + s[2..] && t == t[..2] + t[2..];
    } else {
      RestUnit(s, r1);
      RestUnit(t, r2);
      EscapeUnitUnique(s[0], t[0], Rest(s[1..], r1), Rest(t[1..], r2));
      RestUnique(s[1..], t[1..], r1, r2);
      assert s == [s[0]] + s[1..] && t == [t[0]] + t[1..];
    }
  }

  lemma QuoteUnique(s: Str, t: Str, r1: Str, r2: Str)
    requires Quote(s) + r1 == Quote(t) + r2
    ensures s == t && r1 == r2
  {
    assert (Quote(s) + r1)[1..] == Rest(s, r1) && (Quote(t) + r2)[1..] == Rest(t, r2);
    RestUnique(s, t, r1, r2);
  }

  lemma Overhang(a: Str, b: Str, r1: Str, r2: Str)
    requires a + r1 == b + r2
    ensures |b| < |a| ==> r2 != [] && r2[0] == a[|b|]
  {
    if |b| < |a| {
      assert (b + r2)[|b|] == (a + r1)[|b|];
    }
  }

  /** Number tokens are not prefix-free; the delimiter after them is what ends them. */
  lemma TokenUnique(a: Token, b: Token, r1: Str, r2: Str)
    requires a + r1 == b + r2 && Delimited(r1) && Delimited(r2)
    ensures a == b && r1 == r2
  {
    Overhang(a, b, r1, r2);
    Overhang(b, a, r2, r1);
    var x, y := a + r1, b + r2;
    assert a == x[..|a|] && b == y[..|b|] && r1 == x[|a|..] && r2 == y[|b|..];
  }

  /** The first code unit tells which kind of value follows. */
  lemma FirstUnit(v: Json)
    ensures Print(v) != []
    ensures match v
            case Null => Print(v)[0] == 0x6E
            case Bool(b) => Print(v)[0] == if b then 0x74 else 0x66
            case Num(_) => Print(v)[0] == 0x2D || 0x30 <= Print(v)[0] <= 0x39
            case Text(_) => Print(v)[0] == QUOTE
            case Arr(_) => Print(v)[0] == LBRACKET
            case Obj(_) => Print(v)[0] == LBRACE
  {
  }

  /** The text of a list after its opening bracket. */
  function Rows(parts: seq<Str>, close: CodeUnit, r: Str): Str { Join(parts) + [close] + r }

  /** What follows the first part of a list: the closing bracket, or a comma and the other parts. */
  function Tail(parts: seq<Str>, close: CodeUnit, r: Str): Str {
    if parts == [] then [close] + r else [COMMA] + Rows(parts, close, r)
  }

  lemma RowsTail(parts: seq<Str>, close: CodeUnit, r: Str)
    requires parts != []
    ensures Rows(parts, close, r) == parts[0] + Tail(parts[1..], close, r)
  {
    if |parts| > 1 {
      assert Rows(parts, close, r) == parts[0] + ([COMMA] + Rows(parts[1..], close, r));
    }
  }

  lemma RowsHead(parts: seq<Str>, close: CodeUnit, r: Str)
    requires parts != [] ==> parts[0] != []
    ensures Rows(parts, close, r)[0] == if parts == [] then close else parts[0][0]
    ensures parts == [] ==> Rows(parts, close, r)[1..] == r
  {
  }

  lemma TailUnique(p: seq<Str>, q: seq<Str>, close: CodeUnit, r1: Str, r2: Str)
    requires close in {RBRACKET, RBRACE} && Tail(p, close, r1) == Tail(q, close, r2)
    ensures p == [] <==> q == []
    ensures if p == [] then r1 == r2 else Rows(p, close, r1) == Rows(q, close, r2)
  {
    var x, y := Tail(p, close, r1), Tail(q, close, r2);
    assert x[0] == y[0] && x[1..] == y[1..];
    assert x[1..] == if p == [] then r1 else Rows(p, close, r1);
    assert y[1..] == if q == [] then r2 else Rows(q, close, r2);
  }

  lemma DelimitedTail(parts: seq<Str>, close: CodeUnit, r: Str)
    requires close in {RBRACKET, RBRACE}
    ensures Delimited(Tail(parts, close, r))
  {
  }

  lemma OpenArr(items: seq<Json>, r: Str)
    ensures (Print(Arr(items)) + r)[1..] == Rows(PrintItems(items), RBRACKET, r)
  {
    PrintStructure(Arr(items));
  }

  lemma OpenObj(fields: seq<Field>, r: Str)
    ensures (Print(Obj(fields)) + r)[1..] == Rows(PrintMembers(SortFields(fields)), RBRACE, r)
  {
    PrintStructure(Obj(fields));
  }

  lemma KindsAgree(v: Json, w: Json, r1: Str, r2: Str)
    requires Print(v) + r1 == Print(w) + r2
    ensures v.Null? == w.Null? && v.Bool? == w.Bool? && v.Num? == w.Num?
    ensures v.Text? == w.Text? && v.Arr? == w.Arr? && v.Obj? == w.Obj?
    ensures v.Null? || v.Bool? ==> v == w && r1 == r2
  {
    FirstUnit(v);
    FirstUnit(w);
    assert Print(v)[0] == (Print(v) + r1)[0] == (Print(w) + r2)[0] == Print(w)[0];
    assert r1 == (Print(v) + r1)[|Print(v)|..] && r2 == (Print(w) + r2)[|Print(w)|..];
  }

  /** Reading back is unique: a printed value followed by a delimiter can be split off in one way only. */
  lemma {:induction false} PrintUnique(v: Json, w: Json, r1: Str, r2: Str)
    requires WellKeyed(v) && WellKeyed(w) && Delimited(r1) && Delimited(r2)
    requires Print(v) + r1 == Print(w) + r2
    ensures Same(v, w) && r1 == r2
    decreases v
  {
    KindsAgree(v, w, r1, r2);
    match v
    case Num(n) =>
      TokenUnique(NumberText(n), NumberText(w.n), r1, r2);
    case Text(s) =>
      QuoteUnique(s, w.s, r1, r2);
    case Arr(items) =>
      OpenArr(items, r1);
      OpenArr(w.items, r2);
      ItemsUnique(items, w.items, r1, r2);
    case Obj(fields) =>
      ObjectsUnique(fields, w.fields, r1, r2);
    case _ =>
  }

  lemma {:induction false} ObjectsUnique(f: seq<Field>, g: seq<Field>, r1: Str, r2: Str)
    requires WellKeyed(Obj(f)) && WellKeyed(Obj(g)) && Print(Obj(f)) + r1 == Print(Obj(g)) + r2
    ensures Same(Obj(f), Obj(g)) && r1 == r2
    decreases f
  {
    OpenObj(f, r1);
    OpenObj(g, r2);
    MembersUnique(f, SortFields(f), SortFields(g), r1, r2);
    SameFields(f, g, SortFields(f), SortFields(g));
  }

  lemma {:induction false} ItemsUnique(a: seq<Json>, b: seq<Json>, r1: Str, r2: Str)
    requires forall i :: 0 <= i < |a| ==> WellKeyed(a[i])
    requires forall i :: 0 <= i < |b| ==> WellKeyed(b[i])
    requires Rows(PrintItems(a), RBRACKET, r1) == Rows(PrintItems(b), RBRACKET, r2)
    ensures |a| == |b| && (forall i :: 0 <= i < |a| ==> Same(a[i], b[i])) && r1 == r2
    decreases a
  {
    var p, q := PrintItems(a), PrintItems(b);
    if a != [] { FirstUnit(a[0]); }
    if b != [] { FirstUnit(b[0]); }
    RowsHead(p, RBRACKET, r1);
    RowsHead(q, RBRACKET, r2);
    if a != [] {
      RowsTail(p, RBRACKET, r1);
      RowsTail(q, RBRACKET, r2);
      assert p[1..] == PrintItems(a[1..]) && q[1..] == PrintItems(b[1..]);
      PrintUnique(a[0], b[0], Tail(p[1..], RBRACKET, r1), Tail(q[1..], RBRACKET, r2));
      TailUnique(p[1..], q[1..], RBRACKET, r1, r2);
      if |a| > 1 {
        ItemsUnique(a[1..], b[1..], r1, r2);
        forall i | 0 <= i < |a| ensures Same(a[i], b[i]) {
          if i > 0 { assert a[i] == a[1..][i-1] && b[i] == b[1..][i-1]; }
        }
      }
    }
  }

  lemma MemberUnique(k1: Str, t1: Str, k2: Str, t2: Str, s1: Str, s2: Str)
    requires Member(k1, t1) + s1 == Member(k2, t2) + s2
    ensures k1 == k2 && t1 + s1 == t2 + s2
  {
    assert Member(k1, t1) + s1 == Quote(k1) + ([COLON] + (t1 + s1));
    assert Member(k2, t2) + s2 == Quote(k2) + ([COLON] + (t2 + s2));
    QuoteUnique(k1, k2, [COLON] + (t1 + s1), [COLON] + (t2 + s2));
    assert ([COLON] + (t1 + s1))[1..] == t1 + s1 && ([COLON] + (t2 + s2))[1..] == t2 + s2;
  }

  lemma FirstMemberUnique(f: seq<Field>, g: seq<Field>, r1: Str, r2: Str)
    requires Rows(PrintMembers(f), RBRACE, r1) == Rows(PrintMembers(g), RBRACE, r2)
    ensures f == [] <==> g == []
    ensures f == [] ==> r1 == r2
    ensures f != [] ==>
              var s1, s2 := Tail(PrintMembers(f[1..]), RBRACE, r1), Tail(PrintMembers(g[1..]), RBRACE, r2);
              f[0].key == g[0].key && Print(f[0].value) + s1 == Print(g[0].value) + s2
  {
    var p, q := PrintMembers(f), PrintMembers(g);
    RowsHead(p, RBRACE, r1);
    RowsHead(q, RBRACE, r2);
    if f != [] {
      RowsTail(p, RBRACE, r1);
      RowsTail(q, RBRACE, r2);
      assert p[1..] == PrintMembers(f[1..]) && q[1..] == PrintMembers(g[1..]);
      MemberUnique(f[0].key, Print(f[0].value), g[0].key, Print(g[0].value),
                   Tail(p[1..], RBRACE, r1), Tail(q[1..], RBRACE, r2));
    }
  }

  lemma SameFromTail(f: seq<Field>, g: seq<Field>)
    requires |f| == |g| && f != [] && f[0].key == g[0].key && Same(f[0].value, g[0].value)
    requires forall i :: 0 <= i < |f[1..]| ==> f[1..][i].key == g[1..][i].key && Same(f[1..][i].value, g[1..][i].value)
    ensures forall i :: 0 <= i < |f| ==> f[i].key == g[i].key && Same(f[i].value, g[i].value)
  {
    forall i | 0 <= i < |f| ensures f[i].key == g[i].key && Same(f[i].value, g[i].value) {
      if i > 0 { assert f[i] == f[1..][i-1] && g[i] == g[1..][i-1]; }
    }
  }

  lemma {:induction false} MembersUnique(among: seq<Field>, f: seq<Field>, g: seq<Field>, r1: Str, r2: Str)
    requires forall i :: 0 <= i < |f| ==> f[i] in among && WellKeyed(f[i].value)
    requires forall i :: 0 <= i < |g| ==> WellKeyed(g[i].value)
    requires Rows(PrintMembers(f), RBRACE, r1) == Rows(PrintMembers(g), RBRACE, r2)
    ensures |f| == |g| && r1 == r2
    ensures forall i :: 0 <= i < |f| ==> f[i].key == g[i].key && Same(f[i].value, g[i].value)
    decreases among, |f|
  {
    FirstMemberUnique(f, g, r1, r2);
    if f != [] {
      var p, q := PrintMembers(f[1..]), PrintMembers(g[1..]);
      DelimitedTail(p, RBRACE, r1);
      DelimitedTail(q, RBRACE, r2);
      PrintUnique(f[0].value, g[0].value, Tail(p, RBRACE, r1), Tail(q, RBRACE, r2));
      TailUnique(p, q, RBRACE, r1, r2);
      if |f| > 1 {
        MembersUnique(among, f[1..], g[1..], r1, r2);
        SameFromTail(f, g);
      }
    }
  }

  // ---- Key order ----

  lemma KeyOrder(f: seq<Field>)
    requires DistinctKeys(f)
    ensures Orders(byKey, Elements(f)) && Distinct(f)
  {
    forall x, y | x in Elements(f) && y in Elements(f) && x != y ensures byKey(x, y) != byKey(y, x) {
      LessTotal(x.key, y.key);
    }
    forall x | x in Elements(f) ensures !byKey(x, x) {
      LessTotal(x.key, x.key);
    }
    forall x, y, z | x in Elements(f) && y in Elements(f) && z in Elements(f) && Chain(byKey, x, y, z)
      ensures byKey(x, z)
    {
      LessTransitive(x.key, y.key, z.key);
    }
  }

  lemma SortFieldsAscending(f: seq<Field>)
    requires DistinctKeys(f)
    ensures Ascending(byKey, SortFields(f))
  {
    KeyOrder(f);
    SortAscending(byKey, f, Elements(f));
  }

  /** In ascending order a key has one place. */
  lemma KeyPlace(f: seq<Field>, a: nat, b: nat)
    requires Ascending(byKey, f) && a < |f| && b < |f| && f[a].key == f[b].key
    ensures a == b
  {
    LessTotal(f[a].key, f[b].key);
  }

  lemma SameByPlace(f: seq<Field>, g: seq<Field>, x: Field, y: Field)
    requires Ascending(byKey, f) && |f| == |g|
    requires forall i :: 0 <= i < |f| ==> f[i].key == g[i].key && Same(f[i].value, g[i].value)
    requires x in f && y in g && x.key == y.key
    ensures Same(x.value, y.value)
  {
    var a :| 0 <= a < |f| && f[a] == x;
    var b :| 0 <= b < |g| && g[b] == y;
    KeyPlace(f, a, b);
  }

  lemma KeysByPlace(f: seq<Field>, g: seq<Field>)
    requires |f| == |g| && forall i :: 0 <= i < |f| ==> f[i].key == g[i].key
    ensures Keys(f) <= Keys(g)
  {
    forall k | k in Keys(f) ensures k in Keys(g) {
      var i :| 0 <= i < |f| && f[i].key == k;
      assert g[i] in g;
    }
  }

  /** Sorted fields that agree place by place make the same object, whatever the insertion orders were. */
  lemma SameFields(f: seq<Field>, g: seq<Field>, sf: seq<Field>, sg: seq<Field>)
    requires DistinctKeys(f) && sf == SortFields(f) && sg == SortFields(g)
    requires |sf| == |sg|
    requires forall i :: 0 <= i < |sf| ==> sf[i].key == sg[i].key && Same(sf[i].value, sg[i].value)
    ensures Same(Obj(f), Obj(g))
  {
    SortKeepsKeys(f);
    SortKeepsKeys(g);
    KeysByPlace(sf, sg);
    KeysByPlace(sg, sf);
    SortFieldsAscending(f);
    SameElements(sf, f);
    SameElements(sg, g);
    forall x, y | x in f && y in g && x.key == y.key ensures Same(x.value, y.value) {
      SameByPlace(sf, sg, x, y);
    }
  }

  lemma AscendingKeysUnique(f: seq<Field>, g: seq<Field>)
    requires Ascending(byKey, f) && Ascending(byKey, g) && Keys(f) == Keys(g)
    ensures |f| == |g| && forall i :: 0 <= i < |f| ==> f[i].key == g[i].key
  {
    var key := (x: Field) => x.key;
    var a, b := Map(key, f), Map(key, g);
    MapElements(f);
    MapElements(g);
    LessOrders(Elements(a));
    AscendingUnique(Less, a, b);
    forall i | 0 <= i < |f| ensures f[i].key == g[i].key { assert a[i] == b[i]; }
  }

  lemma MapElements(f: seq<Field>)
    requires Ascending(byKey, f)
    ensures var a := Map((x: Field) => x.key, f); Elements(a) == Keys(f) && Ascending(Less, a)
  {
    var a := Map((x: Field) => x.key, f);
    forall k | k in Keys(f) ensures k in Elements(a) {
      var i :| 0 <= i < |f| && f[i].key == k;
      assert a[i] == k;
    }
    forall i, j | 0 <= i < j < |a| ensures Less(a[i], a[j]) { assert byKey(f[i], f[j]); }
  }

  lemma SortKeepsKeys(f: seq<Field>)
    ensures Keys(SortFields(f)) == Keys(f)
  {
    SameElements(SortFields(f), f);
  }

  /** The converse: insertion order never changes the text. */
  lemma {:induction false} SamePrints(v: Json, w: Json)
    requires WellKeyed(v) && WellKeyed(w) && Same(v, w)
    ensures Print(v) == Print(w)
    decreases v
  {
    PrintStructure(v);
    PrintStructure(w);
    match v
    case Arr(items) =>
      forall i | 0 <= i < |items| ensures Print(items[i]) == Print(w.items[i]) {
        SamePrints(items[i], w.items[i]);
      }
      assert PrintItems(items) == PrintItems(w.items);
    case Obj(fields) =>
      MembersPrint(fields, w.fields);
    case _ =>
  }

  lemma SortedAlike(f: seq<Field>, g: seq<Field>)
    requires DistinctKeys(f) && DistinctKeys(g) && Keys(f) == Keys(g)
    ensures var sf, sg := SortFields(f), SortFields(g);
            |sf| == |sg| && forall k :: 0 <= k < |sf| ==> sf[k].key == sg[k].key && sf[k] in f && sg[k] in g
  {
    SortFieldsAscending(f);
    SortFieldsAscending(g);
    SortKeepsKeys(f);
    SortKeepsKeys(g);
    AscendingKeysUnique(SortFields(f), SortFields(g));
    SameElements(SortFields(g), g);
  }

  lemma {:induction false} MembersPrint(f: seq<Field>, g: seq<Field>)
    requires WellKeyed(Obj(f)) && WellKeyed(Obj(g)) && Same(Obj(f), Obj(g))
    ensures PrintMembers(SortFields(f)) == PrintMembers(SortFields(g))
    decreases f
  {
    var sf, sg := SortFields(f), SortFields(g);
    SortedAlike(f, g);
    forall k | 0 <= k < |sf| ensures Print(sf[k].value) == Print(sg[k].value) {
      var i :| 0 <= i < |f| && f[i] == sf[k];
      var j :| 0 <= j < |g| && g[j] == sg[k];
      SamePrints(f[i].value, g[j].value);
    }
  }

  /** Canonical JSON is injective up to key order. */
  lemma PrintInjective(v: Json, w: Json)
    requires WellKeyed(v) && WellKeyed(w)
    ensures Print(v) == Print(w) <==> Same(v, w)
  {
    if Print(v) == Print(w) {
      assert Print(v) + [] == Print(w) + [];
      PrintUnique(v, w, [], []);
    }
    if Same(v, w) {
      SamePrints(v, w);
    }
  }
}
