/** A reader for JSON texts (RFC 8259 sections 3 to 7), written from the grammar, and what it reads from a canonical
    text. White space, which a canonical text does not have, is not read. */
module JsonReader {
  import opened CanonicalJson
  import opened JsText
  import opened Options
  import opened Sorting
  import Graph = ObjectGraph

  // ---- Strings ----

  function HexValue(u: CodeUnit): Option<nat> {
    if 0x30 <= u <= 0x39 then Some(u - 0x30)
    else if 0x41 <= u <= 0x46 then Some(u - 0x41 + 10)
    else if 0x61 <= u <= 0x66 then Some(u - 0x61 + 10)
    else None
  }

  /** Four hexadecimal digits. */
  function ReadHex(s: Str): Option<CodeUnit> {
    if |s| < 4 then None
    else
      var a, b, c, d := HexValue(s[0]), HexValue(s[1]), HexValue(s[2]), HexValue(s[3]);
      if a.None? || b.None? || c.None? || d.None? then None
      else HexUnit(a.value, b.value, c.value, d.value)
  }

  function HexUnit(a: nat, b: nat, c: nat, d: nat): Option<CodeUnit> {
    if a < 16 && b < 16 && c < 16 && d < 16 then Some(((a * 16 + b) * 16 + c) * 16 + d) else None
  }

  /** What the letter after a backslash stands for: quotation mark, reverse solidus, solidus, backspace, form feed,
      line feed, carriage return, tab. */
  function Unescape(letter: CodeUnit): Option<CodeUnit> {
    match letter
    case 0x22 => Some(0x0022)
    case 0x5C => Some(0x005C)
    case 0x2F => Some(0x002F)
    case 0x62 => Some(0x0008)
    case 0x66 => Some(0x000C)
    case 0x6E => Some(0x000A)
    case 0x72 => Some(0x000D)
    case 0x74 => Some(0x0009)
    case _ => None
  }

  /** One character of a string, and how many units it takes. */
  function ReadChar(s: Str): Option<(CodeUnit, nat)>
    ensures ReadChar(s).Some? ==> 0 < ReadChar(s).value.1 <= |s|
  {
    if s == [] || s[0] < 0x20 || s[0] == 0x22 then None
    else if s[0] != 0x5C then Some((s[0], 1))
    else if |s| < 2 then None
    else if s[1] == 0x75 then
      var u := ReadHex(s[2..]);
      if u.None? then None else Some((u.value, 6))
    else
      var u := Unescape(s[1]);
      if u.None? then None else Some((u.value, 2))
  }

  /** A string after its opening quotation mark, and what follows it. */
  function ReadString(s: Str): Option<(Str, Str)>
    ensures ReadString(s).Some? ==> |ReadString(s).value.1| < |s|
  {
    if s == [] then None
    else if s[0] == 0x22 then Some(([], s[1..]))
    else
      var c := ReadChar(s);
      if c.None? then None
      else
        var more := ReadString(s[c.value.1..]);
        if more.None? then None else Some(([c.value.0] + more.value.0, more.value.1))
  }

  // ---- Values ----

  function ReadWord(s: Str, word: Str, v: Json): Option<(Json, Str)>
    requires word != []
    ensures ReadWord(s, word, v).Some? ==> |ReadWord(s, word, v).value.1| < |s|
  {
    if word <= s then Some((v, s[|word|..])) else None
  }

  /** The longest run of characters of numbers. */
  function TokenLength(s: Str): nat
    ensures TokenLength(s) <= |s|
  {
    if s == [] || !NumberChar(s[0]) then 0 else 1 + TokenLength(s[1..])
  }

  function ReadNumber(s: Str): Option<(Json, Str)>
    ensures ReadNumber(s).Some? ==> |ReadNumber(s).value.1| < |s|
  {
    var n := TokenLength(s);
    if n > 0 && IsNumberToken(s[..n]) then Some((Num(Finite(s[..n])), s[n..])) else None
  }

  function ReadValue(s: Str): Option<(Json, Str)>
    ensures ReadValue(s).Some? ==> |ReadValue(s).value.1| < |s|
    decreases |s|, 0
  {
    if s == [] then None
    else
      match s[0]
      case 0x6E => ReadWord(s, [0x6E, 0x75, 0x6C, 0x6C], Null)
      case 0x74 => ReadWord(s, [0x74, 0x72, 0x75, 0x65], Bool(true))
      case 0x66 => ReadWord(s, [0x66, 0x61, 0x6C, 0x73, 0x65], Bool(false))
      case 0x22 =>
        var text := ReadString(s[1..]);
        if text.None? then None else Some((Text(text.value.0), text.value.1))
      case 0x5B =>
        if |s| > 1 && s[1] == 0x5D then Some((Arr([]), s[2..]))
        else
          var items := ReadItems(s[1..]);
          if items.None? then None else Some((Arr(items.value.0), items.value.1))
      case 0x7B =>
        if |s| > 1 && s[1] == 0x7D then Some((Obj([]), s[2..]))
        else
          var fields := ReadMembers(s[1..]);
          if fields.None? then None else Some((Obj(fields.value.0), fields.value.1))
      case _ => ReadNumber(s)
  }

  /** One value or more, separated by commas, up to the closing bracket. */
  function ReadItems(s: Str): Option<(seq<Json>, Str)>
    ensures ReadItems(s).Some? ==> |ReadItems(s).value.1| < |s|
    decreases |s|, 1
  {
    var first := ReadValue(s);
    if first.None? || first.value.1 == [] then None
    else
      var (item, rest) := first.value;
      if rest[0] == 0x5D then Some(([item], rest[1..]))
      else if rest[0] != 0x2C then None
      else
        var more := ReadItems(rest[1..]);
        if more.None? then None else Some(([item] + more.value.0, more.value.1))
  }

  function ReadMember(s: Str): Option<(Field, Str)>
    ensures ReadMember(s).Some? ==> |ReadMember(s).value.1| < |s|
    decreases |s|, 1
  {
    if s == [] || s[0] != 0x22 then None
    else
      var key := ReadString(s[1..]);
      if key.None? || key.value.1 == [] || key.value.1[0] != 0x3A then None
      else
        var value := ReadValue(key.value.1[1..]);
        if value.None? then None else Some((Field(key.value.0, value.value.0), value.value.1))
  }

  function ReadMembers(s: Str): Option<(seq<Field>, Str)>
    ensures ReadMembers(s).Some? ==> |ReadMembers(s).value.1| < |s|
    decreases |s|, 2
  {
    var first := ReadMember(s);
    if first.None? || first.value.1 == [] then None
    else
      var (field, rest) := first.value;
      if rest[0] == 0x7D then Some(([field], rest[1..]))
      else if rest[0] != 0x2C then None
      else
        var more := ReadMembers(rest[1..]);
        if more.None? then None else Some(([field] + more.value.0, more.value.1))
  }

  /** A whole text. */
  function Read(text: Str): Option<Json> {
    var r := ReadValue(text);
    if r.Some? && r.value.1 == [] then Some(r.value.0) else None
  }

  // ---- Canonical strings ----

  lemma HexDigitRead(d: nat)
    requires d < 16
    ensures HexValue(HexDigit(d)) == Some(d)
  {
  }

  lemma UnicodeRead(u: CodeUnit)
    ensures |UnicodeEscape(u)| == 6 && UnicodeEscape(u)[0] == 0x5C && UnicodeEscape(u)[1] == 0x75
    ensures ReadHex(UnicodeEscape(u)[2..]) == Some(u)
  {
    var h, l := u / 256, u % 256;
    HexDigitRead(h / 16);
    HexDigitRead(h % 16);
    HexDigitRead(l / 16);
    HexDigitRead(l % 16);
    var s := UnicodeEscape(u)[2..];
    assert s == HexByte(h) + HexByte(l);
    assert s[0] == HexDigit(h / 16) && s[1] == HexDigit(h % 16) && s[2] == HexDigit(l / 16) && s[3] == HexDigit(l % 16);
  }

  lemma CharRead(u: CodeUnit, r: Str)
    ensures EscapeUnit(u) != [] && EscapeUnit(u)[0] != 0x22
    ensures ReadChar(EscapeUnit(u) + r) == Some((u, |EscapeUnit(u)|))
  {
    var s := EscapeUnit(u) + r;
    if !HasShortEscape(u) && (u < 0x20 || IsHighSurrogate(u) || IsLowSurrogate(u)) {
      UnicodeRead(u);
      assert s[2..6] == UnicodeEscape(u)[2..];
      assert s[2..][..4] == UnicodeEscape(u)[2..];
    }
  }

  lemma {:induction false} StringRead(s: Str, r: Str)
    ensures ReadString(Rest(s, r)) == Some((s, r))
  {
    var t := Rest(s, r);
    if s == [] {
      assert t[1..] == r;
    } else if StartsPair(s) {
      RestPair(s, r);
      StringRead(s[2..], r);
      var rest := Rest(s[2..], r);
      assert t[1..] == [s[1]] + rest && t[1..][1..] == rest;
      assert ReadString(t[1..]) == Some(([s[1]] + s[2..], r));
      assert s == [s[0]] + ([s[1]] + s[2..]);
    } else {
      RestUnit(s, r);
      CharRead(s[0], Rest(s[1..], r));
      StringRead(s[1..], r);
      assert t[|EscapeUnit(s[0])|..] == Rest(s[1..], r);
      assert s == [s[0]] + s[1..];
    }
  }

  // ---- Canonical values ----

  /** At every depth the keys come in ascending order. */
  ghost predicate Ascends(v: Json) {
    match v
    case Arr(items) => forall i :: 0 <= i < |items| ==> Ascends(items[i])
    case Obj(fields) =>
      && (forall i, j :: 0 <= i < j < |fields| ==> Less(fields[i].key, fields[j].key))
      && forall i :: 0 <= i < |fields| ==> Ascends(fields[i].value)
    case _ => true
  }

  ghost predicate Reads(v: Json, r: Str, o: Option<(Json, Str)>) {
    o.Some? && o.value.1 == r && Same(v, o.value.0) && Ascends(o.value.0)
  }

  lemma {:induction false} TokenRead(t: Str, r: Str)
    requires (forall i :: 0 <= i < |t| ==> NumberChar(t[i])) && Delimited(r)
    ensures TokenLength(t + r) == |t|
  {
    if t != [] {
      assert (t + r)[1..] == t[1..] + r;
      TokenRead(t[1..], r);
    } else {
      assert t + r == r;
    }
  }

  lemma NumberRead(n: Number, r: Str)
    requires Delimited(r)
    ensures Reads(Num(n), r, ReadValue(Print(Num(n)) + r))
  {
    var t := NumberText(n);
    TokenRead(t, r);
    assert (t + r)[..|t|] == t && (t + r)[|t|..] == r;
    assert (t + r)[0] == t[0];
  }

  lemma WordRead(s: Str, r: Str)
    ensures s <= s + r && (s + r)[|s|..] == r
  {
  }

  lemma AtomRead(v: Json, r: Str)
    requires v.Null? || v.Bool? || v.Text?
    ensures Reads(v, r, ReadValue(Print(v) + r))
  {
    match v
    case Null =>
      assert Ascii("null") == [0x6E, 0x75, 0x6C, 0x6C];
      WordRead([0x6E, 0x75, 0x6C, 0x6C], r);
    case Bool(b) =>
      assert Ascii("true") == [0x74, 0x72, 0x75, 0x65] && Ascii("false") == [0x66, 0x61, 0x6C, 0x73, 0x65];
      WordRead([0x74, 0x72, 0x75, 0x65], r);
      WordRead([0x66, 0x61, 0x6C, 0x73, 0x65], r);
    case Text(s) =>
      assert (Quote(s) + r)[1..] == Rest(s, r);
      StringRead(s, r);
  }

  /** What is read from the texts of the items. */
  ghost predicate ItemsRead(items: seq<Json>, r: Str, o: Option<(seq<Json>, Str)>) {
    && o.Some? && o.value.1 == r && |o.value.0| == |items|
    && forall i :: 0 <= i < |items| ==> Same(items[i], o.value.0[i]) && Ascends(o.value.0[i])
  }

  ghost predicate MembersRead(fields: seq<Field>, r: Str, o: Option<(seq<Field>, Str)>) {
    && o.Some? && o.value.1 == r && |o.value.0| == |fields|
    && forall i :: 0 <= i < |fields| ==>
         o.value.0[i].key == fields[i].key && Same(fields[i].value, o.value.0[i].value) && Ascends(o.value.0[i].value)
  }

  lemma TailRead(parts: seq<Str>, close: CodeUnit, r: Str)
    ensures var t := Tail(parts, close, r);
      t != [] && t[0] == (if parts == [] then close else 0x2C) && t[1..] == if parts == [] then r else Rows(parts, close, r)
  {
  }

  lemma ItemsJoin(item: Json, items: seq<Json>, r: Str, w: Json, o: Option<(seq<Json>, Str)>)
    requires Same(item, w) && Ascends(w) && ItemsRead(items, r, o)
    ensures ItemsRead([item] + items, r, Some(([w] + o.value.0, r)))
  {
    var a, b := [item] + items, [w] + o.value.0;
    forall i | 0 <= i < |a| ensures Same(a[i], b[i]) && Ascends(b[i]) {
      if i > 0 { assert a[i] == items[i-1] && b[i] == o.value.0[i-1]; }
    }
  }

  lemma FirstItem(s: Str, w: Json, rest: Str)
    requires ReadValue(s) == Some((w, rest)) && rest != []
    ensures rest[0] == 0x5D ==> ReadItems(s) == Some(([w], rest[1..]))
    ensures rest[0] == 0x2C && ReadItems(rest[1..]).Some? ==>
              ReadItems(s) == Some(([w] + ReadItems(rest[1..]).value.0, ReadItems(rest[1..]).value.1))
  {
  }

  lemma LastItem(item: Json, w: Json, r: Str)
    requires Same(item, w) && Ascends(w)
    ensures ItemsRead([item], r, Some(([w], r)))
  {
  }

  lemma ItemsText(items: seq<Json>, r: Str)
    requires items != []
    ensures Rows(PrintItems(items), RBRACKET, r) == Print(items[0]) + Tail(PrintItems(items[1..]), RBRACKET, r)
  {
    assert PrintItems(items)[1..] == PrintItems(items[1..]);
    RowsTail(PrintItems(items), RBRACKET, r);
  }

  lemma {:induction false} ReadsItems(items: seq<Json>, r: Str)
    requires items != [] && forall i :: 0 <= i < |items| ==> WellKeyed(items[i])
    ensures ItemsRead(items, r, ReadItems(Rows(PrintItems(items), RBRACKET, r)))
    decreases items, 0
  {
    var text, parts := Rows(PrintItems(items), RBRACKET, r), PrintItems(items[1..]);
    var tail := Tail(parts, RBRACKET, r);
    DelimitedTail(parts, RBRACKET, r);
    TailRead(parts, RBRACKET, r);
    ReadsValue(items[0], tail);
    ItemsText(items, r);
    var w := ReadValue(text).value.0;
    FirstItem(text, w, tail);
    if |items| > 1 {
      ReadsItems(items[1..], r);
      ItemsJoin(items[0], items[1..], r, w, ReadItems(tail[1..]));
      assert items == [items[0]] + items[1..];
    } else {
      LastItem(items[0], w, r);
      assert items == [items[0]];
    }
  }

  lemma MemberText(k: Str, t: Str, tail: Str)
    ensures var s := Member(k, t) + tail; s != [] && s[0] == QUOTE && s[1..] == Rest(k, [COLON] + (t + tail))
  {
    assert Member(k, t) + tail == Quote(k) + ([COLON] + (t + tail));
  }

  lemma MemberUnfold(s: Str, k: Str, rest: Str, w: Json, tail: Str)
    requires s != [] && s[0] == 0x22 && ReadString(s[1..]) == Some((k, rest))
    requires rest != [] && rest[0] == 0x3A && ReadValue(rest[1..]) == Some((w, tail))
    ensures ReadMember(s) == Some((Field(k, w), tail))
  {
  }

  lemma MemberRead(f: Field, tail: Str)
    requires Reads(f.value, tail, ReadValue(Print(f.value) + tail))
    ensures var o := ReadMember(Member(f.key, Print(f.value)) + tail);
      o.Some? && o.value.1 == tail && o.value.0.key == f.key && Same(f.value, o.value.0.value) && Ascends(o.value.0.value)
  {
    var t := Print(f.value);
    MemberText(f.key, t, tail);
    StringRead(f.key, [COLON] + (t + tail));
    assert ([COLON] + (t + tail))[1..] == t + tail;
    MemberUnfold(Member(f.key, t) + tail, f.key, [COLON] + (t + tail), ReadValue(t + tail).value.0, tail);
  }

  lemma FirstMember(s: Str, w: Field, rest: Str)
    requires ReadMember(s) == Some((w, rest)) && rest != []
    ensures rest[0] == 0x7D ==> ReadMembers(s) == Some(([w], rest[1..]))
    ensures rest[0] == 0x2C && ReadMembers(rest[1..]).Some? ==>
              ReadMembers(s) == Some(([w] + ReadMembers(rest[1..]).value.0, ReadMembers(rest[1..]).value.1))
  {
  }

  lemma MembersJoin(f: Field, fields: seq<Field>, r: Str, w: Field, o: Option<(seq<Field>, Str)>)
    requires w.key == f.key && Same(f.value, w.value) && Ascends(w.value) && MembersRead(fields, r, o)
    ensures MembersRead([f] + fields, r, Some(([w] + o.value.0, r)))
  {
    var a, b := [f] + fields, [w] + o.value.0;
    forall i | 0 <= i < |a| ensures b[i].key == a[i].key && Same(a[i].value, b[i].value) && Ascends(b[i].value) {
      if i > 0 { assert a[i] == fields[i-1] && b[i] == o.value.0[i-1]; }
    }
  }

  lemma LastMember(f: Field, w: Field, r: Str)
    requires w.key == f.key && Same(f.value, w.value) && Ascends(w.value)
    ensures MembersRead([f], r, Some(([w], r)))
  {
  }

  lemma MembersText(fields: seq<Field>, r: Str)
    requires fields != []
    ensures Rows(PrintMembers(fields), RBRACE, r) ==
            Member(fields[0].key, Print(fields[0].value)) + Tail(PrintMembers(fields[1..]), RBRACE, r)
  {
    assert PrintMembers(fields)[1..] == PrintMembers(fields[1..]);
    RowsTail(PrintMembers(fields), RBRACE, r);
  }

  lemma {:induction false} ReadsMembers(among: seq<Field>, fields: seq<Field>, r: Str)
    requires fields != [] && forall i :: 0 <= i < |fields| ==> fields[i] in among && WellKeyed(fields[i].value)
    ensures MembersRead(fields, r, ReadMembers(Rows(PrintMembers(fields), RBRACE, r)))
    decreases among, |fields|
  {
    var text, parts := Rows(PrintMembers(fields), RBRACE, r), PrintMembers(fields[1..]);
    var tail := Tail(parts, RBRACE, r);
    DelimitedTail(parts, RBRACE, r);
    TailRead(parts, RBRACE, r);
    ReadsValue(fields[0].value, tail);
    MembersText(fields, r);
    MemberRead(fields[0], tail);
    var w := ReadMember(text).value.0;
    FirstMember(text, w, tail);
    if |fields| > 1 {
      ReadsMembers(among, fields[1..], r);
      MembersJoin(fields[0], fields[1..], r, w, ReadMembers(tail[1..]));
      assert fields == [fields[0]] + fields[1..];
    } else {
      LastMember(fields[0], w, r);
      assert fields == [fields[0]];
    }
  }

  /** Fields read back in ascending order are the fields, whatever their insertion order was. */
  lemma FieldsReadBack(fields: seq<Field>, sorted: seq<Field>, read: seq<Field>)
    requires DistinctKeys(fields) && sorted == SortFields(fields) && |read| == |sorted|
    requires forall i :: 0 <= i < |sorted| ==> read[i].key == sorted[i].key && Same(sorted[i].value, read[i].value)
    ensures Same(Obj(fields), Obj(read))
    ensures forall i, j :: 0 <= i < j < |read| ==> Less(read[i].key, read[j].key)
  {
    SortFieldsAscending(fields);
    SortKeepsKeys(fields);
    KeysByPlace(sorted, read);
    KeysByPlace(read, sorted);
    SameElements(sorted, fields);
    forall x, y | x in fields && y in read && x.key == y.key ensures Same(x.value, y.value) {
      SameByPlace(sorted, read, x, y);
    }
    forall i, j | 0 <= i < j < |read| ensures Less(read[i].key, read[j].key) { assert byKey(sorted[i], sorted[j]); }
  }

  lemma ArrayRead(text: Str)
    requires |text| > 1 && text[0] == 0x5B
    ensures text[1] == 0x5D ==> ReadValue(text) == Some((Arr([]), text[2..]))
    ensures text[1] != 0x5D && ReadItems(text[1..]).Some? ==>
              ReadValue(text) == Some((Arr(ReadItems(text[1..]).value.0), ReadItems(text[1..]).value.1))
  {
  }

  lemma {:induction false} ReadsArray(items: seq<Json>, r: Str)
    requires WellKeyed(Arr(items))
    ensures Reads(Arr(items), r, ReadValue(Print(Arr(items)) + r))
    decreases items, 1
  {
    var text := Print(Arr(items)) + r;
    OpenArr(items, r);
    FirstUnit(Arr(items));
    if items == [] {
      assert text == [LBRACKET, RBRACKET] + r;
      ArrayRead(text);
    } else {
      FirstUnit(items[0]);
      RowsHead(PrintItems(items), RBRACKET, r);
      ReadsItems(items, r);
      assert text[1] == text[1..][0];
      ArrayRead(text);
    }
  }

  lemma {:induction false} ReadsObject(fields: seq<Field>, r: Str)
    requires WellKeyed(Obj(fields))
    ensures Reads(Obj(fields), r, ReadValue(Print(Obj(fields)) + r))
    decreases fields
  {
    var text, sorted := Print(Obj(fields)) + r, SortFields(fields);
    OpenObj(fields, r);
    FirstUnit(Obj(fields));
    if fields == [] {
      assert Rows(PrintMembers(sorted), RBRACE, r) == [RBRACE] + r;
      assert text[1..][1..] == text[2..];
    } else {
      RowsHead(PrintMembers(sorted), RBRACE, r);
      ReadsMembers(fields, sorted, r);
      FieldsReadBack(fields, sorted, ReadMembers(text[1..]).value.0);
    }
  }

  /** A printed value, followed by nothing or by a delimiter, is read back as the same value, its keys in ascending
      order, and what follows it is left. */
  lemma {:induction false} ReadsValue(v: Json, r: Str)
    requires WellKeyed(v) && Delimited(r)
    ensures Reads(v, r, ReadValue(Print(v) + r))
    decreases v
  {
    match v
    case Num(n) => NumberRead(n, r);
    case Arr(items) => ReadsArray(items, r);
    case Obj(fields) => ReadsObject(fields, r);
    case _ => AtomRead(v, r);
  }

  /** Canonical JSON is JSON: a reader of the grammar reads the value back, and the keys of every object in ascending
      order. */
  lemma ReadPrint(v: Json)
    requires WellKeyed(v)
    ensures Read(Print(v)).Some? && Same(v, Read(Print(v)).value) && Ascends(Read(Print(v)).value)
  {
    ReadsValue(v, []);
    assert Print(v) + [] == Print(v);
  }

  /** The text of a safe object graph is read back as its unfolding. */
  lemma GraphTextRead(h: Graph.Heap, v: Graph.Val)
    requires Graph.Closed(h) && Graph.Points(h, v) && Graph.Walk(h, v, {})
    ensures var read := Read(Print(Graph.Unfold(h, v, {})));
      read.Some? && Same(Graph.Unfold(h, v, {}), read.value) && Ascends(read.value)
  {
    Graph.UnfoldWellKeyed(h, v, {});
    ReadPrint(Graph.Unfold(h, v, {}));
  }

  // ---- Which of its spellings a string gets ----

  /** The spelling of `JSON.stringify`: as itself, as two characters, or as six with lower-case digits. */
  lemma SpelledShortest(u: CodeUnit)
    ensures var e := EscapeUnit(u);
      && (e == [u] <==> u >= 0x20 && u != 0x22 && u != 0x5C && !(0xD800 <= u <= 0xDFFF))
      && (|e| == 2 <==> u in {0x08, 0x09, 0x0A, 0x0C, 0x0D, 0x22, 0x5C})
      && (|e| in {1, 2} || (|e| == 6 && forall i :: 2 <= i < 6 ==> 0x30 <= e[i] <= 0x39 || 0x61 <= e[i] <= 0x66))
  {
    UnicodeRead(u);
    var e := UnicodeEscape(u);
    assert e == [BACKSLASH, 0x75] + [HexDigit(u / 256 / 16), HexDigit(u / 256 % 16), HexDigit(u % 256 / 16), HexDigit(u % 256 % 16)];
  }
}
