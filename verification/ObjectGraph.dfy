/** JSON safety of a JavaScript object graph. Values are held by reference, may be shared and may
    form cycles; the two walks keep the objects of the current path in one mutable set. */
module ObjectGraph {
  import opened JsText
  import opened Sorting
  import opened CanonicalJson

  type Ref = nat

  datatype Val =
    | VNull
    | VBool(b: bool)
    | VNum(n: Number)
    | VNonFinite                // NaN, Infinity, -Infinity
    | VStr(s: Str)
    | VOther                    // undefined, function, symbol, bigint
    | VRef(r: Ref)

  datatype Prop = Prop(key: Str, value: Val)

  datatype Node =
    | ArrayNode(items: seq<Val>)
    | PlainObject(props: seq<Prop>)
    | Exotic                    // Date, Map, Set, class instance, ...

  type Heap = map<Ref, Node>

  /** The values `every` and `map` visit: array items, or the values of the own properties. */
  function Children(n: Node): seq<Val> {
    match n
    case ArrayNode(items) => items
    case PlainObject(props) => seq(|props|, i requires 0 <= i < |props| => props[i].value)
    case Exotic => []
  }

  predicate Points(h: Heap, v: Val) { v.VRef? ==> v.r in h }

  ghost predicate DistinctProps(props: seq<Prop>) {
    forall i, j :: 0 <= i < j < |props| ==> props[i].key != props[j].key
  }

  /** Every reference leads to an object, and an object has one property per key. */
  ghost predicate Closed(h: Heap) {
    forall r :: r in h ==>
      && (forall i :: 0 <= i < |Children(h[r])| ==> Points(h, Children(h[r])[i]))
      && (h[r].PlainObject? ==> DistinctProps(h[r].props))
  }

  predicate SafeLeaf(v: Val) { !v.VRef? && !v.VNonFinite? && !v.VOther? }

  // ---- What safety means: paths through the graph ----

  ghost predicate Edge(h: Heap, r: Ref, t: Ref) {
    r in h && t in h && VRef(t) in Children(h[r])
  }

  ghost predicate IsPath(h: Heap, p: seq<Ref>) {
    && p != [] && p[0] in h
    && forall i :: 0 <= i < |p| - 1 ==> Edge(h, p[i], p[i+1])
  }

  ghost predicate Simple(p: seq<Ref>) {
    forall i, j :: 0 <= i < j < |p| ==> p[i] != p[j]
  }

  /** A node that is an array or plain object and whose non-reference children are JSON primitives. */
  ghost predicate SafeNode(n: Node) {
    !n.Exotic? && forall i :: 0 <= i < |Children(n)| ==> Children(n)[i].VRef? || SafeLeaf(Children(n)[i])
  }

  /** No object is reachable from itself below `r`: no path from `r` meets an object twice. */
  ghost predicate AcyclicBelow(h: Heap, r: Ref) {
    forall p :: IsPath(h, p) && p[0] == r ==> Simple(p)
  }

  ghost predicate SafeBelow(h: Heap, r: Ref) {
    forall p :: IsPath(h, p) && p[0] == r ==> Last(p) in h && SafeNode(h[Last(p)])
  }

  function Last(p: seq<Ref>): Ref
    requires p != []
  {
    p[|p|-1]
  }

  // ---- The walk ----

  /** Safety as the walk decides it; `path` holds the objects between the root and `v`. */
  ghost predicate Walk(h: Heap, v: Val, path: set<Ref>)
    requires Closed(h) && Points(h, v)
    decreases h.Keys - path
  {
    match v
    case VRef(r) =>
      && r !in path
      && !h[r].Exotic?
      && forall i :: 0 <= i < |Children(h[r])| ==> Walk(h, Children(h[r])[i], path + {r})
    case _ => SafeLeaf(v)
  }

  class WeakSet {
    var members: set<Ref>

    constructor ()
      ensures members == {}
    {
      members := {};
    }
  }

  /** The cycle-detecting walk; `every` stops at the first child that is not safe. */
  method IsJsonSafeValue(h: Heap, v: Val, seen: WeakSet) returns (ok: bool)
    requires Closed(h) && Points(h, v)
    modifies seen
    ensures ok == Walk(h, v, old(seen.members))
    ensures seen.members == old(seen.members)
    decreases h.Keys - seen.members
  {
    if !v.VRef? {
      return SafeLeaf(v);
    }
    var r := v.r;
    if r in seen.members {
      return false;
    }
    ghost var path := seen.members;
    seen.members := seen.members + {r};
    ok := !h[r].Exotic?;
    var kids, i := Children(h[r]), 0;
    while i < |kids| && ok
      invariant 0 <= i <= |kids| && seen.members == path + {r}
      invariant ok <==> !h[r].Exotic? && forall k :: 0 <= k < i ==> Walk(h, kids[k], path + {r})
    {
      ok := IsJsonSafeValue(h, kids[i], seen);
      i := i + 1;
    }
    seen.members := seen.members - {r};
  }

  /** The tree a walked graph stands for: shared objects are copied at every place they occur. */
  ghost function Unfold(h: Heap, v: Val, path: set<Ref>): Json
    requires Closed(h) && Points(h, v) && Walk(h, v, path)
    decreases h.Keys - path
  {
    match v
    case VNull => Null
    case VBool(b) => Bool(b)
    case VNum(n) => Num(n)
    case VStr(s) => Text(s)
    case VRef(r) =>
      var kids := Children(h[r]);
      var items := seq(|kids|, i requires 0 <= i < |kids| => Unfold(h, kids[i], path + {r}));
      if h[r].ArrayNode? then Arr(items)
      else Obj(seq(|kids|, i requires 0 <= i < |kids| => Field(h[r].props[i].key, items[i])))
  }

  datatype Printed = Done(text: Str) | Thrown

  const byProp := (x: Prop, y: Prop) => Less(x.key, y.key)

  /** canonicalJsonValue: throws on what is not JSON, otherwise prints what the tree unfolding prints. */
  method CanonicalJsonValue(h: Heap, v: Val, seen: WeakSet) returns (out: Printed)
    requires Closed(h) && Points(h, v)
    modifies seen
    ensures out.Done? <==> Walk(h, v, old(seen.members))
    ensures out.Done? ==> out.text == Print(Unfold(h, v, old(seen.members)))
    ensures out.Done? ==> seen.members == old(seen.members)
    decreases h.Keys - seen.members, 1
  {
    match v
    case VNull => out := Done(Ascii("null"));
    case VBool(b) => out := Done(if b then Ascii("true") else Ascii("false"));
    case VStr(s) => out := Done(Quote(s));
    case VNum(n) => out := Done(NumberText(n));
    case VNonFinite => out := Thrown;
    case VOther => out := Thrown;
    case VRef(r) =>
      if r in seen.members || h[r].Exotic? {
        out := Thrown;
      } else if h[r].ArrayNode? {
        out := CanonicalArray(h, r, seen);
      } else {
        out := CanonicalObject(h, r, seen);
      }
  }

  method CanonicalArray(h: Heap, r: Ref, seen: WeakSet) returns (out: Printed)
    requires Closed(h) && r in h && h[r].ArrayNode? && r !in seen.members
    modifies seen
    ensures out.Done? <==> Walk(h, VRef(r), old(seen.members))
    ensures out.Done? ==> out.text == Print(Unfold(h, VRef(r), old(seen.members)))
    ensures out.Done? ==> seen.members == old(seen.members)
    decreases h.Keys - seen.members, 0
  {
    ghost var path := seen.members;
    seen.members := seen.members + {r};
    var items, parts: seq<Str>, i := Children(h[r]), [], 0;
    while i < |items|
      invariant 0 <= i == |parts| <= |items| && seen.members == path + {r}
      invariant forall k :: 0 <= k < i ==> Walk(h, items[k], path + {r})
      invariant forall k :: 0 <= k < i ==> parts[k] == Print(Unfold(h, items[k], path + {r}))
    {
      var item := CanonicalJsonValue(h, items[i], seen);
      if item.Thrown? {
        return Thrown;
      }
      parts := parts + [item.text];
      i := i + 1;
    }
    seen.members := seen.members - {r};
    ArrayText(h, r, path, parts);
    out := Done([LBRACKET] + Join(parts) + [RBRACKET]);
  }

  lemma ArrayText(h: Heap, r: Ref, path: set<Ref>, parts: seq<Str>)
    requires Closed(h) && r in h && h[r].ArrayNode? && Walk(h, VRef(r), path)
    requires |parts| == |Children(h[r])|
    requires forall k :: 0 <= k < |parts| ==> parts[k] == Print(Unfold(h, Children(h[r])[k], path + {r}))
    ensures Print(Unfold(h, VRef(r), path)) == [LBRACKET] + Join(parts) + [RBRACKET]
  {
    var v := Unfold(h, VRef(r), path);
    PrintStructure(v);
    assert PrintItems(v.items) == parts;
  }

  method CanonicalObject(h: Heap, r: Ref, seen: WeakSet) returns (out: Printed)
    requires Closed(h) && r in h && h[r].PlainObject? && r !in seen.members
    modifies seen
    ensures out.Done? <==> Walk(h, VRef(r), old(seen.members))
    ensures out.Done? ==> out.text == Print(Unfold(h, VRef(r), old(seen.members)))
    ensures out.Done? ==> seen.members == old(seen.members)
    decreases h.Keys - seen.members, 0
  {
    ghost var path := seen.members;
    seen.members := seen.members + {r};
    var props := Sort(byProp, h[r].props);
    SortedProps(h, r, path, props);
    var parts: seq<Str>, i := [], 0;
    while i < |props|
      invariant 0 <= i == |parts| <= |props| && seen.members == path + {r}
      invariant forall k :: 0 <= k < i ==> PrintsProp(h, props[k], path + {r}, parts[k])
    {
      var item := CanonicalJsonValue(h, props[i].value, seen);
      if item.Thrown? {
        return Thrown;
      }
      parts := parts + [Member(props[i].key, item.text)];
      assert PrintsProp(h, props[i], path + {r}, parts[i]);
      i := i + 1;
    }
    seen.members := seen.members - {r};
    ObjectText(h, r, path, parts);
    out := Done([LBRACE] + Join(parts) + [RBRACE]);
  }

  /** `part` is the printed member for the safe property `p`. */
  ghost predicate PrintsProp(h: Heap, p: Prop, path: set<Ref>, part: Str)
    requires Closed(h)
  {
    && Points(h, p.value) && Walk(h, p.value, path)
    && part == Member(p.key, Print(Unfold(h, p.value, path)))
  }

  /** The properties in sorted order are the properties: walking one list is walking the other. */
  lemma SortedProps(h: Heap, r: Ref, path: set<Ref>, props: seq<Prop>)
    requires Closed(h) && r in h && h[r].PlainObject? && r !in path
    requires multiset(props) == multiset(h[r].props)
    ensures forall k :: 0 <= k < |props| ==> Points(h, props[k].value)
    ensures Walk(h, VRef(r), path) <==> forall k :: 0 <= k < |props| ==> Walk(h, props[k].value, path + {r})
  {
    var all, kids := h[r].props, Children(h[r]);
    SameElements(props, all);
    forall k | 0 <= k < |props|
      ensures Points(h, props[k].value) && (Walk(h, VRef(r), path) ==> Walk(h, props[k].value, path + {r}))
    {
      assert props[k] in all;
      var i :| 0 <= i < |all| && all[i] == props[k];
      assert kids[i] == props[k].value;
    }
    if forall k :: 0 <= k < |props| ==> Walk(h, props[k].value, path + {r}) {
      forall i | 0 <= i < |kids| ensures Walk(h, kids[i], path + {r}) {
        assert all[i] in props;
      }
    }
  }

  ghost function UnfoldProp(h: Heap, p: Prop, path: set<Ref>): Field
    requires Closed(h)
  {
    Field(p.key, if Points(h, p.value) && Walk(h, p.value, path) then Unfold(h, p.value, path) else Null)
  }

  lemma ObjectText(h: Heap, r: Ref, path: set<Ref>, parts: seq<Str>)
    requires Closed(h) && r in h && h[r].PlainObject? && Walk(h, VRef(r), path)
    requires var props := Sort(byProp, h[r].props);
             |parts| == |props| && forall k :: 0 <= k < |parts| ==> PrintsProp(h, props[k], path + {r}, parts[k])
    ensures Print(Unfold(h, VRef(r), path)) == [LBRACE] + Join(parts) + [RBRACE]
  {
    var v, props := Unfold(h, VRef(r), path), Sort(byProp, h[r].props);
    var f := (p: Prop) => UnfoldProp(h, p, path + {r});
    assert v.fields == Map(f, h[r].props) by {
      forall i | 0 <= i < |v.fields| ensures v.fields[i] == f(h[r].props[i]) {
        assert Walk(h, Children(h[r])[i], path + {r});
      }
    }
    SortMap(f, byProp, byKey, h[r].props);
    PrintStructure(v);
    assert SortFields(v.fields) == Map(f, props);
    assert PrintMembers(Map(f, props)) == parts;
  }

  // ---- The walk decides safety ----

  lemma PathTail(h: Heap, p: seq<Ref>)
    requires IsPath(h, p) && |p| > 1
    ensures IsPath(h, p[1..]) && Edge(h, p[0], p[1])
  {
    var q := p[1..];
    assert Edge(h, p[0], p[1]);
    forall i | 0 <= i < |q| - 1 ensures Edge(h, q[i], q[i+1]) {
      assert Edge(h, p[i+1], p[i+2]);
    }
  }

  /** Along every path below a walked object: no object twice, none of `path`, only safe nodes. */
  lemma {:induction false} WalkSound(h: Heap, p: seq<Ref>, path: set<Ref>)
    requires Closed(h) && IsPath(h, p) && Walk(h, VRef(p[0]), path)
    ensures Simple(p) && Last(p) in h && SafeNode(h[Last(p)])
    ensures forall i :: 0 <= i < |p| ==> p[i] !in path
    decreases |p|
  {
    var kids := Children(h[p[0]]);
    if |p| == 1 {
      forall i | 0 <= i < |kids| ensures kids[i].VRef? || SafeLeaf(kids[i]) {
        assert Walk(h, kids[i], path + {p[0]});
      }
    } else {
      PathTail(h, p);
      var i :| 0 <= i < |kids| && kids[i] == VRef(p[1]);
      assert Walk(h, kids[i], path + {p[0]});
      var q := p[1..];
      WalkSound(h, q, path + {p[0]});
      assert forall j :: 1 <= j < |p| ==> p[j] == q[j-1];
    }
  }

  /** Every path from `r` is simple, ends in a safe node and stays out of `path`. */
  ghost predicate Clear(h: Heap, r: Ref, path: set<Ref>) {
    forall p :: IsPath(h, p) && p[0] == r ==> ClearPath(h, p, path)
  }

  ghost predicate ClearPath(h: Heap, p: seq<Ref>, path: set<Ref>) {
    && Simple(p) && p != [] && Last(p) in h && SafeNode(h[Last(p)])
    && forall i :: 0 <= i < |p| ==> p[i] !in path
  }

  lemma ClearStep(h: Heap, r: Ref, t: Ref, path: set<Ref>)
    requires Clear(h, r, path) && Edge(h, r, t)
    ensures Clear(h, t, path + {r})
  {
    forall q | IsPath(h, q) && q[0] == t ensures ClearPath(h, q, path + {r}) {
      var p := [r] + q;
      ExtendPath(h, r, q);
      assert p[0] == r && ClearPath(h, p, path);
      assert Last(p) == Last(q) && forall j :: 0 <= j < |q| ==> q[j] == p[j+1];
    }
  }

  /** If everything below `r` is clear of `path`, the walk says yes. */
  lemma {:induction false} WalkComplete(h: Heap, r: Ref, path: set<Ref>)
    requires Closed(h) && r in h && Clear(h, r, path)
    ensures Walk(h, VRef(r), path)
    decreases h.Keys - path
  {
    var p, kids := [r], Children(h[r]);
    assert IsPath(h, p) && p[0] == r && ClearPath(h, p, path);
    forall i | 0 <= i < |kids| ensures Walk(h, kids[i], path + {r}) {
      if kids[i].VRef? {
        ClearStep(h, r, kids[i].r, path);
        WalkComplete(h, kids[i].r, path + {r});
      }
    }
  }

  lemma ExtendPath(h: Heap, r: Ref, q: seq<Ref>)
    requires IsPath(h, q) && Edge(h, r, q[0])
    ensures IsPath(h, [r] + q)
  {
    var p := [r] + q;
    forall i | 0 <= i < |p| - 1 ensures Edge(h, p[i], p[i+1]) {
      if i > 0 { assert Edge(h, q[i-1], q[i]); }
    }
  }

  /** The answer of isJsonSafeValue, and the success of canonicalJson, on any finite graph. */
  lemma SafeExactly(h: Heap, v: Val)
    requires Closed(h) && Points(h, v)
    ensures Walk(h, v, {}) <==> if v.VRef? then AcyclicBelow(h, v.r) && SafeBelow(h, v.r) else SafeLeaf(v)
  {
    if v.VRef? {
      if Walk(h, v, {}) {
        forall p | IsPath(h, p) && p[0] == v.r
          ensures Simple(p) && Last(p) in h && SafeNode(h[Last(p)])
        {
          WalkSound(h, p, {});
        }
      } else if AcyclicBelow(h, v.r) && SafeBelow(h, v.r) {
        WalkComplete(h, v.r, {});
      }
    }
  }

  lemma {:induction false} UnfoldWellKeyed(h: Heap, v: Val, path: set<Ref>)
    requires Closed(h) && Points(h, v) && Walk(h, v, path)
    ensures WellKeyed(Unfold(h, v, path))
    decreases h.Keys - path
  {
    if v.VRef? {
      var kids := Children(h[v.r]);
      forall i | 0 <= i < |kids| ensures WellKeyed(Unfold(h, kids[i], path + {v.r})) {
        UnfoldWellKeyed(h, kids[i], path + {v.r});
      }
    }
  }

  /** Two safe graphs print alike exactly when they unfold to the same value: neither sharing nor the
      insertion order of keys shows in the text. */
  lemma GraphTextInjective(g: Heap, v: Val, h: Heap, w: Val)
    requires Closed(g) && Points(g, v) && Walk(g, v, {})
    requires Closed(h) && Points(h, w) && Walk(h, w, {})
    ensures Print(Unfold(g, v, {})) == Print(Unfold(h, w, {})) <==> Same(Unfold(g, v, {}), Unfold(h, w, {}))
  {
    UnfoldWellKeyed(g, v, {});
    UnfoldWellKeyed(h, w, {});
    PrintInjective(Unfold(g, v, {}), Unfold(h, w, {}));
  }
}
