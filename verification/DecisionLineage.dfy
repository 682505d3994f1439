/** Recursive decision lineage: breadth-first search over typed relationships, cut at 100 decisions. */
module DecisionLineage {
  import opened Options

  type Id = string

  datatype Kind = Decision | OtherEntity

  datatype Relationship = Relationship(source: Id, target: Id, kind: string)

  /** Relationships are listed in the order the database returns them (weight, descending). */
  datatype Database = Database(entities: map<Id, Kind>, relationships: seq<Relationship>)

  const LINEAGE_TYPES := {"continues", "revises", "supersedes", "reverses", "invalidates"}

  const MAX_DECISIONS := 100

  predicate Touches(r: Relationship, id: Id) { r.source == id || r.target == id }

  /** The far end of a relationship seen from `id`. */
  function Other(r: Relationship, id: Id): Id { if r.source == id then r.target else r.source }

  /** getRelationshipsForEntity. */
  function Touching(rels: seq<Relationship>, id: Id): (out: seq<Relationship>)
    ensures forall r :: r in out <==> r in rels && Touches(r, id)
  {
    if rels == [] then []
    else if Touches(rels[0], id) then [rels[0]] + Touching(rels[1..], id)
    else Touching(rels[1..], id)
  }

  predicate IsDecision(db: Database, id: Id) { id in db.entities && db.entities[id] == Decision }

  /** A relationship of `u` that the search follows. */
  predicate Follows(db: Database, u: Id, r: Relationship) {
    Touches(r, u) && r.kind in LINEAGE_TYPES && IsDecision(db, Other(r, u))
  }

  /** `v` is a lineage neighbour of `u`, whichever way the relationship points. */
  ghost predicate Linked(db: Database, u: Id, v: Id) {
    exists r :: r in db.relationships && Follows(db, u, r) && Other(r, u) == v
  }

  /** The decisions at most `n` lineage steps away from `root`. */
  ghost function Within(db: Database, root: Id, n: nat): set<Id> {
    if n == 0 then {root}
    else
      var near := Within(db, root, n - 1);
      near + set v | v in db.entities && exists u :: u in near && Linked(db, u, v)
  }

  /** The lineage distance of `id` from `root` is exactly `d`. */
  ghost predicate Distance(db: Database, root: Id, id: Id, d: nat) {
    id in Within(db, root, d) && forall n: nat :: n < d ==> id !in Within(db, root, n)
  }

  lemma {:induction false} WithinGrows(db: Database, root: Id, m: nat, n: nat)
    requires m <= n
    ensures Within(db, root, m) <= Within(db, root, n)
    decreases n
  {
    if m < n { WithinGrows(db, root, m, n - 1); }
  }

  // ---- The list of discovered decisions ----

  datatype Item = Item(id: Id, depth: nat)

  datatype Entry = Entry(item: Item, linkedFrom: Id, via: Relationship, outgoing: bool)

  /** The root and then the chain; the queue is always a suffix of this list. */
  function Found(root: Id, chain: seq<Entry>): seq<Item> {
    [Item(root, 0)] + seq(|chain|, i requires 0 <= i < |chain| => chain[i].item)
  }

  function Ids(items: seq<Item>): set<Id> { set x | x in items :: x.id }

  /** `v` is on the list, at depth at most `d`. */
  ghost predicate Near(items: seq<Item>, v: Id, d: nat) {
    exists x :: x in items && x.id == v && x.depth <= d
  }

  ghost predicate Ordered(db: Database, root: Id, items: seq<Item>) {
    && items != [] && items[0] == Item(root, 0)
    && (forall i, j :: 0 <= i < j < |items| ==> items[i].id != items[j].id && items[i].depth <= items[j].depth)
    && (forall x :: x in items ==> IsDecision(db, x.id) && x.id in Within(db, root, x.depth))
  }

  /** Every neighbour of `x` is on the list, at most one step deeper. */
  ghost predicate Explored(db: Database, items: seq<Item>, x: Item) {
    forall v :: Linked(db, x.id, v) ==> Near(items, v, x.depth + 1)
  }

  /** The first `k` items have been explored and no item lies more than a step below the next one. */
  ghost predicate Level(db: Database, root: Id, items: seq<Item>, k: nat) {
    && Ordered(db, root, items) && k <= |items|
    && (forall i :: 0 <= i < k ==> Explored(db, items, items[i]))
    && (k < |items| ==> items[|items|-1].depth <= items[k].depth + 1)
  }

  lemma NearGrows(items: seq<Item>, extra: seq<Item>, v: Id, d: nat)
    requires Near(items, v, d)
    ensures Near(items + extra, v, d)
  {
    var x :| x in items && x.id == v && x.depth <= d;
    assert x in items + extra;
  }

  lemma OneStepOn(db: Database, root: Id, items: seq<Item>, k: nat, n: nat, u: Id, v: Id)
    requires Level(db, root, items, k) && (k < |items| ==> n < items[k].depth)
    requires Near(items, u, n) && Linked(db, u, v)
    ensures Near(items, v, n + 1)
  {
    var x :| x in items && x.id == u && x.depth <= n;
    var i :| 0 <= i < |items| && items[i] == x;
    assert i < k;
    assert Explored(db, items, items[i]);
  }

  /** Up to the depth of the first unexplored item nothing can be missing from the list. */
  lemma {:induction false} NothingNearerMissing(db: Database, root: Id, items: seq<Item>, k: nat, n: nat)
    requires Level(db, root, items, k) && (k < |items| ==> n <= items[k].depth)
    ensures forall v :: v in Within(db, root, n) ==> Near(items, v, n)
  {
    if n == 0 {
      assert items[0] in items;
    } else {
      NothingNearerMissing(db, root, items, k, n - 1);
      forall v | v in Within(db, root, n) ensures Near(items, v, n) {
        if v in Within(db, root, n - 1) {
          assert Near(items, v, n - 1);
        } else {
          var u :| u in Within(db, root, n - 1) && Linked(db, u, v);
          OneStepOn(db, root, items, k, n - 1, u, v);
        }
      }
    }
  }

  /** So the depth of every listed decision is its distance from the root. */
  lemma DepthIsDistance(db: Database, root: Id, items: seq<Item>, k: nat, i: nat)
    requires Level(db, root, items, k) && i < |items|
    ensures Distance(db, root, items[i].id, items[i].depth)
  {
    var x := items[i];
    assert x in items;
    forall n: nat | n < x.depth ensures x.id !in Within(db, root, n) {
      assert i == |items| - 1 || items[i].depth <= items[|items|-1].depth;
      NothingNearerMissing(db, root, items, k, n);
    }
  }

  // ---- The result ----

  /** Entry `i` is reached by the relationship it names, from a decision listed before it and one step nearer. */
  ghost predicate LinkOk(db: Database, root: Id, chain: seq<Entry>, i: nat)
    requires i < |chain|
  {
    var e := chain[i];
    && e.via in db.relationships && Follows(db, e.linkedFrom, e.via) && Other(e.via, e.linkedFrom) == e.item.id
    && e.outgoing == (e.via.source == e.linkedFrom)
    && e.item.depth > 0 && Item(e.linkedFrom, e.item.depth - 1) in Found(root, chain[..i])
  }

  ghost predicate LinksOk(db: Database, root: Id, chain: seq<Entry>) {
    forall i :: 0 <= i < |chain| ==> LinkOk(db, root, chain, i)
  }

  /** Every decision once, and in order of distance. */
  ghost predicate OncePerDecision(root: Id, chain: seq<Entry>) {
    && (forall i :: 0 <= i < |chain| ==> chain[i].item.id != root)
    && (forall i, j :: 0 <= i < j < |chain| ==>
          chain[i].item.id != chain[j].item.id && chain[i].item.depth <= chain[j].item.depth)
  }

  ghost predicate AtDistance(db: Database, root: Id, chain: seq<Entry>) {
    forall i :: 0 <= i < |chain| ==> Distance(db, root, chain[i].item.id, chain[i].item.depth)
  }

  /** Nothing nearer than the last entry is missing, and below the cut nothing at all. */
  ghost predicate NothingMissing(db: Database, root: Id, chain: seq<Entry>) {
    forall n: nat :: (|chain| < MAX_DECISIONS || n < chain[|chain|-1].item.depth) ==>
      Within(db, root, n) <= Ids(Found(root, chain))
  }

  /** In the middle of exploring item `k`: the first `j` of its relationships have been looked at. */
  ghost predicate Visiting(db: Database, root: Id, k: nat, items: seq<Item>, rels: seq<Relationship>, j: nat) {
    && k < |items| && j <= |rels| && Ordered(db, root, items)
    && (forall i :: 0 <= i < k ==> Explored(db, items, items[i]))
    && (forall i :: 0 <= i < j && Follows(db, items[k].id, rels[i]) ==>
          Near(items, Other(rels[i], items[k].id), items[k].depth + 1))
    && items[|items|-1].depth <= items[k].depth + 1
  }

  lemma VisitKnown(db: Database, root: Id, k: nat, items: seq<Item>, rels: seq<Relationship>, j: nat)
    requires Visiting(db, root, k, items, rels, j) && j < |rels|
    requires Follows(db, items[k].id, rels[j]) ==> Other(rels[j], items[k].id) in Ids(items)
    ensures Visiting(db, root, k, items, rels, j + 1)
  {
    if Follows(db, items[k].id, rels[j]) {
      var x :| x in items && x.id == Other(rels[j], items[k].id);
      var i :| 0 <= i < |items| && items[i] == x;
      assert i == |items| - 1 || items[i].depth <= items[|items|-1].depth;
    }
  }

  lemma ExploredGrows(db: Database, items: seq<Item>, extra: seq<Item>, x: Item)
    requires Explored(db, items, x)
    ensures Explored(db, items + extra, x)
  {
    forall v | Linked(db, x.id, v) ensures Near(items + extra, v, x.depth + 1) {
      NearGrows(items, extra, v, x.depth + 1);
    }
  }

  lemma OrderedAppend(db: Database, root: Id, k: nat, items: seq<Item>, r: Relationship)
    requires Ordered(db, root, items) && k < |items| && items[|items|-1].depth <= items[k].depth + 1
    requires r in db.relationships && Follows(db, items[k].id, r) && Other(r, items[k].id) !in Ids(items)
    ensures Ordered(db, root, items + [Item(Other(r, items[k].id), items[k].depth + 1)])
  {
    var x := Item(Other(r, items[k].id), items[k].depth + 1);
    LinkedWithin(db, root, items[k], r);
    assert items[k] in items;
    forall i | 0 <= i < |items| ensures items[i].id != x.id && items[i].depth <= x.depth {
      assert items[i] in items;
      assert i == |items| - 1 || items[i].depth <= items[|items|-1].depth;
    }
  }

  lemma LinkedWithin(db: Database, root: Id, x: Item, r: Relationship)
    requires x.id in Within(db, root, x.depth) && r in db.relationships && Follows(db, x.id, r)
    ensures Other(r, x.id) in Within(db, root, x.depth + 1) && IsDecision(db, Other(r, x.id))
  {
    assert Linked(db, x.id, Other(r, x.id));
  }

  lemma VisitNew(db: Database, root: Id, k: nat, items: seq<Item>, rels: seq<Relationship>, j: nat)
    requires Visiting(db, root, k, items, rels, j) && j < |rels| && rels[j] in db.relationships
    requires Follows(db, items[k].id, rels[j]) && Other(rels[j], items[k].id) !in Ids(items)
    ensures Visiting(db, root, k, items + [Item(Other(rels[j], items[k].id), items[k].depth + 1)], rels, j + 1)
  {
    var x := Item(Other(rels[j], items[k].id), items[k].depth + 1);
    OrderedAppend(db, root, k, items, rels[j]);
    forall i | 0 <= i < k ensures Explored(db, items + [x], items[i]) {
      ExploredGrows(db, items, [x], items[i]);
    }
    forall i | 0 <= i < j && Follows(db, items[k].id, rels[i])
      ensures Near(items + [x], Other(rels[i], items[k].id), items[k].depth + 1)
    {
      NearGrows(items, [x], Other(rels[i], items[k].id), items[k].depth + 1);
    }
    assert x in items + [x];
  }

  lemma VisitDone(db: Database, root: Id, k: nat, items: seq<Item>)
    requires k < |items|
    requires var rels := Touching(db.relationships, items[k].id); Visiting(db, root, k, items, rels, |rels|)
    ensures Level(db, root, items, k + 1)
  {
    var rels := Touching(db.relationships, items[k].id);
    forall v | Linked(db, items[k].id, v) ensures Near(items, v, items[k].depth + 1) {
      var r :| r in db.relationships && Follows(db, items[k].id, r) && Other(r, items[k].id) == v;
      assert r in rels;
      var i :| 0 <= i < |rels| && rels[i] == r;
    }
  }

  lemma FoundAppend(root: Id, chain: seq<Entry>, e: Entry, k: nat)
    requires k <= |chain|
    ensures Found(root, chain + [e]) == Found(root, chain) + [e.item]
    ensures Found(root, chain + [e])[k+1..] == Found(root, chain)[k+1..] + [e.item]
    ensures Found(root, chain + [e])[k] == Found(root, chain)[k]
    ensures Ids(Found(root, chain + [e])) == Ids(Found(root, chain)) + {e.item.id}
  {
    assert Found(root, chain + [e]) == Found(root, chain) + [e.item];
  }

  lemma LinksAppend(db: Database, root: Id, k: nat, chain: seq<Entry>, r: Relationship, e: Entry)
    requires LinksOk(db, root, chain) && k <= |chain| && r in db.relationships
    requires var current := Found(root, chain)[k];
             && Follows(db, current.id, r)
             && e == NewEntry(current, r)
    ensures LinksOk(db, root, chain + [e])
  {
    var all := chain + [e];
    assert all[..|chain|] == chain;
    assert Found(root, chain)[k] in Found(root, chain);
    forall i | 0 <= i < |chain| ensures LinkOk(db, root, all, i) {
      assert all[..i] == chain[..i];
      assert LinkOk(db, root, chain, i);
    }
  }

  datatype Search = Search(chain: seq<Entry>, seen: set<Id>, queue: seq<Item>)

  /** The variables of the search agree: `k` decisions have left the queue, which holds the others. */
  ghost predicate Consistent(root: Id, s: Search, k: nat) {
    k <= |s.chain| + 1 && s.queue == Found(root, s.chain)[k..] && s.seen == Ids(Found(root, s.chain))
  }

  ghost predicate VisitState(db: Database, root: Id, k: nat, current: Item, s: Search, rels: seq<Relationship>, j: nat) {
    && k <= |s.chain| && current == Found(root, s.chain)[k] && Consistent(root, s, k + 1)
    && Visiting(db, root, k, Found(root, s.chain), rels, j) && LinksOk(db, root, s.chain)
  }

  ghost predicate LoopState(db: Database, root: Id, k: nat, s: Search) {
    Consistent(root, s, k) && Level(db, root, Found(root, s.chain), k) && LinksOk(db, root, s.chain)
  }

  lemma VisitStart(db: Database, root: Id, k: nat, s: Search, rels: seq<Relationship>)
    requires LoopState(db, root, k, s) && s.queue != []
    ensures VisitState(db, root, k, s.queue[0], s.(queue := s.queue[1..]), rels, 0)
  {
  }

  /** One relationship: an unseen decision it leads to joins the chain and the queue. */
  function Follow(db: Database, current: Item, s: Search, r: Relationship): Search {
    var other := Other(r, current.id);
    if Follows(db, current.id, r) && other !in s.seen then
      var e := NewEntry(current, r);
      Search(s.chain + [e], s.seen + {other}, s.queue + [e.item])
    else s
  }

  function NewEntry(current: Item, r: Relationship): Entry {
    Entry(Item(Other(r, current.id), current.depth + 1), current.id, r, r.source == current.id)
  }

  lemma NewConsistent(root: Id, s: Search, k: nat, e: Entry)
    requires Consistent(root, s, k + 1)
    ensures Consistent(root, Search(s.chain + [e], s.seen + {e.item.id}, s.queue + [e.item]), k + 1)
    ensures Found(root, s.chain + [e])[k] == Found(root, s.chain)[k]
  {
    FoundAppend(root, s.chain, e, k);
  }

  lemma NewVisiting(db: Database, root: Id, k: nat, chain: seq<Entry>, rels: seq<Relationship>, j: nat)
    requires k <= |chain| && Visiting(db, root, k, Found(root, chain), rels, j) && j < |rels| && rels[j] in db.relationships
    requires var current := Found(root, chain)[k];
             Follows(db, current.id, rels[j]) && Other(rels[j], current.id) !in Ids(Found(root, chain))
    ensures Visiting(db, root, k, Found(root, chain + [NewEntry(Found(root, chain)[k], rels[j])]), rels, j + 1)
  {
    VisitNew(db, root, k, Found(root, chain), rels, j);
    FoundAppend(root, chain, NewEntry(Found(root, chain)[k], rels[j]), k);
  }

  lemma VisitStepNew(db: Database, root: Id, k: nat, current: Item, s: Search, rels: seq<Relationship>, j: nat)
    requires VisitState(db, root, k, current, s, rels, j) && j < |rels| && rels[j] in db.relationships
    requires Follows(db, current.id, rels[j]) && Other(rels[j], current.id) !in s.seen
    ensures VisitState(db, root, k, current, Follow(db, current, s, rels[j]), rels, j + 1)
  {
    NewConsistent(root, s, k, NewEntry(current, rels[j]));
    NewVisiting(db, root, k, s.chain, rels, j);
    LinksAppend(db, root, k, s.chain, rels[j], NewEntry(current, rels[j]));
  }

  lemma VisitStep(db: Database, root: Id, k: nat, current: Item, s: Search, rels: seq<Relationship>, j: nat)
    requires VisitState(db, root, k, current, s, rels, j) && j < |rels| && rels[j] in db.relationships
    ensures VisitState(db, root, k, current, Follow(db, current, s, rels[j]), rels, j + 1)
  {
    if Follows(db, current.id, rels[j]) && Other(rels[j], current.id) !in s.seen {
      VisitStepNew(db, root, k, current, s, rels, j);
    } else {
      VisitKnown(db, root, k, Found(root, s.chain), rels, j);
    }
  }

  lemma VisitEnd(db: Database, root: Id, k: nat, current: Item, s: Search)
    requires var rels := Touching(db.relationships, current.id); VisitState(db, root, k, current, s, rels, |rels|)
    ensures LoopState(db, root, k + 1, s)
  {
    VisitDone(db, root, k, Found(root, s.chain));
  }

  /** All relationships of one decision, in order. */
  function FollowAll(db: Database, current: Item, s: Search, rels: seq<Relationship>): Search
    decreases |rels|
  {
    if rels == [] then s else FollowAll(db, current, Follow(db, current, s, rels[0]), rels[1..])
  }

  lemma {:induction false} VisitAll(db: Database, root: Id, k: nat, current: Item, s: Search, rels: seq<Relationship>, j: nat)
    requires VisitState(db, root, k, current, s, rels, j) && j <= |rels| && rels == Touching(db.relationships, current.id)
    ensures LoopState(db, root, k + 1, FollowAll(db, current, s, rels[j..]))
    decreases |rels| - j
  {
    if j == |rels| {
      VisitEnd(db, root, k, current, s);
    } else {
      assert rels[j] in rels && rels[j..][1..] == rels[j+1..];
      VisitStep(db, root, k, current, s, rels, j);
      VisitAll(db, root, k, current, Follow(db, current, s, rels[j]), rels, j + 1);
    }
  }

  lemma {:induction false} FollowAllExtends(db: Database, root: Id, current: Item, s: Search, rels: seq<Relationship>)
    ensures Found(root, s.chain) <= Found(root, FollowAll(db, current, s, rels).chain)
    decreases |rels|
  {
    if rels != [] {
      FollowAllExtends(db, root, current, Follow(db, current, s, rels[0]), rels[1..]);
    }
  }

  function Next(db: Database, s: Search): Search
    requires s.queue != []
  {
    FollowAll(db, s.queue[0], s.(queue := s.queue[1..]), Touching(db.relationships, s.queue[0].id))
  }

  ghost function Unexplored(db: Database, root: Id, s: Search, k: nat): set<Id>
    requires k <= |s.chain| + 1
  {
    db.entities.Keys - Ids(Found(root, s.chain)[..k])
  }

  lemma LoopStep(db: Database, root: Id, k: nat, s: Search)
    requires LoopState(db, root, k, s) && s.queue != []
    ensures LoopState(db, root, k + 1, Next(db, s))
    ensures Unexplored(db, root, Next(db, s), k + 1) < Unexplored(db, root, s, k)
  {
    var current, rels := s.queue[0], Touching(db.relationships, s.queue[0].id);
    VisitStart(db, root, k, s, rels);
    VisitAll(db, root, k, current, s.(queue := s.queue[1..]), rels, 0);
    assert rels[0..] == rels;
    FollowAllExtends(db, root, current, s.(queue := s.queue[1..]), rels);
    ExploredMore(db, root, Found(root, s.chain), Found(root, Next(db, s).chain), k);
  }

  /** After a hundred decisions, the root among them, only the exploration under way is finished. */
  ghost predicate CutShort(chain: seq<Entry>) {
    forall i :: 99 <= i < |chain| ==> chain[i].linkedFrom == chain[99].linkedFrom
  }

  lemma {:induction false} FollowAllFrom(db: Database, current: Item, s: Search, rels: seq<Relationship>)
    ensures var n := FollowAll(db, current, s, rels);
      s.chain <= n.chain && forall i :: |s.chain| <= i < |n.chain| ==> n.chain[i].linkedFrom == current.id
    decreases |rels|
  {
    if rels != [] { FollowAllFrom(db, current, Follow(db, current, s, rels[0]), rels[1..]); }
  }

  lemma StepCutShort(db: Database, root: Id, k: nat, s: Search)
    requires LoopState(db, root, k, s) && s.queue != [] && |s.seen| <= MAX_DECISIONS
    ensures CutShort(Next(db, s).chain)
  {
    IdCount(Found(root, s.chain));
    FollowAllFrom(db, s.queue[0], s.(queue := s.queue[1..]), Touching(db.relationships, s.queue[0].id));
  }

  /** The body of the search loop: the front of the queue is taken off and its relationships are followed. */
  method Visit(db: Database, s0: Search) returns (s: Search)
    requires s0.queue != []
    ensures s == Next(db, s0)
  {
    var current := s0.queue[0];
    s := s0.(queue := s0.queue[1..]);
    var rels, j := Touching(db.relationships, current.id), 0;
    ghost var all := FollowAll(db, current, s, rels);
    assert rels[0..] == rels;
    while j < |rels|
      invariant j <= |rels| && FollowAll(db, current, s, rels[j..]) == all
    {
      assert rels[j..][1..] == rels[j+1..];
      var other := Other(rels[j], current.id);
      if Follows(db, current.id, rels[j]) && other !in s.seen {
        var e := NewEntry(current, rels[j]);
        s := Search(s.chain + [e], s.seen + {other}, s.queue + [e.item]);
      }
      j := j + 1;
    }
  }

  /** getRecursiveDecisionLineage: null unless the id names a decision, otherwise its lineage chain. */
  method GetRecursiveDecisionLineage(db: Database, decisionId: Id) returns (out: Option<seq<Entry>>)
    ensures out.Some? <==> IsDecision(db, decisionId)
    ensures out.Some? ==> LineageOf(db, decisionId, out.value) && CutShort(out.value)
  {
    if !IsDecision(db, decisionId) {
      return None;
    }
    var root := decisionId;
    var s := Search([], {root}, [Item(root, 0)]);
    ghost var k := 0;
    LevelStart(db, root);
    while s.queue != [] && |s.seen| <= MAX_DECISIONS
      invariant LoopState(db, root, k, s) && k <= |s.chain| + 1 && CutShort(s.chain)
      decreases Unexplored(db, root, s, k)
    {
      LoopStep(db, root, k, s);
      StepCutShort(db, root, k, s);
      s := Visit(db, s);
      k := k + 1;
    }
    Summary(db, root, k, s);
    out := Some(s.chain);
  }

  lemma LevelStart(db: Database, root: Id)
    requires IsDecision(db, root)
    ensures LoopState(db, root, 0, Search([], {root}, [Item(root, 0)]))
  {
    assert Found(root, []) == [Item(root, 0)];
  }

  lemma ExploredMore(db: Database, root: Id, before: seq<Item>, after: seq<Item>, k: nat)
    requires Ordered(db, root, after) && k < |before| && before <= after
    ensures db.entities.Keys - Ids(after[..k+1]) < db.entities.Keys - Ids(before[..k])
  {
    assert after[..k+1] == before[..k] + [after[k]];
    assert Ids(after[..k+1]) == Ids(before[..k]) + {after[k].id};
    assert after[k] in after && after[k].id in db.entities;
    forall x | x in before[..k] ensures x.id != after[k].id {
      var i :| 0 <= i < k && before[i] == x;
      assert after[i] == x;
    }
  }

  lemma {:induction false} IdCount(items: seq<Item>)
    requires forall i, j :: 0 <= i < j < |items| ==> items[i].id != items[j].id
    ensures |Ids(items)| == |items|
  {
    if items != [] {
      var init, last := items[..|items|-1], items[|items|-1];
      assert items == init + [last];
      IdCount(init);
      assert Ids(items) == Ids(init) + {last.id};
      assert last.id !in Ids(init);
    }
  }

  ghost predicate LineageOf(db: Database, root: Id, chain: seq<Entry>) {
    && OncePerDecision(root, chain) && AtDistance(db, root, chain)
    && LinksOk(db, root, chain) && NothingMissing(db, root, chain)
  }

  lemma Summary(db: Database, root: Id, k: nat, s: Search)
    requires LoopState(db, root, k, s) && (s.queue == [] || |s.seen| > MAX_DECISIONS)
    ensures LineageOf(db, root, s.chain)
  {
    Once(db, root, s.chain);
    Distances(db, root, s.chain, k);
    IdCount(Found(root, s.chain));
    Complete(db, root, s.chain, k);
  }

  lemma Distances(db: Database, root: Id, chain: seq<Entry>, k: nat)
    requires Level(db, root, Found(root, chain), k)
    ensures AtDistance(db, root, chain)
  {
    forall i | 0 <= i < |chain| ensures Distance(db, root, chain[i].item.id, chain[i].item.depth) {
      assert Found(root, chain)[i+1] == chain[i].item;
      DepthIsDistance(db, root, Found(root, chain), k, i + 1);
    }
  }

  lemma Complete(db: Database, root: Id, chain: seq<Entry>, k: nat)
    requires Level(db, root, Found(root, chain), k)
    requires k < |Found(root, chain)| ==> |chain| >= MAX_DECISIONS
    ensures NothingMissing(db, root, chain)
  {
    var items := Found(root, chain);
    assert chain != [] ==> items[|items|-1] == chain[|chain|-1].item;
    forall n: nat | |chain| < MAX_DECISIONS || n < chain[|chain|-1].item.depth
      ensures Within(db, root, n) <= Ids(items)
    {
      NothingNearerMissing(db, root, items, k, n);
      forall v | v in Within(db, root, n) ensures v in Ids(items) {
        assert Near(items, v, n);
      }
    }
  }

  lemma Once(db: Database, root: Id, chain: seq<Entry>)
    requires Ordered(db, root, Found(root, chain))
    ensures OncePerDecision(root, chain)
  {
    var items := Found(root, chain);
    forall i | 0 <= i < |chain| ensures items[i+1] == chain[i].item && chain[i].item.id != root {}
    forall i, j | 0 <= i < j < |chain|
      ensures chain[i].item.id != chain[j].item.id && chain[i].item.depth <= chain[j].item.depth
    {
      assert items[i+1].id != items[j+1].id && items[i+1].depth <= items[j+1].depth;
    }
  }

  // ---- Along the relationships ----

  /** One of the five lineage relationships joins the two, whichever way it points, and leads to a decision. */
  ghost predicate Joined(db: Database, u: Id, v: Id) {
    && (v in db.entities && db.entities[v] == Decision)
    && exists r :: r in db.relationships && r.kind in {"continues", "revises", "supersedes", "reverses", "invalidates"}
         && ((r.source == u && r.target == v) || (r.target == u && r.source == v))
  }

  lemma JoinedExactly(db: Database, u: Id, v: Id)
    ensures Linked(db, u, v) <==> Joined(db, u, v)
  {
    if Linked(db, u, v) { var r :| r in db.relationships && Follows(db, u, r) && Other(r, u) == v; }
    if Joined(db, u, v) {
      var r :| r in db.relationships && r.kind in {"continues", "revises", "supersedes", "reverses", "invalidates"}
        && ((r.source == u && r.target == v) || (r.target == u && r.source == v));
      assert Follows(db, u, r) && Other(r, u) == v;
    }
  }

  ghost predicate Walk(db: Database, path: seq<Id>) { forall i :: 0 < i < |path| ==> Joined(db, path[i-1], path[i]) }

  lemma {:induction false} WalkWithin(db: Database, path: seq<Id>)
    requires path != [] && Walk(db, path)
    ensures path[|path|-1] in Within(db, path[0], |path| - 1)
  {
    if |path| > 1 {
      var init, n := path[..|path|-1], |path| - 1;
      assert Walk(db, init);
      WalkWithin(db, init);
      assert Joined(db, path[n-1], path[n]);
      JoinedExactly(db, path[n-1], path[n]);
    }
  }

  lemma {:induction false} WithinWalk(db: Database, root: Id, n: nat, v: Id) returns (path: seq<Id>)
    requires v in Within(db, root, n)
    ensures path != [] && path[0] == root && path[|path|-1] == v && |path| <= n + 1 && Walk(db, path)
  {
    if n == 0 {
      path := [root];
    } else if v in Within(db, root, n - 1) {
      path := WithinWalk(db, root, n - 1, v);
    } else {
      var u :| u in Within(db, root, n - 1) && Linked(db, u, v);
      var before := WithinWalk(db, root, n - 1, u);
      JoinedExactly(db, u, v);
      path := before + [v];
      forall i | 0 < i < |path| ensures Joined(db, path[i-1], path[i]) {
        if i < |before| { assert path[i-1] == before[i-1] && path[i] == before[i]; }
      }
    }
  }

  lemma FoundMeaning(root: Id, chain: seq<Entry>, v: Id)
    requires v in Ids(Found(root, chain)) && v != root
    ensures exists i :: 0 <= i < |chain| && chain[i].item.id == v
  {
    var x :| x in Found(root, chain) && x.id == v;
    var i :| 0 <= i < |Found(root, chain)| && Found(root, chain)[i] == x;
    assert chain[i-1].item.id == v;
  }

  /** A lineage of fewer than a hundred decisions has everything that a walk along the five relationships leads to; a longer
      one has everything that a walk of fewer steps than the depth of its last entry leads to. */
  lemma WalkListed(db: Database, root: Id, chain: seq<Entry>, path: seq<Id>)
    requires LineageOf(db, root, chain) && path != [] && path[0] == root && Walk(db, path)
    requires |chain| < 100 || |path| - 1 < chain[|chain|-1].item.depth
    ensures path[|path|-1] == root || exists i :: 0 <= i < |chain| && chain[i].item.id == path[|path|-1]
  {
    WalkWithin(db, path);
    assert Within(db, root, |path| - 1) <= Ids(Found(root, chain));
    if path[|path|-1] != root { FoundMeaning(root, chain, path[|path|-1]); }
  }

  /** No walk is shorter than the depth of the decision that it leads to, and one of that length exists. */
  lemma WalkNotShorter(db: Database, root: Id, chain: seq<Entry>, path: seq<Id>, i: nat)
    requires LineageOf(db, root, chain) && path != [] && path[0] == root && Walk(db, path)
    requires i < |chain| && chain[i].item.id == path[|path|-1]
    ensures chain[i].item.depth <= |path| - 1
  {
    WalkWithin(db, path);
    assert Distance(db, root, chain[i].item.id, chain[i].item.depth);
  }

  lemma EntryHasWalk(db: Database, root: Id, chain: seq<Entry>, i: nat) returns (path: seq<Id>)
    requires LineageOf(db, root, chain) && i < |chain|
    ensures path != [] && path[0] == root && path[|path|-1] == chain[i].item.id && |path| == chain[i].item.depth + 1 && Walk(db, path)
  {
    var v, d := chain[i].item.id, chain[i].item.depth;
    assert Distance(db, root, v, d);
    path := WithinWalk(db, root, d, v);
    WalkNotShorter(db, root, chain, path, i);
  }
}
