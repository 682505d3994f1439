/** Sorting by a comparator, and the one fact every caller needs: under a strict total order the
    sorted arrangement of distinct elements does not depend on the order they arrived in. */
module Sorting {

  function Elements<T>(s: seq<T>): set<T> { set x | x in s }

  ghost predicate Distinct<T>(s: seq<T>) {
    forall i, j :: 0 <= i < j < |s| ==> s[i] != s[j]
  }

  /** The elements of a list in the order of their first occurrences: `[...new Set(list)]`. */
  function Dedupe<T(==)>(s: seq<T>): seq<T> {
    if s == [] then []
    else
      var d := Dedupe(s[..|s|-1]);
      if s[|s|-1] in d then d else d + [s[|s|-1]]
  }

  /** The places of the first occurrences, in order. */
  ghost predicate ArePlaces<T>(s: seq<T>, places: seq<nat>) {
    && (forall i, j :: 0 <= i < j < |places| ==> places[i] < places[j])
    && (forall i: nat :: i in places <==> i < |s| && s[i] !in s[..i])
  }

  lemma PlacesMore<T>(s: seq<T>, x: T, places: seq<nat>)
    requires ArePlaces(s, places)
    ensures ArePlaces(s + [x], if x in s then places else places + [|s|])
  {
    var t, more := s + [x], if x in s then places else places + [|s|];
    forall i: nat ensures i in more <==> i < |t| && t[i] !in t[..i] {
      if i < |s| { assert t[..i] == s[..i] && t[i] == s[i]; }
      if i == |s| { assert t[..i] == s; }
    }
    forall i, j | 0 <= i < j < |more| ensures more[i] < more[j] { if j == |places| { assert places[i] in places; } }
  }

  lemma {:induction false} DedupeMembers<T>(s: seq<T>, x: T)
    ensures x in Dedupe(s) <==> x in s
  {
    if s != [] {
      DedupeMembers(s[..|s|-1], x);
      assert s == s[..|s|-1] + [s[|s|-1]];
    }
  }

  ghost predicate Picks<T>(s: seq<T>, places: seq<nat>, d: seq<T>) {
    |d| == |places| && forall k :: 0 <= k < |places| ==> places[k] < |s| && d[k] == s[places[k]]
  }

  lemma PicksMore<T>(s: seq<T>, x: T, places: seq<nat>, d: seq<T>)
    requires Picks(s, places, d)
    ensures Picks(s + [x], places, d) && Picks(s + [x], places + [|s|], d + [x])
  {
  }

  /** Removing repetitions keeps the first occurrences, in order. */
  lemma {:induction false} DedupeExactly<T>(s: seq<T>) returns (places: seq<nat>)
    ensures ArePlaces(s, places) && Picks(s, places, Dedupe(s))
  {
    if s == [] {
      places := [];
    } else {
      var init, last := s[..|s|-1], s[|s|-1];
      var before := DedupeExactly(init);
      assert s == init + [last];
      PlacesMore(init, last, before);
      PicksMore(init, last, before, Dedupe(init));
      DedupeMembers(init, last);
      places := if last in init then before else before + [|init|];
    }
  }

  ghost predicate Chain<T>(before: (T, T) -> bool, x: T, y: T, z: T) { before(x, y) && before(y, z) }

  /** `before` is a strict total order on `s`. */
  ghost predicate Orders<T(!new)>(before: (T, T) -> bool, s: set<T>) {
    && (forall x, y :: x in s && y in s && x != y ==> before(x, y) != before(y, x))
    && (forall x :: x in s ==> !before(x, x))
    && (forall x, y, z {:trigger Chain(before, x, y, z)} ::
          x in s && y in s && z in s && Chain(before, x, y, z) ==> before(x, z))
  }

  ghost predicate Ascending<T>(before: (T, T) -> bool, s: seq<T>) {
    forall i, j :: 0 <= i < j < |s| ==> before(s[i], s[j])
  }

  /** Stable insertion: `x` goes in front of the first element it comes before. */
  function Insert<T>(before: (T, T) -> bool, x: T, s: seq<T>): (r: seq<T>)
    ensures multiset(r) == multiset(s) + multiset{x}
  {
    if s == [] then [x]
    else if before(x, s[0]) then [x] + s
    else
      assert s == [s[0]] + s[1..];
      [s[0]] + Insert(before, x, s[1..])
  }

  function Sort<T>(before: (T, T) -> bool, s: seq<T>): (r: seq<T>)
    ensures multiset(r) == multiset(s)
  {
    if s == [] then []
    else
      assert s == s[..|s|-1] + [s[|s|-1]];
      Insert(before, s[|s|-1], Sort(before, s[..|s|-1]))
  }

  lemma SameElements<T(!new)>(r: seq<T>, s: seq<T>)
    requires multiset(r) == multiset(s)
    ensures |r| == |s|
    ensures forall x :: x in r <==> x in s
    ensures Elements(r) == Elements(s)
  {
    assert |r| == |multiset(r)| && |s| == |multiset(s)|;
    forall x ensures x in r <==> x in s {
      assert x in r <==> x in multiset(r);
      assert x in s <==> x in multiset(s);
    }
  }

  lemma {:induction false} InsertElements<T(!new)>(before: (T, T) -> bool, x: T, s: seq<T>)
    ensures forall y :: y in Insert(before, x, s) <==> y == x || y in s
  {
    if s != [] {
      InsertElements(before, x, s[1..]);
    }
  }

  lemma {:induction false} InsertAscending<T(!new)>(before: (T, T) -> bool, x: T, s: seq<T>, all: set<T>)
    requires Orders(before, all) && x in all && Elements(s) <= all && x !in s
    requires Ascending(before, s)
    ensures Ascending(before, Insert(before, x, s))
  {
    if s != [] {
      assert s[0] in Elements(s);
      if before(x, s[0]) {
        forall j | 0 <= j < |s| ensures before(x, s[j]) {
          assert s[j] in Elements(s);
          assert j > 0 ==> Chain(before, x, s[0], s[j]);
        }
      } else {
        InsertAscending(before, x, s[1..], all);
        InsertElements(before, x, s[1..]);
        var t := Insert(before, x, s[1..]);
        forall j | 0 <= j < |t| ensures before(s[0], t[j]) {
          assert t[j] == x || t[j] in s[1..];
        }
      }
    }
  }

  lemma {:induction false} SortAscending<T(!new)>(before: (T, T) -> bool, s: seq<T>, all: set<T>)
    requires Orders(before, all) && Elements(s) <= all && Distinct(s)
    ensures Ascending(before, Sort(before, s))
  {
    if s != [] {
      var init, last := s[..|s|-1], s[|s|-1];
      SortAscending(before, init, all);
      SameElements(Sort(before, init), init);
      assert last in Elements(s) && last !in init;
      InsertAscending(before, last, Sort(before, init), all);
    }
  }

  /** In order, where elements may be repeated. */
  ghost predicate InOrder<T>(before: (T, T) -> bool, s: seq<T>) {
    forall i, j :: 0 <= i < j < |s| ==> !before(s[j], s[i])
  }

  lemma {:induction false} InsertInOrder<T(!new)>(before: (T, T) -> bool, x: T, s: seq<T>, all: set<T>)
    requires Orders(before, all) && x in all && Elements(s) <= all && InOrder(before, s)
    ensures InOrder(before, Insert(before, x, s))
  {
    if s != [] {
      assert s[0] in Elements(s);
      if before(x, s[0]) {
        forall j | 0 <= j < |s| ensures !before(s[j], x) {
          assert s[j] in Elements(s);
          if before(s[j], x) { assert Chain(before, s[j], x, s[0]); }
        }
      } else {
        InsertInOrder(before, x, s[1..], all);
        InsertElements(before, x, s[1..]);
        var t := Insert(before, x, s[1..]);
        forall j | 0 <= j < |t| ensures !before(t[j], s[0]) {
          if t[j] != x { assert t[j] in s[1..]; }
        }
      }
    }
  }

  lemma {:induction false} SortInOrder<T(!new)>(before: (T, T) -> bool, s: seq<T>, all: set<T>)
    requires Orders(before, all) && Elements(s) <= all
    ensures InOrder(before, Sort(before, s))
  {
    if s != [] {
      var init, last := s[..|s|-1], s[|s|-1];
      SortInOrder(before, init, all);
      SameElements(Sort(before, init), init);
      assert last in Elements(s);
      InsertInOrder(before, last, Sort(before, init), all);
    }
  }

  lemma HeadIsLeast<T(!new)>(before: (T, T) -> bool, s: seq<T>, x: T)
    requires Ascending(before, s) && x in s
    ensures x == s[0] || before(s[0], x)
  {
    var i :| 0 <= i < |s| && s[i] == x;
  }

  lemma TailElements<T(!new)>(before: (T, T) -> bool, s: seq<T>)
    requires s != [] && Ascending(before, s) && Orders(before, Elements(s))
    ensures Elements(s[1..]) == Elements(s) - {s[0]} && Orders(before, Elements(s[1..]))
  {
    assert s == [s[0]] + s[1..];
    assert s[0] in Elements(s);
    forall i | 1 <= i < |s| ensures s[i] != s[0] { assert before(s[0], s[i]); }
    assert Elements(s[1..]) <= Elements(s);
  }

  lemma NoElements<T>(s: seq<T>)
    ensures s == [] <==> Elements(s) == {}
  {
    if s != [] { assert s[0] in Elements(s); }
  }

  /** Two ascending arrangements of the same elements are one arrangement. */
  lemma {:induction false} AscendingUnique<T(!new)>(before: (T, T) -> bool, a: seq<T>, b: seq<T>)
    requires Elements(a) == Elements(b) && Orders(before, Elements(a))
    requires Ascending(before, a) && Ascending(before, b)
    ensures a == b
  {
    NoElements(a);
    NoElements(b);
    if a != [] {
      assert a[0] in Elements(a) && b[0] in Elements(b);
      HeadIsLeast(before, a, b[0]);
      HeadIsLeast(before, b, a[0]);
      TailElements(before, a);
      TailElements(before, b);
      AscendingUnique(before, a[1..], b[1..]);
    }
  }

  /** Sorting forgets the order in which the elements arrived. */
  lemma SortPermutation<T(!new)>(before: (T, T) -> bool, a: seq<T>, b: seq<T>)
    requires multiset(a) == multiset(b) && Distinct(a) && Distinct(b) && Orders(before, Elements(a))
    ensures Sort(before, a) == Sort(before, b)
  {
    SameElements(a, b);
    SameElements(Sort(before, a), a);
    SameElements(Sort(before, b), b);
    SortAscending(before, a, Elements(a));
    SortAscending(before, b, Elements(a));
    AscendingUnique(before, Sort(before, a), Sort(before, b));
  }

  lemma {:induction false} DistinctCount<T(!new)>(s: seq<T>, x: T)
    requires Distinct(s)
    ensures multiset(s)[x] <= 1
  {
    if s != [] {
      var init, last := s[..|s|-1], s[|s|-1];
      assert s == init + [last];
      DistinctCount(init, x);
      assert last !in init;
    }
  }

  lemma DistinctPermutation<T(!new)>(a: seq<T>, b: seq<T>)
    requires multiset(a) == multiset(b) && Distinct(a)
    ensures Distinct(b)
  {
    forall i, j | 0 <= i < j < |b| ensures b[i] != b[j] {
      DistinctCount(a, b[i]);
      assert b == b[..j] + b[j..];
      assert b[i] in b[..j] && b[j] in b[j..];
      assert multiset(b)[b[i]] == multiset(b[..j])[b[i]] + multiset(b[j..])[b[i]];
    }
  }

  lemma {:induction false} ElementsSize<T(!new)>(s: seq<T>)
    ensures |Elements(s)| <= |s|
    ensures Distinct(s) ==> |Elements(s)| == |s|
  {
    if s != [] {
      var init, last := s[..|s|-1], s[|s|-1];
      ElementsSize(init);
      assert s == init + [last];
      assert Elements(s) == Elements(init) + {last};
      assert last in init <==> last in Elements(init);
    }
  }

  lemma SubsetSize<T>(s: set<T>, t: set<T>)
    requires s <= t
    ensures |s| <= |t|
  {
    assert t == s + (t - s);
  }

  function Map<A, B>(f: A -> B, s: seq<A>): seq<B> { seq(|s|, i requires 0 <= i < |s| => f(s[i])) }

  lemma MapCons<A, B>(f: A -> B, x: A, s: seq<A>)
    ensures Map(f, [x] + s) == [f(x)] + Map(f, s)
  {
  }

  lemma {:induction false} InsertMap<A(!new), B(!new)>(f: A -> B, p: (A, A) -> bool, q: (B, B) -> bool, x: A, s: seq<A>)
    requires forall a, b :: p(a, b) == q(f(a), f(b))
    ensures Insert(q, f(x), Map(f, s)) == Map(f, Insert(p, x, s))
  {
    if s == [] {
    } else {
      MapCons(f, s[0], s[1..]);
      assert s == [s[0]] + s[1..];
      if p(x, s[0]) {
        MapCons(f, x, s);
      } else {
        InsertMap(f, p, q, x, s[1..]);
        MapCons(f, s[0], Insert(p, x, s[1..]));
        assert Map(f, s)[1..] == Map(f, s[1..]);
      }
    }
  }

  /** Sorting commutes with a mapping that the comparator does not see. */
  lemma {:induction false} SortMap<A(!new), B(!new)>(f: A -> B, p: (A, A) -> bool, q: (B, B) -> bool, s: seq<A>)
    requires forall a, b :: p(a, b) == q(f(a), f(b))
    ensures Sort(q, Map(f, s)) == Map(f, Sort(p, s))
  {
    if s != [] {
      var init := s[..|s|-1];
      assert Map(f, s)[..|s|-1] == Map(f, init);
      SortMap(f, p, q, init);
      InsertMap(f, p, q, s[|s|-1], Sort(p, init));
    }
  }
}
