/** What the coverage builder's result means: the conflict partition, independence from the order in which the
    provider batches arrive, and indifference to stale and rejected candidates beside fresh ones. */
module CoverageTheorems {
  import opened CoverageBuilder
  import opened EvidenceContracts
  import opened JsText
  import opened Options
  import opened Sorting
  import opened StringOrder

  // ---- Id lists ----

  lemma {:induction false} DedupeElements(ids: seq<Str>)
    ensures Elements(Dedupe(ids)) == Elements(ids) && Distinct(Dedupe(ids))
  {
    if ids != [] {
      var init, last := ids[..|ids|-1], ids[|ids|-1];
      DedupeElements(init);
      assert ids == init + [last];
      assert last in Dedupe(init) <==> last in Elements(Dedupe(init));
      assert Elements(ids) == Elements(init) + {last};
      assert Elements(Dedupe(init) + [last]) == Elements(Dedupe(init)) + {last};
    }
  }

  /** An emitted id list is strictly ascending and has exactly the given ids. */
  lemma SortStringsMeaning(ids: seq<Str>)
    ensures Elements(SortStrings(ids)) == Elements(ids) && Ascending(Less, SortStrings(ids))
  {
    DedupeElements(ids);
    SameElements(SortStrings(ids), Dedupe(ids));
    LessOrders(Elements(ids));
    SortAscending(Less, Dedupe(ids), Elements(ids));
  }

  // ---- Evidence lists without repeated ids ----

  ghost predicate Unique(es: seq<Evidence>) {
    es == [] || (Unique(es[..|es|-1]) && !HasId(es[..|es|-1], es[|es|-1].id))
  }

  ghost predicate Someone(es: seq<Evidence>, id: Str) { exists e :: e in es && e.id == id }

  lemma {:induction false} HasIdMeaning(es: seq<Evidence>, id: Str)
    ensures HasId(es, id) <==> Someone(es, id)
    ensures Someone(es, id) <==> id in IdsOf(es)
  {
    if es != [] {
      var init, last := es[..|es|-1], es[|es|-1];
      HasIdMeaning(init, id);
      assert es == init + [last] && IdsOf(es) == IdsOf(init) + [last.id];
      if Someone(init, id) { var e :| e in init && e.id == id; assert e in es; }
      if last.id == id { assert last in es; }
    }
  }

  lemma SublistHasId(kept: seq<Evidence>, es: seq<Evidence>, id: Str)
    requires forall e :: e in kept ==> e in es
    ensures HasId(kept, id) ==> HasId(es, id)
  {
    HasIdMeaning(kept, id);
    HasIdMeaning(es, id);
    if Someone(kept, id) {
      var e :| e in kept && e.id == id;
      assert e in es;
    }
  }

  lemma {:induction false} UniqueMeaning(es: seq<Evidence>, a: Evidence, b: Evidence)
    requires Unique(es) && a in es && b in es && a.id == b.id
    ensures a == b
  {
    var init, last := es[..|es|-1], es[|es|-1];
    HasIdMeaning(init, last.id);
    assert es == init + [last];
    if a in init && b in init { UniqueMeaning(init, a, b); }
  }

  lemma {:induction false} UniqueDistinct(es: seq<Evidence>)
    requires Unique(es)
    ensures Distinct(es)
  {
    if es != [] {
      var init, last := es[..|es|-1], es[|es|-1];
      UniqueDistinct(init);
      HasIdMeaning(init, last.id);
      assert last !in init;
    }
  }

  lemma {:induction false} QualifiedUnique<C(!new)>(calls: Calls<C>, r: Requirement, subject: Str, cs: seq<Offer<C>>)
    ensures Unique(QualifiedOf(calls, r, subject, cs))
  {
    if cs != [] {
      QualifiedUnique(calls, r, subject, cs[..|cs|-1]);
      var before := QualifiedOf(calls, r, subject, cs[..|cs|-1]);
      var q := calls.qualify(cs[|cs|-1].0, r, subject, cs[|cs|-1].1);
      if q.Qualified? { assert (before + [q.evidence])[..|before|] == before; }
    }
  }

  lemma {:induction false} ByStalenessMeaning(es: seq<Evidence>, maxAge: Option<int>, now: int, stale: bool, x: Evidence)
    ensures x in ByStaleness(es, maxAge, now, stale) <==> x in es && IsStale(x, maxAge, now) == stale
  {
    if es != [] {
      assert es == es[..|es|-1] + [es[|es|-1]];
      ByStalenessMeaning(es[..|es|-1], maxAge, now, stale, x);
    }
  }

  lemma UniqueExtend(kept: seq<Evidence>, last: Evidence)
    requires Unique(kept) && !HasId(kept, last.id)
    ensures Unique(kept + [last])
  {
    assert (kept + [last])[..|kept|] == kept;
  }

  lemma {:induction false} ByStalenessUnique(es: seq<Evidence>, maxAge: Option<int>, now: int, stale: bool)
    requires Unique(es)
    ensures Unique(ByStaleness(es, maxAge, now, stale))
  {
    if es != [] {
      var init, last := es[..|es|-1], es[|es|-1];
      ByStalenessUnique(init, maxAge, now, stale);
      var kept := ByStaleness(init, maxAge, now, stale);
      forall e | e in kept ensures e in init { ByStalenessMeaning(init, maxAge, now, stale, e); }
      SublistHasId(kept, init, last.id);
      UniqueExtend(kept, last);
      assert kept + [] == kept;
    }
  }

  // ---- The primary of a claim key ----

  function WithKey(es: seq<Evidence>, key: Str): seq<Evidence> {
    if es == [] then []
    else WithKey(es[..|es|-1], key) + if es[|es|-1].claimKey == key then [es[|es|-1]] else []
  }

  lemma {:induction false} WithKeyMeaning(es: seq<Evidence>, key: Str, x: Evidence)
    ensures x in WithKey(es, key) <==> x in es && x.claimKey == key
  {
    if es != [] {
      assert es == es[..|es|-1] + [es[|es|-1]];
      WithKeyMeaning(es[..|es|-1], key, x);
    }
  }

  lemma {:induction false} WithKeyUnique(es: seq<Evidence>, key: Str)
    requires Unique(es)
    ensures Unique(WithKey(es, key))
  {
    if es != [] {
      var init, last := es[..|es|-1], es[|es|-1];
      WithKeyUnique(init, key);
      var kept := WithKey(init, key);
      forall e | e in kept ensures e in init { WithKeyMeaning(init, key, e); }
      SublistHasId(kept, init, last.id);
      assert (kept + [last])[..|kept|] == kept && kept + [] == kept;
    }
  }

  lemma PreferenceOrders(prio: Priorities, es: seq<Evidence>)
    requires Unique(es)
    ensures Orders(PreferenceOrder(prio), Elements(es))
  {
    var before := PreferenceOrder(prio);
    forall x, y | x in Elements(es) && y in Elements(es) && x != y ensures before(x, y) != before(y, x) {
      LessTotal(x.id, y.id);
      if x.id == y.id { UniqueMeaning(es, x, y); }
    }
    forall x | x in Elements(es) ensures !before(x, x) { LessTotal(x.id, x.id); }
    forall x, y, z | Chain(before, x, y, z) ensures before(x, z) {
      if Less(x.id, y.id) && Less(y.id, z.id) { LessTransitive(x.id, y.id, z.id); }
    }
  }

  /** The primary of a group is one of its members, and is preferred to every other. */
  lemma PrimaryMeaning(prio: Priorities, es: seq<Evidence>, x: Evidence)
    requires Unique(es) && x in es
    ensures PickPrimary(prio, es) in es
    ensures PickPrimary(prio, es) == x || Preferred(prio, PickPrimary(prio, es), x)
  {
    var before := PreferenceOrder(prio);
    PreferenceOrders(prio, es);
    UniqueDistinct(es);
    SortAscending(before, es, Elements(es));
    SameElements(Sort(before, es), es);
    HeadIsLeast(before, Sort(before, es), x);
    assert Sort(before, es)[0] in Sort(before, es);
  }

  function PrimaryOf(prio: Priorities, es: seq<Evidence>, x: Evidence): Evidence
    requires x in es
  {
    WithKeyMeaning(es, x.claimKey, x);
    PickPrimary(prio, WithKey(es, x.claimKey))
  }

  lemma PrimaryOfMeaning(prio: Priorities, es: seq<Evidence>, x: Evidence, y: Evidence)
    requires Unique(es) && x in es && y in es && y.claimKey == x.claimKey
    ensures var p := PrimaryOf(prio, es, x); p in es && p.claimKey == x.claimKey && (p == y || Preferred(prio, p, y))
  {
    WithKeyUnique(es, x.claimKey);
    WithKeyMeaning(es, x.claimKey, x);
    WithKeyMeaning(es, x.claimKey, y);
    PrimaryMeaning(prio, WithKey(es, x.claimKey), y);
    WithKeyMeaning(es, x.claimKey, PrimaryOf(prio, es, x));
  }

  // ---- Groups ----

  function Keys(gs: seq<Group>): set<Str> { if gs == [] then {} else {gs[0].key} + Keys(gs[1..]) }

  /** Every group lists exactly the evidence of its key, and no key has two groups. */
  ghost predicate Grouped(gs: seq<Group>, es: seq<Evidence>) {
    gs == [] ||
    (gs[0].members == WithKey(es, gs[0].key) && gs[0].members != [] && gs[0].key !in Keys(gs[1..]) && Grouped(gs[1..], es))
  }

  lemma WithKeyExtend(es: seq<Evidence>, e: Evidence, key: Str)
    ensures WithKey(es + [e], key) == WithKey(es, key) + if e.claimKey == key then [e] else []
  {
    assert (es + [e])[..|es|] == es;
  }

  lemma {:induction false} GroupedFrame(gs: seq<Group>, es: seq<Evidence>, e: Evidence)
    requires Grouped(gs, es) && e.claimKey !in Keys(gs)
    ensures Grouped(gs, es + [e])
  {
    if gs != [] {
      WithKeyExtend(es, e, gs[0].key);
      GroupedFrame(gs[1..], es, e);
    }
  }

  lemma {:induction false} AddKeepsGrouped(gs: seq<Group>, es: seq<Evidence>, e: Evidence)
    requires Grouped(gs, es) && (e.claimKey in Keys(gs) || WithKey(es, e.claimKey) == [])
    ensures Grouped(AddToGroups(gs, e), es + [e]) && Keys(AddToGroups(gs, e)) == Keys(gs) + {e.claimKey}
  {
    WithKeyExtend(es, e, e.claimKey);
    if gs == [] {
    } else if gs[0].key == e.claimKey {
      GroupedFrame(gs[1..], es, e);
    } else {
      WithKeyExtend(es, e, gs[0].key);
      AddKeepsGrouped(gs[1..], es, e);
    }
  }

  lemma {:induction false} GroupsGrouped(es: seq<Evidence>)
    ensures Grouped(Groups(es), es)
    ensures forall e :: e in es ==> e.claimKey in Keys(Groups(es))
  {
    if es != [] {
      var init, last := es[..|es|-1], es[|es|-1];
      GroupsGrouped(init);
      assert es == init + [last];
      if WithKey(init, last.claimKey) != [] {
        var x := WithKey(init, last.claimKey)[0];
        WithKeyMeaning(init, last.claimKey, x);
      }
      AddKeepsGrouped(Groups(init), init, last);
    }
  }

  lemma {:induction false} GroupedAt(gs: seq<Group>, es: seq<Evidence>, i: nat)
    requires Grouped(gs, es) && i < |gs|
    ensures gs[i].members == WithKey(es, gs[i].key) && gs[i].members != []
  {
    if i > 0 { GroupedAt(gs[1..], es, i - 1); }
  }

  lemma {:induction false} GroupOfKey(gs: seq<Group>, key: Str) returns (i: nat)
    requires key in Keys(gs)
    ensures i < |gs| && gs[i].key == key
  {
    if gs[0].key == key { i := 0; } else { i := GroupOfKey(gs[1..], key); i := i + 1; }
  }

  // ---- The two sides of a conflict ----

  lemma {:induction false} AgreeingMeaning(digest: Str, es: seq<Evidence>, agree: bool, x: Evidence)
    ensures x in Agreeing(digest, es, agree) <==> x in es && (x.digest == digest) == agree
  {
    if es != [] {
      assert es == es[..|es|-1] + [es[|es|-1]];
      AgreeingMeaning(digest, es[..|es|-1], agree, x);
    }
  }

  predicate OnSide(prio: Priorities, g: Group, agree: bool, x: Evidence) {
    g.members != [] && x in g.members && (x.digest == PickPrimary(prio, g.members).digest) == agree
  }

  lemma SideLast(prio: Priorities, gs: seq<Group>, agree: bool, x: Evidence)
    requires gs != [] && x in Side(prio, gs, agree) && x !in Side(prio, gs[..|gs|-1], agree)
    ensures OnSide(prio, gs[|gs|-1], agree, x)
  {
    var g := gs[|gs|-1];
    if g.members != [] { AgreeingMeaning(PickPrimary(prio, g.members).digest, g.members, agree, x); }
  }

  lemma {:induction false} SideInGroup(prio: Priorities, gs: seq<Group>, agree: bool, x: Evidence) returns (i: nat)
    requires x in Side(prio, gs, agree)
    ensures i < |gs| && OnSide(prio, gs[i], agree, x)
  {
    if x in Side(prio, gs[..|gs|-1], agree) {
      i := SideInGroup(prio, gs[..|gs|-1], agree, x);
    } else {
      SideLast(prio, gs, agree, x);
      i := |gs| - 1;
    }
  }

  lemma {:induction false} GroupInSide(prio: Priorities, gs: seq<Group>, agree: bool, x: Evidence, i: nat)
    requires i < |gs| && OnSide(prio, gs[i], agree, x)
    ensures x in Side(prio, gs, agree)
    decreases |gs|
  {
    var g := gs[|gs|-1];
    if i < |gs| - 1 {
      GroupInSide(prio, gs[..|gs|-1], agree, x, i);
    } else {
      AgreeingMeaning(PickPrimary(prio, g.members).digest, g.members, agree, x);
    }
  }

  /** An item is on the agreeing side exactly when its digest is that of the primary of its claim key. */
  lemma SideMeaning(prio: Priorities, es: seq<Evidence>, agree: bool, x: Evidence)
    ensures x in Side(prio, Groups(es), agree)
       <==> x in es && (x.digest == PrimaryOf(prio, es, x).digest) == agree
  {
    var gs := Groups(es);
    GroupsGrouped(es);
    if x in Side(prio, gs, agree) {
      var i := SideInGroup(prio, gs, agree, x);
      GroupedAt(gs, es, i);
      WithKeyMeaning(es, gs[i].key, x);
    }
    if x in es && (x.digest == PrimaryOf(prio, es, x).digest) == agree {
      var i := GroupOfKey(gs, x.claimKey);
      GroupedAt(gs, es, i);
      WithKeyMeaning(es, x.claimKey, x);
      GroupInSide(prio, gs, agree, x, i);
    }
  }

  // ---- Whether there is a conflict ----

  ghost predicate Disagree(es: seq<Evidence>, a: Evidence, b: Evidence) {
    a in es && b in es && a.claimKey == b.claimKey && a.digest != b.digest
  }

  ghost predicate SomeKeyHasTwoDigests(es: seq<Evidence>) { exists a, b :: Disagree(es, a, b) }

  lemma TwoMembers<T>(s: set<T>, a: T, b: T)
    requires a in s && b in s && a != b
    ensures |s| > 1
  {
    assert |s - {a}| == |s| - 1;
    assert b in s - {a};
  }

  lemma TwoDigests(es: seq<Evidence>)
    ensures |Digests(es)| > 1 <==> exists a, b :: a in es && b in es && a.digest != b.digest
  {
    var ds := Digests(es);
    if a, b :| a in es && b in es && a.digest != b.digest {
      assert a.digest in ds && b.digest in ds;
      TwoMembers(ds, a.digest, b.digest);
    }
    if |ds| > 1 {
      var d :| d in ds;
      assert |ds - {d}| > 0;
      var d' :| d' in ds - {d};
      var a :| a in es && a.digest == d;
      var b :| b in es && b.digest == d';
    }
  }

  lemma {:induction false} ConflictedGroupsMeaning(gs: seq<Group>)
    ensures ConflictedGroups(gs) > 0 <==> exists i :: 0 <= i < |gs| && |Digests(gs[i].members)| > 1
  {
    if gs != [] {
      var init := gs[..|gs|-1];
      ConflictedGroupsMeaning(init);
      assert forall i :: 0 <= i < |init| ==> init[i] == gs[i];
    }
  }

  lemma ConflictMeaning(es: seq<Evidence>)
    ensures ConflictedGroups(Groups(es)) > 0 <==> SomeKeyHasTwoDigests(es)
  {
    var gs := Groups(es);
    GroupsGrouped(es);
    ConflictedGroupsMeaning(gs);
    if i :| 0 <= i < |gs| && |Digests(gs[i].members)| > 1 {
      GroupedAt(gs, es, i);
      TwoDigests(gs[i].members);
      var a, b :| a in gs[i].members && b in gs[i].members && a.digest != b.digest;
      WithKeyMeaning(es, gs[i].key, a);
      WithKeyMeaning(es, gs[i].key, b);
      assert Disagree(es, a, b);
    }
    if SomeKeyHasTwoDigests(es) {
      var a, b :| Disagree(es, a, b);
      var i := GroupOfKey(gs, a.claimKey);
      GroupedAt(gs, es, i);
      WithKeyMeaning(es, a.claimKey, a);
      WithKeyMeaning(es, a.claimKey, b);
      TwoDigests(gs[i].members);
    }
  }

  // ---- The conflict partition ----

  function ConflictIds(e: Entry): set<Str> { if e.conflictIds.Some? then Elements(e.conflictIds.value) else {} }

  lemma SideIds(prio: Priorities, es: seq<Evidence>, agree: bool, x: Evidence)
    requires Unique(es) && x in es
    ensures x.id in IdsOf(Side(prio, Groups(es), agree)) <==> (x.digest == PrimaryOf(prio, es, x).digest) == agree
  {
    var side := Side(prio, Groups(es), agree);
    HasIdMeaning(side, x.id);
    if Someone(side, x.id) {
      var y :| y in side && y.id == x.id;
      SideMeaning(prio, es, agree, y);
      UniqueMeaning(es, x, y);
    }
    SideMeaning(prio, es, agree, x);
  }

  lemma SideIdsKnown(prio: Priorities, es: seq<Evidence>, agree: bool)
    ensures Elements(IdsOf(Side(prio, Groups(es), agree))) <= Elements(IdsOf(es))
  {
    var side := Side(prio, Groups(es), agree);
    forall i | 0 <= i < |side| ensures side[i].id in IdsOf(es) {
      SideMeaning(prio, es, agree, side[i]);
      HasIdMeaning(es, side[i].id);
    }
  }

  lemma NoConflictNoDissent(prio: Priorities, es: seq<Evidence>, x: Evidence)
    requires Unique(es) && x in es && ConflictedGroups(Groups(es)) == 0
    ensures x.digest == PrimaryOf(prio, es, x).digest
  {
    ConflictMeaning(es);
    PrimaryOfMeaning(prio, es, x, x);
    if x.digest != PrimaryOf(prio, es, x).digest { assert Disagree(es, x, PrimaryOf(prio, es, x)); }
  }

  /** The id lists of an entry over fresh evidence, as sets. */
  lemma EntryIds(classId: Str, prio: Priorities, es: seq<Evidence>, now: int)
    ensures var e, gs := FreshEntry(classId, prio, es, now), Groups(es);
            if ConflictedGroups(gs) > 0 then
              Elements(e.ids) == Elements(IdsOf(Side(prio, gs, true))) && ConflictIds(e) == Elements(IdsOf(Side(prio, gs, false)))
            else Elements(e.ids) == Elements(IdsOf(es)) && ConflictIds(e) == {}
  {
    var gs := Groups(es);
    SortStringsMeaning(IdsOf(Side(prio, gs, true)));
    SortStringsMeaning(IdsOf(Side(prio, gs, false)));
    SortStringsMeaning(IdsOf(es));
  }

  /** Where the id of one fresh item ends up: with the evidence when its digest is that of its key's primary,
      with the conflicts otherwise. */
  lemma ItemSide(classId: Str, prio: Priorities, es: seq<Evidence>, now: int, x: Evidence)
    requires Unique(es) && x in es
    ensures var e := FreshEntry(classId, prio, es, now);
            && (x.id in e.ids <==> x.digest == PrimaryOf(prio, es, x).digest)
            && (x.id in ConflictIds(e) <==> x.digest != PrimaryOf(prio, es, x).digest)
  {
    var e := FreshEntry(classId, prio, es, now);
    EntryIds(classId, prio, es, now);
    assert x.id in e.ids <==> x.id in Elements(e.ids);
    if ConflictedGroups(Groups(es)) > 0 {
      SideIds(prio, es, true, x);
      SideIds(prio, es, false, x);
    } else {
      NoConflictNoDissent(prio, es, x);
      HasIdMeaning(es, x.id);
    }
  }

  lemma ListedOnce(classId: Str, prio: Priorities, es: seq<Evidence>, now: int, id: Str)
    requires Unique(es) && id in IdsOf(es)
    ensures var e := FreshEntry(classId, prio, es, now); (id in e.ids) != (id in ConflictIds(e))
  {
    var i :| 0 <= i < |es| && es[i].id == id;
    ItemSide(classId, prio, es, now, es[i]);
  }

  lemma ListedKnown(classId: Str, prio: Priorities, es: seq<Evidence>, now: int)
    ensures var e := FreshEntry(classId, prio, es, now);
            Elements(e.ids) <= Elements(IdsOf(es)) && ConflictIds(e) <= Elements(IdsOf(es))
  {
    EntryIds(classId, prio, es, now);
    SideIdsKnown(prio, es, true);
    SideIdsKnown(prio, es, false);
  }

  lemma EveryoneOnce(ids: set<Str>, conflicts: set<Str>, all: set<Str>)
    requires ids <= all && conflicts <= all
    requires forall id :: id in all ==> (id in ids) != (id in conflicts)
    ensures ids !! conflicts && ids + conflicts == all
  {
  }

  /** The two id lists partition the fresh ids. */
  lemma ConflictPartition(classId: Str, prio: Priorities, es: seq<Evidence>, now: int)
    requires Unique(es)
    ensures var e := FreshEntry(classId, prio, es, now);
            Elements(e.ids) !! ConflictIds(e) && Elements(e.ids) + ConflictIds(e) == Elements(IdsOf(es))
  {
    var ids, conflicts := Elements(FreshEntry(classId, prio, es, now).ids), ConflictIds(FreshEntry(classId, prio, es, now));
    ListedKnown(classId, prio, es, now);
    forall id | id in Elements(IdsOf(es)) ensures (id in ids) != (id in conflicts) {
      ListedOnce(classId, prio, es, now, id);
    }
    EveryoneOnce(ids, conflicts, Elements(IdsOf(es)));
  }

  /** The preferred item of every claim key, that of the highest provider priority and then the least id, is
      listed with the evidence and never with the conflicts. */
  lemma PrimaryListed(classId: Str, prio: Priorities, es: seq<Evidence>, now: int, p: Evidence)
    requires Unique(es) && p in es
    requires forall y :: y in es && y.claimKey == p.claimKey && y != p ==> Preferred(prio, p, y)
    ensures var e := FreshEntry(classId, prio, es, now); p.id in e.ids && p.id !in ConflictIds(e)
  {
    var q := PrimaryOf(prio, es, p);
    PrimaryOfMeaning(prio, es, p, p);
    if q != p { LessTotal(q.id, p.id); }
    ItemSide(classId, prio, es, now, p);
  }

  /** A class over fresh evidence is conflicted, with a nonempty conflict list, exactly when some claim key has
      two digests; it is present otherwise. */
  lemma ConflictedExactly(classId: Str, prio: Priorities, es: seq<Evidence>, now: int)
    requires Unique(es)
    ensures var e := FreshEntry(classId, prio, es, now);
            && (ConflictIds(e) != {} <==> SomeKeyHasTwoDigests(es))
            && e.status == (if SomeKeyHasTwoDigests(es) then Conflicted else Present)
  {
    ConflictMeaning(es);
    EntryIds(classId, prio, es, now);
    if SomeKeyHasTwoDigests(es) {
      var a, b :| Disagree(es, a, b);
      ItemSide(classId, prio, es, now, a);
      ItemSide(classId, prio, es, now, b);
    }
  }

  /** Both lists come out strictly ascending. */
  lemma ListsAscending(classId: Str, prio: Priorities, es: seq<Evidence>, now: int)
    ensures var e := FreshEntry(classId, prio, es, now);
            Ascending(Less, e.ids) && (e.conflictIds.Some? ==> Ascending(Less, e.conflictIds.value))
  {
    SortStringsMeaning(IdsOf(Side(prio, Groups(es), true)));
    SortStringsMeaning(IdsOf(Side(prio, Groups(es), false)));
    SortStringsMeaning(IdsOf(es));
  }

  // ---- Independence of arrival order ----

  /** No two batches for one class come from one provider. */
  ghost predicate OneBatchPerProvider<C>(batches: seq<Batch<C>>) {
    forall i, j :: 0 <= i < j < |batches| && batches[i].classId == batches[j].classId ==>
      batches[i].provider.id != batches[j].provider.id
  }

  lemma {:induction false} ForClassMeaning<C(!new)>(batches: seq<Batch<C>>, classId: Str, x: Batch<C>)
    ensures x in ForClass(batches, classId) <==> x in batches && x.classId == classId
    ensures multiset(ForClass(batches, classId))[x] == if x.classId == classId then multiset(batches)[x] else 0
  {
    if batches != [] {
      var init := batches[..|batches|-1];
      ForClassMeaning(init, classId, x);
      assert batches == init + [batches[|batches|-1]];
    }
  }

  ghost predicate ProvidersDiffer<C>(bs: seq<Batch<C>>) {
    forall i, j :: 0 <= i < j < |bs| ==> bs[i].provider.id != bs[j].provider.id
  }

  lemma {:induction false} ForClassProviders<C(!new)>(batches: seq<Batch<C>>, classId: Str)
    requires OneBatchPerProvider(batches)
    ensures ProvidersDiffer(ForClass(batches, classId))
  {
    if batches != [] {
      var init, last := batches[..|batches|-1], batches[|batches|-1];
      ForClassProviders(init, classId);
      var bs := ForClass(init, classId);
      forall i | 0 <= i < |bs| && last.classId == classId ensures bs[i].provider.id != last.provider.id {
        ForClassMeaning(init, classId, bs[i]);
        var k :| 0 <= k < |init| && init[k] == bs[i];
        assert batches[k] == init[k];
      }
    }
  }

  lemma BatchOrders<C(!new)>(bs: seq<Batch<C>>)
    requires ProvidersDiffer(bs)
    ensures Orders(BatchOrder(), Elements(bs)) && Distinct(bs)
  {
    var before := BatchOrder<C>();
    forall x, y | x in Elements(bs) && y in Elements(bs) && x != y ensures before(x, y) != before(y, x) {
      LessTotal(x.provider.id, y.provider.id);
      var i :| 0 <= i < |bs| && bs[i] == x;
      var j :| 0 <= j < |bs| && bs[j] == y;
      assert i < j || j < i;
    }
    forall x | x in Elements(bs) ensures !before(x, x) { LessTotal(x.provider.id, x.provider.id); }
    forall x, y, z | Chain(before, x, y, z) ensures before(x, z) {
      if Less(x.provider.id, y.provider.id) && Less(y.provider.id, z.provider.id) {
        LessTransitive(x.provider.id, y.provider.id, z.provider.id);
      }
    }
  }

  /** The canonical order of a class's batches does not depend on their arrival order. */
  lemma ClassOrderIndependent<C(!new)>(a: seq<Batch<C>>, b: seq<Batch<C>>, classId: Str)
    requires multiset(a) == multiset(b) && OneBatchPerProvider(a)
    ensures SortBatches(ForClass(a, classId)) == SortBatches(ForClass(b, classId))
  {
    var p, q := ForClass(a, classId), ForClass(b, classId);
    forall x ensures multiset(p)[x] == multiset(q)[x] {
      ForClassMeaning(a, classId, x);
      ForClassMeaning(b, classId, x);
    }
    assert multiset(p) == multiset(q);
    ForClassProviders(a, classId);
    BatchOrders(p);
    DistinctPermutation(p, q);
    SortPermutation(BatchOrder(), p, q);
  }

  lemma {:induction false} EntriesOrderIndependent<C(!new)>(
    calls: Calls<C>, rs: seq<Requirement>, a: seq<Batch<C>>, b: seq<Batch<C>>, limits: Limits, now: int)
    requires multiset(a) == multiset(b) && OneBatchPerProvider(a)
    ensures EntriesOf(calls, rs, a, limits, now) == EntriesOf(calls, rs, b, limits, now)
    ensures DiagnosticsOf(calls, rs, a, limits, now) == DiagnosticsOf(calls, rs, b, limits, now)
  {
    if rs != [] {
      EntriesOrderIndependent(calls, rs[..|rs|-1], a, b, limits, now);
      ClassOrderIndependent(a, b, rs[|rs|-1].classId);
    }
  }

  /** Permuting the provider batches changes neither the snapshot nor the diagnostics. */
  lemma OrderIndependence<C(!new)>(
    calls: Calls<C>, rs: seq<Requirement>, a: seq<Batch<C>>, b: seq<Batch<C>>, limits: Limits, now: int)
    requires multiset(a) == multiset(b) && OneBatchPerProvider(a)
    ensures BuildCoverage(calls, rs, a, limits, now) == BuildCoverage(calls, rs, b, limits, now)
  {
    EntriesOrderIndependent(calls, rs, a, b, limits, now);
  }

  // ---- Stale and rejected candidates beside fresh ones ----

  type Choice<!C> = Offer<C> -> bool

  /** The offers that are not dropped. */
  function Kept<C>(drop: Choice<C>, cs: seq<Offer<C>>): seq<Offer<C>> {
    if cs == [] then [] else Kept(drop, cs[..|cs|-1]) + if drop(cs[|cs|-1]) then [] else [cs[|cs|-1]]
  }

  function KeptOf<C>(drop: Choice<C>, p: Provider, cs: seq<C>): seq<C> {
    if cs == [] then [] else KeptOf(drop, p, cs[..|cs|-1]) + if drop((p, cs[|cs|-1])) then [] else [cs[|cs|-1]]
  }

  /** The batch without its dropped candidates. */
  function Without<C>(drop: Choice<C>, b: Batch<C>): Batch<C> {
    b.(candidates := KeptOf(drop, b.provider, b.candidates))
  }

  function Dropper<C>(drop: Choice<C>): Batch<C> -> Batch<C> { b => Without(drop, b) }

  /** Some offer, dropped or not as asked, qualifies under the id. */
  ghost predicate Yields<C>(calls: Calls<C>, r: Requirement, subject: Str, drop: Choice<C>, cs: seq<Offer<C>>, dropped: bool, id: Str) {
    cs != [] &&
    (var q := calls.qualify(cs[|cs|-1].0, r, subject, cs[|cs|-1].1);
     || (drop(cs[|cs|-1]) == dropped && q.Qualified? && q.evidence.id == id)
     || Yields(calls, r, subject, drop, cs[..|cs|-1], dropped, id))
  }

  /** Every dropped offer is rejected, or is stale and has an id of its own. */
  ghost predicate Inert<C>(calls: Calls<C>, r: Requirement, subject: Str, now: int, drop: Choice<C>, cs: seq<Offer<C>>, all: seq<Offer<C>>) {
    cs == [] ||
    (var q := calls.qualify(cs[|cs|-1].0, r, subject, cs[|cs|-1].1);
     && (drop(cs[|cs|-1]) && q.Qualified? ==>
           IsStale(q.evidence, r.maxAge, now) && !Yields(calls, r, subject, drop, all, false, q.evidence.id))
     && Inert(calls, r, subject, now, drop, cs[..|cs|-1], all))
  }

  lemma HasIdExtend(es: seq<Evidence>, e: Evidence, id: Str)
    ensures HasId(es + [e], id) <==> HasId(es, id) || e.id == id
  {
    assert (es + [e])[..|es|] == es;
  }

  lemma {:induction false} QualifiedIds<C(!new)>(calls: Calls<C>, r: Requirement, subject: Str, drop: Choice<C>, cs: seq<Offer<C>>, id: Str)
    ensures HasId(QualifiedOf(calls, r, subject, cs), id)
       <==> Yields(calls, r, subject, drop, cs, false, id) || Yields(calls, r, subject, drop, cs, true, id)
  {
    if cs != [] {
      QualifiedIds(calls, r, subject, drop, cs[..|cs|-1], id);
      var q := calls.qualify(cs[|cs|-1].0, r, subject, cs[|cs|-1].1);
      if q.Qualified? { HasIdExtend(QualifiedOf(calls, r, subject, cs[..|cs|-1]), q.evidence, id); }
    }
  }

  lemma {:induction false} KeptIds<C(!new)>(calls: Calls<C>, r: Requirement, subject: Str, drop: Choice<C>, cs: seq<Offer<C>>, id: Str)
    ensures HasId(QualifiedOf(calls, r, subject, Kept(drop, cs)), id) <==> Yields(calls, r, subject, drop, cs, false, id)
  {
    if cs != [] {
      var kept := Kept(drop, cs[..|cs|-1]);
      KeptIds(calls, r, subject, drop, cs[..|cs|-1], id);
      assert kept + [] == kept && (kept + [cs[|cs|-1]])[..|kept|] == kept;
      var q := calls.qualify(cs[|cs|-1].0, r, subject, cs[|cs|-1].1);
      if q.Qualified? { HasIdExtend(QualifiedOf(calls, r, subject, kept), q.evidence, id); }
    }
  }

  lemma {:induction false} OwnId<C(!new)>(
    calls: Calls<C>, r: Requirement, subject: Str, now: int, drop: Choice<C>, cs: seq<Offer<C>>, all: seq<Offer<C>>, id: Str)
    requires Inert(calls, r, subject, now, drop, cs, all) && Yields(calls, r, subject, drop, cs, true, id)
    ensures !Yields(calls, r, subject, drop, all, false, id)
  {
    var q := calls.qualify(cs[|cs|-1].0, r, subject, cs[|cs|-1].1);
    if !(drop(cs[|cs|-1]) && q.Qualified? && q.evidence.id == id) {
      OwnId(calls, r, subject, now, drop, cs[..|cs|-1], all, id);
    }
  }

  lemma ByStalenessExtend(es: seq<Evidence>, e: Evidence, maxAge: Option<int>, now: int)
    ensures ByStaleness(es + [e], maxAge, now, false)
         == ByStaleness(es, maxAge, now, false) + if IsStale(e, maxAge, now) then [] else [e]
  {
    assert (es + [e])[..|es|] == es;
  }

  /** Whether a kept offer's id has been seen does not depend on the dropped offers before it. */
  lemma SameDecision<C(!new)>(
    calls: Calls<C>, r: Requirement, subject: Str, now: int, drop: Choice<C>, cs: seq<Offer<C>>, n: nat, id: Str)
    requires 0 < n <= |cs| && Inert(calls, r, subject, now, drop, cs[..n-1], cs)
    requires var q := calls.qualify(cs[n-1].0, r, subject, cs[n-1].1); !drop(cs[n-1]) && q.Qualified? && q.evidence.id == id
    ensures HasId(QualifiedOf(calls, r, subject, cs[..n-1]), id)
       <==> HasId(QualifiedOf(calls, r, subject, Kept(drop, cs[..n-1])), id)
  {
    TakeOneMore(cs, n - 1);
    QualifiedIds(calls, r, subject, drop, cs[..n-1], id);
    KeptIds(calls, r, subject, drop, cs[..n-1], id);
    YieldsPrefix(calls, r, subject, drop, cs, n, id);
    if Yields(calls, r, subject, drop, cs[..n-1], true, id) {
      OwnId(calls, r, subject, now, drop, cs[..n-1], cs, id);
    }
  }

  /** One more offer, and the fresh evidence with it. */
  function FreshWith(es: seq<Evidence>, q: Qualification, maxAge: Option<int>, now: int): seq<Evidence> {
    ByStaleness(es, maxAge, now, false)
    + if q.Qualified? && !HasId(es, q.evidence.id) && !IsStale(q.evidence, maxAge, now) then [q.evidence] else []
  }

  lemma QualifiedWith<C(!new)>(calls: Calls<C>, r: Requirement, subject: Str, now: int, cs: seq<Offer<C>>, c: Offer<C>)
    ensures ByStaleness(QualifiedOf(calls, r, subject, cs + [c]), r.maxAge, now, false)
         == FreshWith(QualifiedOf(calls, r, subject, cs), calls.qualify(c.0, r, subject, c.1), r.maxAge, now)
  {
    var q := calls.qualify(c.0, r, subject, c.1);
    assert (cs + [c])[..|cs|] == cs;
    if q.Qualified? { ByStalenessExtend(QualifiedOf(calls, r, subject, cs), q.evidence, r.maxAge, now); }
  }

  lemma KeptWith<C>(drop: Choice<C>, cs: seq<Offer<C>>, c: Offer<C>)
    ensures Kept(drop, cs + [c]) == Kept(drop, cs) + if drop(c) then [] else [c]
  {
    assert (cs + [c])[..|cs|] == cs;
  }

  /** A dropped offer adds no fresh evidence. */
  lemma DroppedAddsNothing<C(!new)>(
    calls: Calls<C>, r: Requirement, subject: Str, now: int, drop: Choice<C>, cs: seq<Offer<C>>, n: nat, es: seq<Evidence>)
    requires 0 < n <= |cs| && Inert(calls, r, subject, now, drop, cs[..n], cs) && drop(cs[n-1])
    ensures FreshWith(es, calls.qualify(cs[n-1].0, r, subject, cs[n-1].1), r.maxAge, now) == ByStaleness(es, r.maxAge, now, false)
  {
    assert cs[..n][n-1] == cs[n-1];
  }

  lemma InertPrefix<C(!new)>(
    calls: Calls<C>, r: Requirement, subject: Str, now: int, drop: Choice<C>, cs: seq<Offer<C>>, n: nat)
    requires 0 < n <= |cs| && Inert(calls, r, subject, now, drop, cs[..n], cs)
    ensures Inert(calls, r, subject, now, drop, cs[..n-1], cs)
  {
    TakeOneMore(cs, n - 1);
  }

  /** The fresh evidence is that of the offers that are kept. */
  lemma {:induction false} FreshIgnoresInert<C(!new)>(
    calls: Calls<C>, r: Requirement, subject: Str, now: int, drop: Choice<C>, cs: seq<Offer<C>>, n: nat)
    requires n <= |cs| && Inert(calls, r, subject, now, drop, cs[..n], cs)
    ensures ByStaleness(QualifiedOf(calls, r, subject, cs[..n]), r.maxAge, now, false)
         == ByStaleness(QualifiedOf(calls, r, subject, Kept(drop, cs[..n])), r.maxAge, now, false)
    decreases n
  {
    if n > 0 {
      var init, last := cs[..n-1], cs[n-1];
      var q := calls.qualify(last.0, r, subject, last.1);
      TakeOneMore(cs, n - 1);
      InertPrefix(calls, r, subject, now, drop, cs, n);
      FreshIgnoresInert(calls, r, subject, now, drop, cs, n - 1);
      QualifiedWith(calls, r, subject, now, init, last);
      KeptWith(drop, init, last);
      if drop(last) {
        DroppedAddsNothing(calls, r, subject, now, drop, cs, n, QualifiedOf(calls, r, subject, init));
        assert Kept(drop, init) + [] == Kept(drop, init);
      } else {
        QualifiedWith(calls, r, subject, now, Kept(drop, init), last);
        if q.Qualified? { SameDecision(calls, r, subject, now, drop, cs, n, q.evidence.id); }
      }
    }
  }

  lemma {:induction false} YieldsPrefix<C(!new)>(
    calls: Calls<C>, r: Requirement, subject: Str, drop: Choice<C>, cs: seq<Offer<C>>, n: nat, id: Str)
    requires n <= |cs|
    ensures Yields(calls, r, subject, drop, cs[..n], false, id) ==> Yields(calls, r, subject, drop, cs, false, id)
    decreases |cs|
  {
    if n < |cs| {
      assert cs[..|cs|-1][..n] == cs[..n];
      YieldsPrefix(calls, r, subject, drop, cs[..|cs|-1], n, id);
    } else {
      assert cs[..n] == cs;
    }
  }

  // ---- The same, from the batches ----

  lemma {:induction false} OffersKept<C(!new)>(drop: Choice<C>, b: Batch<C>)
    ensures Offers(Without(drop, b)) == Kept(drop, Offers(b))
    decreases |b.candidates|
  {
    var cs := b.candidates;
    if cs != [] {
      var shorter := b.(candidates := cs[..|cs|-1]);
      OffersKept(drop, shorter);
      assert Offers(b)[..|cs|-1] == Offers(shorter);
    }
  }

  lemma {:induction false} KeptConcat<C(!new)>(drop: Choice<C>, a: seq<Offer<C>>, b: seq<Offer<C>>)
    ensures Kept(drop, a + b) == Kept(drop, a) + Kept(drop, b)
  {
    if b == [] {
      assert a + b == a;
    } else {
      KeptConcat(drop, a, b[..|b|-1]);
      assert (a + b)[..|a + b|-1] == a + b[..|b|-1];
    }
  }

  lemma {:induction false} CandidatesKept<C(!new)>(drop: Choice<C>, bs: seq<Batch<C>>)
    ensures Candidates(Map(Dropper(drop), bs)) == Kept(drop, Candidates(bs))
  {
    if bs != [] {
      var init, last := bs[..|bs|-1], bs[|bs|-1];
      CandidatesKept(drop, init);
      OffersKept(drop, last);
      KeptConcat(drop, Candidates(init), Offers(last));
      assert Map(Dropper(drop), bs)[..|bs|-1] == Map(Dropper(drop), init);
    }
  }

  lemma {:induction false} ForClassMap<C(!new)>(drop: Choice<C>, batches: seq<Batch<C>>, classId: Str)
    ensures ForClass(Map(Dropper(drop), batches), classId) == Map(Dropper(drop), ForClass(batches, classId))
  {
    if batches != [] {
      ForClassMap(drop, batches[..|batches|-1], classId);
      assert Map(Dropper(drop), batches)[..|batches|-1] == Map(Dropper(drop), batches[..|batches|-1]);
    }
  }

  lemma SortedClassMap<C(!new)>(drop: Choice<C>, batches: seq<Batch<C>>, classId: Str)
    ensures SortBatches(ForClass(Map(Dropper(drop), batches), classId))
         == Map(Dropper(drop), SortBatches(ForClass(batches, classId)))
  {
    ForClassMap(drop, batches, classId);
    SortMap(Dropper(drop), BatchOrder(), BatchOrder(), ForClass(batches, classId));
  }

  /** The fresh evidence of a class whose batches are sorted. */
  function FreshOf<C>(calls: Calls<C>, r: Requirement, bs: seq<Batch<C>>, now: int): seq<Evidence> {
    ByStaleness(QualifiedOf(calls, r, SubjectOf(bs), Candidates(bs)), r.maxAge, now, false)
  }

  lemma EntryOfFresh<C(!new)>(calls: Calls<C>, r: Requirement, batches: seq<Batch<C>>, limits: Limits, now: int)
    requires var bs := SortBatches(ForClass(batches, r.classId));
      LimitViolation(calls, bs, limits).None? && FreshOf(calls, r, bs, now) != []
    ensures var bs := SortBatches(ForClass(batches, r.classId));
      BuildClass(calls, r, batches, limits, now).entry == FreshEntry(r.classId, PrioritiesOf(bs), FreshOf(calls, r, bs, now), now)
  {
  }

  lemma SameBatches<C(!new)>(bs: seq<Batch<C>>, drop: Choice<C>)
    ensures var ks := Map(Dropper(drop), bs); SubjectOf(ks) == SubjectOf(bs) && PrioritiesOf(ks) == PrioritiesOf(bs)
  {
    var ks := Map(Dropper(drop), bs);
    forall i | 0 <= i < |bs| ensures ks[i].provider == bs[i].provider && ks[i].subject == bs[i].subject {}
  }

  lemma AllFreshIgnoresInert<C(!new)>(
    calls: Calls<C>, r: Requirement, subject: Str, now: int, drop: Choice<C>, cs: seq<Offer<C>>)
    requires Inert(calls, r, subject, now, drop, cs, cs)
    ensures ByStaleness(QualifiedOf(calls, r, subject, cs), r.maxAge, now, false)
         == ByStaleness(QualifiedOf(calls, r, subject, Kept(drop, cs)), r.maxAge, now, false)
  {
    assert cs[..|cs|] == cs;
    FreshIgnoresInert(calls, r, subject, now, drop, cs, |cs|);
  }

  lemma FreshOfKept<C(!new)>(calls: Calls<C>, r: Requirement, bs: seq<Batch<C>>, now: int, drop: Choice<C>)
    requires Inert(calls, r, SubjectOf(bs), now, drop, Candidates(bs), Candidates(bs))
    ensures FreshOf(calls, r, Map(Dropper(drop), bs), now) == FreshOf(calls, r, bs, now)
    ensures PrioritiesOf(Map(Dropper(drop), bs)) == PrioritiesOf(bs)
  {
    SameBatches(bs, drop);
    CandidatesKept(drop, bs);
    AllFreshIgnoresInert(calls, r, SubjectOf(bs), now, drop, Candidates(bs));
  }

  /** Dropping candidates that are rejected, or stale under ids of their own, from a class that has fresh evidence
      and is within limits either way leaves its whole entry as it was. */
  lemma InertCandidates<C(!new)>(
    calls: Calls<C>, r: Requirement, batches: seq<Batch<C>>, limits: Limits, now: int, drop: Choice<C>)
    requires var bs := SortBatches(ForClass(batches, r.classId));
      && LimitViolation(calls, bs, limits).None?
      && LimitViolation(calls, Map(Dropper(drop), bs), limits).None?
      && Inert(calls, r, SubjectOf(bs), now, drop, Candidates(bs), Candidates(bs))
      && FreshOf(calls, r, bs, now) != []
    ensures BuildClass(calls, r, Map(Dropper(drop), batches), limits, now).entry == BuildClass(calls, r, batches, limits, now).entry
  {
    var bs := SortBatches(ForClass(batches, r.classId));
    SortedClassMap(drop, batches, r.classId);
    FreshOfKept(calls, r, bs, now, drop);
    EntryOfFresh(calls, r, batches, limits, now);
    EntryOfFresh(calls, r, Map(Dropper(drop), batches), limits, now);
  }

  /** What the builder reports for a class within limits that has fresh evidence is the entry of that evidence,
      and that evidence repeats no id. */
  lemma ClassIsItsFreshEvidence<C(!new)>(calls: Calls<C>, r: Requirement, batches: seq<Batch<C>>, limits: Limits, now: int)
    requires LimitViolation(calls, SortBatches(ForClass(batches, r.classId)), limits).None?
    ensures var bs := SortBatches(ForClass(batches, r.classId));
            var es := FreshOf(calls, r, bs, now);
            Unique(es) && (es != [] ==>
              BuildClass(calls, r, batches, limits, now).entry == FreshEntry(r.classId, PrioritiesOf(bs), es, now))
  {
    var bs := SortBatches(ForClass(batches, r.classId));
    QualifiedUnique(calls, r, SubjectOf(bs), Candidates(bs));
    ByStalenessUnique(QualifiedOf(calls, r, SubjectOf(bs), Candidates(bs)), r.maxAge, now, false);
  }

  // ---- The contract of an entry ----

  /** The status rules of a coverage entry. */
  ghost predicate MeetsContract(e: Entry) {
    && Ascending(Less, e.ids)
    && (e.conflictIds.Some? ==> Ascending(Less, e.conflictIds.value))
    && (e.status != Conflicted ==> e.conflictIds.None?)
    && (e.status != Stale ==> e.staleSince.None?)
    && match e.status
       case Missing => e.ids == []
       case Conflicted => e.ids != [] && ConflictIds(e) != {} && Elements(e.ids) !! ConflictIds(e)
       case Stale => e.ids != [] && e.staleSince.Some?
       case _ => e.ids != []
  }

  lemma NonEmptyIds(ids: seq<Str>)
    ensures SortStrings(ids) == [] <==> ids == []
    ensures Ascending(Less, SortStrings(ids))
  {
    SortStringsMeaning(ids);
    NoElements(ids);
    NoElements(SortStrings(ids));
  }

  lemma FreshMeetsContract(classId: Str, prio: Priorities, es: seq<Evidence>, now: int)
    requires Unique(es) && es != []
    ensures MeetsContract(FreshEntry(classId, prio, es, now))
  {
    ListsAscending(classId, prio, es, now);
    ConflictPartition(classId, prio, es, now);
    ConflictedExactly(classId, prio, es, now);
    var x := es[0];
    PrimaryOfMeaning(prio, es, x, x);
    var p := PrimaryOf(prio, es, x);
    ItemSide(classId, prio, es, now, p);
    assert PrimaryOf(prio, es, p) == p;
  }

  lemma StaleUnlessFresh(es: seq<Evidence>, maxAge: Option<int>, now: int)
    requires es != [] && ByStaleness(es, maxAge, now, false) == []
    ensures ByStaleness(es, maxAge, now, true) != []
  {
    ByStalenessMeaning(es, maxAge, now, false, es[0]);
    ByStalenessMeaning(es, maxAge, now, true, es[0]);
  }

  /** Every entry the builder emits obeys the status rules, so the snapshot schema never rejects one for them. */
  lemma EntryMeetsContract<C(!new)>(calls: Calls<C>, r: Requirement, batches: seq<Batch<C>>, limits: Limits, now: int)
    ensures MeetsContract(BuildClass(calls, r, batches, limits, now).entry)
  {
    var bs := SortBatches(ForClass(batches, r.classId));
    var cs := Candidates(bs);
    var violation := LimitViolation(calls, bs, limits);
    if violation.Some? {
      NonEmptyIds(LimitIds(calls, r.classId, SubjectOf(bs), bs));
    } else {
      QualifiedUnique(calls, r, SubjectOf(bs), cs);
      BuiltMeetsContract(r, PrioritiesOf(bs), QualifiedOf(calls, r, SubjectOf(bs), cs), RejectedOf(calls, r, SubjectOf(bs), cs), now);
    }
  }

  lemma BuiltMeetsContract(
    r: Requirement, prio: Priorities, qualified: seq<Evidence>, rejected: seq<Qualification>, now: int)
    requires Unique(qualified)
    ensures MeetsContract(BuildEntry(r, prio, qualified, rejected, now))
  {
    var current := ByStaleness(qualified, r.maxAge, now, false);
    if qualified == [] {
      NonEmptyIds(ReferenceIds(rejected));
    } else if current == [] {
      StaleUnlessFresh(qualified, r.maxAge, now);
      NonEmptyIds(IdsOf(ByStaleness(qualified, r.maxAge, now, true)));
    } else {
      ByStalenessUnique(qualified, r.maxAge, now, false);
      FreshMeetsContract(r.classId, prio, current, now);
    }
  }

  // ---- The size limits of the snapshot ----

  lemma SortStringsSize(ids: seq<Str>)
    ensures |SortStrings(ids)| == |Elements(ids)| <= |ids|
  {
    DedupeElements(ids);
    ElementsSize(Dedupe(ids));
    ElementsSize(ids);
    SameElements(SortStrings(ids), Dedupe(ids));
  }

  lemma {:induction false} ByStalenessSize(es: seq<Evidence>, maxAge: Option<int>, now: int, stale: bool)
    ensures |ByStaleness(es, maxAge, now, stale)| <= |es|
  {
    if es != [] { ByStalenessSize(es[..|es|-1], maxAge, now, stale); }
  }

  lemma {:induction false} QualificationSizes<C(!new)>(calls: Calls<C>, r: Requirement, subject: Str, cs: seq<Offer<C>>)
    ensures |QualifiedOf(calls, r, subject, cs)| <= |cs| && |RejectedOf(calls, r, subject, cs)| <= |cs|
  {
    if cs != [] { QualificationSizes(calls, r, subject, cs[..|cs|-1]); }
  }

  lemma {:induction false} CandidatesSize<C(!new)>(bs: seq<Batch<C>>)
    ensures |Candidates(bs)| == CandidateCount(bs)
  {
    if bs != [] { CandidatesSize(bs[..|bs|-1]); }
  }

  /** The ids of the fresh items whose digest is that of their claim key's primary, or of those whose digest is not. */
  function SideOf(prio: Priorities, es: seq<Evidence>, agree: bool): set<Str> {
    set x | x in es && (x.digest == PrimaryOf(prio, es, x).digest) == agree :: x.id
  }

  lemma FreshLists(classId: Str, prio: Priorities, es: seq<Evidence>, now: int)
    requires Unique(es)
    ensures var e := FreshEntry(classId, prio, es, now);
      Elements(e.ids) == SideOf(prio, es, true) && ConflictIds(e) == SideOf(prio, es, false)
  {
    var e := FreshEntry(classId, prio, es, now);
    ListedKnown(classId, prio, es, now);
    forall id | id in Elements(IdsOf(es)) ensures id in Elements(e.ids) <==> id in SideOf(prio, es, true) {
      FreshListsAt(classId, prio, es, now, id);
    }
    forall id | id in Elements(IdsOf(es)) ensures id in ConflictIds(e) <==> id in SideOf(prio, es, false) {
      FreshListsAt(classId, prio, es, now, id);
    }
    SideOfKnown(prio, es, true);
    SideOfKnown(prio, es, false);
  }

  lemma SideOfKnown(prio: Priorities, es: seq<Evidence>, agree: bool)
    ensures SideOf(prio, es, agree) <= Elements(IdsOf(es))
  {
    forall x | x in es ensures x.id in IdsOf(es) { HasIdMeaning(es, x.id); }
  }

  lemma FreshListsAt(classId: Str, prio: Priorities, es: seq<Evidence>, now: int, id: Str)
    requires Unique(es) && id in IdsOf(es)
    ensures var e := FreshEntry(classId, prio, es, now);
      (id in e.ids <==> id in SideOf(prio, es, true)) && (id in ConflictIds(e) <==> id in SideOf(prio, es, false))
  {
    var i :| 0 <= i < |es| && es[i].id == id;
    ItemSide(classId, prio, es, now, es[i]);
    forall y | y in es && y.id == id ensures y == es[i] { UniqueMeaning(es, es[i], y); }
  }

  lemma FreshSize(classId: Str, prio: Priorities, es: seq<Evidence>, now: int)
    requires Unique(es)
    ensures EntryFits(FreshEntry(classId, prio, es, now)) <==>
        |SideOf(prio, es, true)| <= MAX_ENTRY_IDS && |SideOf(prio, es, false)| <= MAX_ENTRY_IDS
  {
    var gs := Groups(es);
    FreshLists(classId, prio, es, now);
    EntryIds(classId, prio, es, now);
    SortStringsSize(IdsOf(Side(prio, gs, true)));
    SortStringsSize(IdsOf(Side(prio, gs, false)));
    SortStringsSize(IdsOf(es));
  }

  /** What must stay within a thousand, by the status of the entry. */
  predicate InputFits(r: Requirement, prio: Priorities, qualified: seq<Evidence>, rejected: seq<Qualification>, now: int) {
    var current := ByStaleness(qualified, r.maxAge, now, false);
    if qualified == [] then |Elements(ReferenceIds(rejected))| <= MAX_ENTRY_IDS
    else if current == [] then |qualified| <= MAX_ENTRY_IDS
    else |SideOf(prio, current, true)| <= MAX_ENTRY_IDS && |SideOf(prio, current, false)| <= MAX_ENTRY_IDS
  }

  lemma {:induction false} StaleIsAll(es: seq<Evidence>, maxAge: Option<int>, now: int)
    requires ByStaleness(es, maxAge, now, false) == []
    ensures ByStaleness(es, maxAge, now, true) == es
  {
    if es != [] { StaleIsAll(es[..|es|-1], maxAge, now); }
  }

  lemma UniqueIds(es: seq<Evidence>)
    requires Unique(es)
    ensures |Elements(IdsOf(es))| == |es|
  {
    UniqueDistinct(es);
    forall i, j | 0 <= i < j < |es| ensures IdsOf(es)[i] != IdsOf(es)[j] {
      assert es[i] != es[j];
      if es[i].id == es[j].id { UniqueMeaning(es, es[i], es[j]); }
    }
    ElementsSize(IdsOf(es));
  }

  lemma BuiltSize(r: Requirement, prio: Priorities, qualified: seq<Evidence>, rejected: seq<Qualification>, now: int)
    requires Unique(qualified)
    ensures EntryFits(BuildEntry(r, prio, qualified, rejected, now)) <==> InputFits(r, prio, qualified, rejected, now)
  {
    var current := ByStaleness(qualified, r.maxAge, now, false);
    if qualified == [] {
      SortStringsSize(ReferenceIds(rejected));
      SortStringsSize([]);
    } else if current == [] {
      StaleIsAll(qualified, r.maxAge, now);
      UniqueIds(qualified);
      SortStringsSize(IdsOf(qualified));
    } else {
      ByStalenessUnique(qualified, r.maxAge, now, false);
      FreshSize(r.classId, prio, current, now);
    }
  }

  /** Whether the schema takes the entry of a class: an over-limit class may have a thousand different ids. */
  predicate ClassFits<C>(calls: Calls<C>, r: Requirement, batches: seq<Batch<C>>, limits: Limits, now: int) {
    var bs := SortBatches(ForClass(batches, r.classId));
    var cs, subject := Candidates(bs), SubjectOf(bs);
    if LimitViolation(calls, bs, limits).Some? then
      |Elements(LimitIds(calls, r.classId, subject, bs))| <= MAX_ENTRY_IDS
    else
      InputFits(r, PrioritiesOf(bs), QualifiedOf(calls, r, subject, cs), RejectedOf(calls, r, subject, cs), now)
  }

  lemma EntryFitsExactly<C(!new)>(calls: Calls<C>, r: Requirement, batches: seq<Batch<C>>, limits: Limits, now: int)
    ensures EntryFits(BuildClass(calls, r, batches, limits, now).entry) <==> ClassFits(calls, r, batches, limits, now)
  {
    var bs := SortBatches(ForClass(batches, r.classId));
    var cs, subject := Candidates(bs), SubjectOf(bs);
    if LimitViolation(calls, bs, limits).Some? {
      SortStringsSize(LimitIds(calls, r.classId, subject, bs));
    } else {
      QualifiedUnique(calls, r, subject, cs);
      BuiltSize(r, PrioritiesOf(bs), QualifiedOf(calls, r, subject, cs), RejectedOf(calls, r, subject, cs), now);
    }
  }

  lemma FewFit(r: Requirement, prio: Priorities, qualified: seq<Evidence>, rejected: seq<Qualification>, now: int)
    requires |qualified| <= MAX_ENTRY_IDS && |rejected| <= MAX_ENTRY_IDS
    ensures InputFits(r, prio, qualified, rejected, now)
  {
    var current := ByStaleness(qualified, r.maxAge, now, false);
    ElementsSize(ReferenceIds(rejected));
    ByStalenessSize(qualified, r.maxAge, now, false);
    ElementsSize(IdsOf(current));
    SideOfKnown(prio, current, true);
    SideOfKnown(prio, current, false);
    SubsetSize(SideOf(prio, current, true), Elements(IdsOf(current)));
    SubsetSize(SideOf(prio, current, false), Elements(IdsOf(current)));
  }

  /** Within limits of at most a thousand candidates, as the default ones are, every class fits. */
  lemma WithinLimitsFits<C(!new)>(calls: Calls<C>, r: Requirement, batches: seq<Batch<C>>, limits: Limits, now: int)
    requires limits.candidatesTotal <= MAX_ENTRY_IDS
    requires LimitViolation(calls, SortBatches(ForClass(batches, r.classId)), limits).None?
    ensures ClassFits(calls, r, batches, limits, now)
  {
    var bs := SortBatches(ForClass(batches, r.classId));
    var cs, subject := Candidates(bs), SubjectOf(bs);
    CandidatesSize(bs);
    QualificationSizes(calls, r, subject, cs);
    FewFit(r, PrioritiesOf(bs), QualifiedOf(calls, r, subject, cs), RejectedOf(calls, r, subject, cs), now);
  }

  lemma {:induction false} EntriesSize<C(!new)>(
    calls: Calls<C>, rs: seq<Requirement>, batches: seq<Batch<C>>, limits: Limits, now: int)
    ensures |EntriesOf(calls, rs, batches, limits, now)| == |rs|
  {
    if rs != [] { EntriesSize(calls, rs[..|rs|-1], batches, limits, now); }
  }

  lemma {:induction false} EntriesAt<C(!new)>(
    calls: Calls<C>, rs: seq<Requirement>, batches: seq<Batch<C>>, limits: Limits, now: int, i: nat, e: Entry)
    requires i < |rs| == |EntriesOf(calls, rs, batches, limits, now)|
    requires e == BuildClass(calls, rs[i], batches, limits, now).entry
    ensures EntriesOf(calls, rs, batches, limits, now)[i] == e
  {
    if i < |rs| - 1 {
      var init := rs[..|rs|-1];
      EntriesSize(calls, init, batches, limits, now);
      assert init[i] == rs[i];
      EntriesAt(calls, init, batches, limits, now, i, e);
    }
  }

  /** The builder throws on the snapshot it built exactly when a required class does not fit or more than a thousand
      classes are required. */
  lemma RejectedExactly<C(!new)>(calls: Calls<C>, rs: seq<Requirement>, batches: seq<Batch<C>>, limits: Limits, now: int)
    ensures BuildCoverage(calls, rs, batches, limits, now) == SnapshotRejected <==>
      && |ClassIds(rs)| == |rs|
      && (|rs| > 1000 || exists i :: 0 <= i < |rs| && !ClassFits(calls, rs[i], batches, limits, now))
  {
    var es := EntriesOf(calls, rs, batches, limits, now);
    EntriesSize(calls, rs, batches, limits, now);
    forall i | 0 <= i < |rs| ensures EntryFits(es[i]) <==> ClassFits(calls, rs[i], batches, limits, now) {
      EntriesAt(calls, rs, batches, limits, now, i, BuildClass(calls, rs[i], batches, limits, now).entry);
      EntryFitsExactly(calls, rs[i], batches, limits, now);
    }
    assert SnapshotFits(es) <==>
        |rs| <= MAX_SNAPSHOT_ENTRIES && forall i :: 0 <= i < |rs| ==> ClassFits(calls, rs[i], batches, limits, now);
  }

  const DEFAULT_LIMITS := Limits(16, 100, 500, 16384, 100)

  lemma SingleBatch<C(!new)>(b: Batch<C>)
    ensures SortBatches(ForClass([b], b.classId)) == [b] && Candidates([b]) == Offers(b)
    ensures forall bound :: OverfullBatch([b], bound).Some? <==> |b.candidates| > bound
  {
    assert [b][..0] == [];
    assert ForClass([b], b.classId) == [b];
  }

  lemma OneRejected<C(!new)>(calls: Calls<C>, r: Requirement, batches: seq<Batch<C>>, limits: Limits, now: int)
    requires !ClassFits(calls, r, batches, limits, now)
    ensures BuildCoverage(calls, [r], batches, limits, now) == SnapshotRejected
  {
    var rs := [r];
    assert !ClassFits(calls, rs[0], batches, limits, now);
    assert ClassIds(rs) == {r.classId};
    RejectedExactly(calls, rs, batches, limits, now);
  }

  lemma CrowdDoesNotFit<C(!new)>(calls: Calls<C>, r: Requirement, b: Batch<C>, limits: Limits, now: int)
    requires r.classId == b.classId && limits.candidatesPerBatch < |b.candidates| && limits.providersPerClass > 0
    requires |Elements(LimitIds(calls, b.classId, b.subject, [b]))| > MAX_ENTRY_IDS
    ensures !ClassFits(calls, r, [b], limits, now)
  {
    SingleBatch(b);
  }

  /** By default more than a thousand different candidates of one provider make the builder throw, where an entry
      that fails closed was promised. */
  lemma OverLimitThrows<C(!new)>(calls: Calls<C>, b: Batch<C>, maxAge: Option<int>, now: int)
    requires |b.candidates| > MAX_ENTRY_IDS
    requires Distinct(LimitIds(calls, b.classId, b.subject, [b]))
    ensures BuildCoverage(calls, [Requirement(b.classId, maxAge)], [b], DEFAULT_LIMITS, now) == SnapshotRejected
  {
    SingleBatch(b);
    ElementsSize(LimitIds(calls, b.classId, b.subject, [b]));
    CrowdDoesNotFit(calls, Requirement(b.classId, maxAge), b, DEFAULT_LIMITS, now);
    OneRejected(calls, Requirement(b.classId, maxAge), [b], DEFAULT_LIMITS, now);
  }
}
