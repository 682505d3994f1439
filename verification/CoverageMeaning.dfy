/** A built coverage entry in terms of the batches it was built from: which batch comes first, whose item is trusted,
    which status, level and time an entry gets, and what the limits are. */
module CoverageMeaning {
  import opened CoverageBuilder
  import opened CoverageTheorems
  import opened EvidenceContracts
  import opened JsText
  import opened Options
  import opened Sorting

  // ---- The canonical order ----

  /** The higher priority first; between equal ones, the lesser provider id. */
  predicate ComesFirst(a: Provider, b: Provider) { a.priority > b.priority || (a.priority == b.priority && Less(a.id, b.id)) }

  function ClassBatches<C>(batches: seq<Batch<C>>, classId: Str): seq<Batch<C>> { SortBatches(ForClass(batches, classId)) }

  lemma ClassBatchesAre<C(!new)>(batches: seq<Batch<C>>, classId: Str, b: Batch<C>)
    ensures b in ClassBatches(batches, classId) <==> b in batches && b.classId == classId
  {
    SameElements(ClassBatches(batches, classId), ForClass(batches, classId));
    ForClassMeaning(batches, classId, b);
  }

  lemma OtherProvider<C(!new)>(bs: seq<Batch<C>>, x: Batch<C>, y: Batch<C>)
    requires ProvidersDiffer(bs) && x in bs && y in bs && x != y
    ensures x.provider.id != y.provider.id
  {
    var k :| 0 <= k < |bs| && bs[k] == x;
    var l :| 0 <= l < |bs| && bs[l] == y;
    assert k < l || l < k;
  }

  /** The batches of a class in canonical order. */
  lemma CanonicalOrder<C(!new)>(batches: seq<Batch<C>>, classId: Str)
    requires OneBatchPerProvider(batches)
    ensures var bs := ClassBatches(batches, classId);
      ProvidersDiffer(bs) && forall i, j :: 0 <= i < j < |bs| ==> ComesFirst(bs[i].provider, bs[j].provider)
  {
    var bs, given := ClassBatches(batches, classId), ForClass(batches, classId);
    ForClassProviders(batches, classId);
    BatchOrders(given);
    SortAscending(BatchOrder(), given, Elements(given));
    SameElements(bs, given);
    forall i, j | 0 <= i < j < |bs|
      ensures ComesFirst(bs[i].provider, bs[j].provider) && bs[i].provider.id != bs[j].provider.id
    {
      assert BatchOrder<C>()(bs[i], bs[j]);
      assert bs[i] in bs && bs[j] in bs;
      LessTotal(bs[i].provider.id, bs[i].provider.id);
      OtherProvider(given, bs[i], bs[j]);
    }
  }

  lemma {:induction false} PriorityAt(prio: Priorities, i: nat)
    requires i < |prio| && forall j :: i < j < |prio| ==> prio[j].id != prio[i].id
    ensures PriorityOf(prio, prio[i].id) == prio[i].priority
  {
    if i < |prio| - 1 { PriorityAt(prio[..|prio|-1], i); }
  }

  /** The priority used for a provider is that of its batch. */
  lemma PriorityOfBatch<C(!new)>(batches: seq<Batch<C>>, classId: Str, b: Batch<C>)
    requires OneBatchPerProvider(batches) && b in batches && b.classId == classId
    ensures PriorityOf(PrioritiesOf(ClassBatches(batches, classId)), b.provider.id) == b.provider.priority
  {
    var bs := ClassBatches(batches, classId);
    CanonicalOrder(batches, classId);
    ClassBatchesAre(batches, classId, b);
    var i :| 0 <= i < |bs| && bs[i] == b;
    PriorityAt(PrioritiesOf(bs), i);
  }

  /** A provider without a batch of the class has the least priority. */
  lemma {:induction false} PriorityOfUnknown(prio: Priorities, provider: Str)
    requires forall i :: 0 <= i < |prio| ==> prio[i].id != provider
    ensures PriorityOf(prio, provider) == 0
  {
    if prio != [] { PriorityOfUnknown(prio[..|prio|-1], provider); }
  }

  // ---- The candidates that count ----

  lemma {:induction false} OffersMeaning<C(!new)>(bs: seq<Batch<C>>, o: Offer<C>)
    ensures o in Candidates(bs) <==> exists b, i :: b in bs && 0 <= i < |b.candidates| && o == (b.provider, b.candidates[i])
  {
    if bs != [] {
      var init, last := bs[..|bs|-1], bs[|bs|-1];
      OffersMeaning(init, o);
      assert bs == init + [last];
      if o in Offers(last) { var i :| 0 <= i < |Offers(last)| && Offers(last)[i] == o; assert last in bs; }
      if b, i :| b in bs && 0 <= i < |b.candidates| && o == (b.provider, b.candidates[i]) && b !in init {
        assert Offers(last)[i] == o;
      }
    }
  }

  /** Candidate `k` qualifies with this evidence, and none before it does with the same id. */
  ghost predicate FirstOfItsId<C>(calls: Calls<C>, r: Requirement, subject: Str, cs: seq<Offer<C>>, k: int, e: Evidence) {
    && 0 <= k < |cs| && QualifiesAs(calls, r, subject, cs[k], e)
    && forall i :: 0 <= i < k ==> !QualifiesWithId(calls, r, subject, cs[i], e.id)
  }

  ghost predicate QualifiesAs<C>(calls: Calls<C>, r: Requirement, subject: Str, o: Offer<C>, e: Evidence) {
    var q := calls.qualify(o.0, r, subject, o.1);
    q.Qualified? && q.evidence == e
  }

  ghost predicate QualifiesWithId<C>(calls: Calls<C>, r: Requirement, subject: Str, o: Offer<C>, id: Str) {
    var q := calls.qualify(o.0, r, subject, o.1);
    q.Qualified? && q.evidence.id == id
  }

  lemma {:induction false} KeptIdMeaning<C(!new)>(calls: Calls<C>, r: Requirement, subject: Str, cs: seq<Offer<C>>, id: Str)
    ensures HasId(QualifiedOf(calls, r, subject, cs), id) <==> exists k :: 0 <= k < |cs| && QualifiesWithId(calls, r, subject, cs[k], id)
  {
    if cs != [] {
      var init, n := cs[..|cs|-1], |cs| - 1;
      var before, q := QualifiedOf(calls, r, subject, init), calls.qualify(cs[n].0, r, subject, cs[n].1);
      KeptIdMeaning(calls, r, subject, init, id);
      assert forall k :: 0 <= k < n ==> init[k] == cs[k];
      if q.Qualified? { assert (before + [q.evidence])[..|before|] == before; }
    }
  }

  /** The evidence that counts: of candidates with one id, the first in canonical order. */
  lemma {:induction false} QualifiedExactly<C(!new)>(calls: Calls<C>, r: Requirement, subject: Str, cs: seq<Offer<C>>, e: Evidence)
    ensures e in QualifiedOf(calls, r, subject, cs) <==> exists k :: FirstOfItsId(calls, r, subject, cs, k, e)
  {
    if cs != [] {
      var init, n := cs[..|cs|-1], |cs| - 1;
      QualifiedExactly(calls, r, subject, init, e);
      KeptIdMeaning(calls, r, subject, init, e.id);
      assert forall k :: 0 <= k < n ==> init[k] == cs[k];
      forall k | 0 <= k < n ensures FirstOfItsId(calls, r, subject, init, k, e) <==> FirstOfItsId(calls, r, subject, cs, k, e) {}
      if QualifiesAs(calls, r, subject, cs[n], e) && !HasId(QualifiedOf(calls, r, subject, init), e.id) {
        assert FirstOfItsId(calls, r, subject, cs, n, e);
      }
    }
  }

  /** The fresh evidence of a class. */
  ghost predicate IsFresh<C>(calls: Calls<C>, r: Requirement, bs: seq<Batch<C>>, now: int, e: Evidence) {
    && (exists k :: FirstOfItsId(calls, r, SubjectOf(bs), Candidates(bs), k, e))
    && (r.maxAge.Some? ==> now - e.observedAt <= r.maxAge.value)
  }

  lemma FreshExactly<C(!new)>(calls: Calls<C>, r: Requirement, bs: seq<Batch<C>>, now: int, e: Evidence)
    ensures e in FreshOf(calls, r, bs, now) <==> IsFresh(calls, r, bs, now, e)
  {
    QualifiedExactly(calls, r, SubjectOf(bs), Candidates(bs), e);
    ByStalenessMeaning(QualifiedOf(calls, r, SubjectOf(bs), Candidates(bs)), r.maxAge, now, false, e);
  }

  // ---- Whose item is trusted ----

  /** The item `p` of the first provider goes before the item `y` of the second. */
  predicate Beats(a: Provider, p: Evidence, b: Provider, y: Evidence) {
    a.priority > b.priority || (a.priority == b.priority && Less(p.id, y.id))
  }

  /** The item comes from a batch of the class that `p`, from the batch `b`, goes before. */
  ghost predicate BeatenBy<C>(batches: seq<Batch<C>>, classId: Str, b: Batch<C>, p: Evidence, y: Evidence) {
    exists c :: c in batches && c.classId == classId && c.provider.id == y.provider && Beats(b.provider, p, c.provider, y)
  }

  lemma BeatenPreferred<C(!new)>(batches: seq<Batch<C>>, classId: Str, b: Batch<C>, p: Evidence, y: Evidence)
    requires OneBatchPerProvider(batches) && b in batches && b.classId == classId && b.provider.id == p.provider
    requires BeatenBy(batches, classId, b, p, y)
    ensures Preferred(PrioritiesOf(ClassBatches(batches, classId)), p, y)
  {
    var c :| c in batches && c.classId == classId && c.provider.id == y.provider && Beats(b.provider, p, c.provider, y);
    PriorityOfBatch(batches, classId, b);
    PriorityOfBatch(batches, classId, c);
  }

  lemma PreferredIsPrimary(prio: Priorities, es: seq<Evidence>, p: Evidence, x: Evidence)
    requires Unique(es) && p in es && x in es && x.claimKey == p.claimKey
    requires forall y :: y in es && y.claimKey == p.claimKey && y != p ==> Preferred(prio, p, y)
    ensures PrimaryOf(prio, es, x) == p
  {
    var q := PrimaryOf(prio, es, x);
    PrimaryOfMeaning(prio, es, x, p);
    if q != p { LessTotal(q.id, p.id); }
  }

  /** The trusted item of a claim key is the one whose batch has the highest priority, and among those of one priority
      the one with the least id: it is listed with the evidence. The other fresh items of the key are listed with it when
      they have its digest, and with the conflicts when they do not. */
  lemma TrustedListed<C(!new)>(
    calls: Calls<C>, r: Requirement, batches: seq<Batch<C>>, limits: Limits, now: int, b: Batch<C>, p: Evidence)
    requires OneBatchPerProvider(batches) && b in batches && b.classId == r.classId && b.provider.id == p.provider
    requires LimitViolation(calls, ClassBatches(batches, r.classId), limits).None?
    requires IsFresh(calls, r, ClassBatches(batches, r.classId), now, p)
    requires forall y :: IsFresh(calls, r, ClassBatches(batches, r.classId), now, y) && y.claimKey == p.claimKey && y != p ==>
               BeatenBy(batches, r.classId, b, p, y)
    ensures var e := BuildClass(calls, r, batches, limits, now).entry;
      && p.id in e.ids && p.id !in ConflictIds(e)
      && forall x :: IsFresh(calls, r, ClassBatches(batches, r.classId), now, x) && x.claimKey == p.claimKey ==>
           (x.id in e.ids <==> x.digest == p.digest) && (x.id in ConflictIds(e) <==> x.digest != p.digest)
  {
    var bs := ClassBatches(batches, r.classId);
    var es, prio := FreshOf(calls, r, bs, now), PrioritiesOf(bs);
    ClassIsItsFreshEvidence(calls, r, batches, limits, now);
    FreshExactly(calls, r, bs, now, p);
    forall y | y in es && y.claimKey == p.claimKey && y != p ensures Preferred(prio, p, y) {
      FreshExactly(calls, r, bs, now, y);
      BeatenPreferred(batches, r.classId, b, p, y);
    }
    forall x | IsFresh(calls, r, bs, now, x) && x.claimKey == p.claimKey
      ensures var e := FreshEntry(r.classId, prio, es, now);
        (x.id in e.ids <==> x.digest == p.digest) && (x.id in ConflictIds(e) <==> x.digest != p.digest)
    {
      FreshExactly(calls, r, bs, now, x);
      PreferredIsPrimary(prio, es, p, x);
      ItemSide(r.classId, prio, es, now, x);
    }
  }

  // ---- Levels and times ----

  predicate AtMost(a: Level, b: Level) {
    match a
    case NoVerification => true
    case Asserted => b == Asserted || b == Verified
    case Verified => b == Verified
  }

  /** The highest level among the items; none for no items. */
  ghost predicate IsHighest(l: Level, es: seq<Evidence>) {
    && (forall e :: e in es ==> AtMost(e.level, l))
    && (l == NoVerification || exists e :: e in es && e.level == l)
  }

  lemma {:induction false} HighestMeaning(es: seq<Evidence>)
    ensures IsHighest(Highest(es), es)
  {
    if es != [] {
      var init, last := es[..|es|-1], es[|es|-1];
      HighestMeaning(init);
      assert es == init + [last];
      if Highest(es) != NoVerification && Highest(es) == Highest(init) {
        var e :| e in init && e.level == Highest(init);
        assert e in es;
      }
    }
  }

  lemma {:induction false} WithIdsMeaning(es: seq<Evidence>, ids: seq<Str>, x: Evidence)
    ensures x in WithIds(es, ids) <==> x in es && x.id in ids
  {
    if es != [] {
      assert es == es[..|es|-1] + [es[|es|-1]];
      WithIdsMeaning(es[..|es|-1], ids, x);
    }
  }

  /** The earliest of the times at which the items became stale. */
  lemma {:induction false} EarliestStaleMeaning(es: seq<Evidence>, maxAge: int)
    ensures EarliestStale(es, maxAge).Some? <==> es != []
    ensures es != [] ==> exists e :: e in es && EarliestStale(es, maxAge) == Some(e.observedAt + maxAge)
    ensures forall e :: e in es ==> EarliestStale(es, maxAge).value <= e.observedAt + maxAge
  {
    if es != [] {
      var init, last := es[..|es|-1], es[|es|-1];
      EarliestStaleMeaning(init, maxAge);
      assert es == init + [last];
      if EarliestStale(es, maxAge) == EarliestStale(init, maxAge) {
        var e :| e in init && EarliestStale(init, maxAge) == Some(e.observedAt + maxAge);
        assert e in es;
      } else {
        assert last in es;
      }
    }
  }

  // ---- The entry of a class ----

  /** Every candidate of the class is rejected. */
  ghost predicate AllRejected<C>(calls: Calls<C>, r: Requirement, bs: seq<Batch<C>>) {
    forall k :: 0 <= k < |Candidates(bs)| ==> calls.qualify(Candidates(bs)[k].0, r, SubjectOf(bs), Candidates(bs)[k].1).Rejected?
  }

  lemma {:induction false} NoneQualified<C(!new)>(calls: Calls<C>, r: Requirement, subject: Str, cs: seq<Offer<C>>)
    ensures QualifiedOf(calls, r, subject, cs) == [] <==> forall k :: 0 <= k < |cs| ==> calls.qualify(cs[k].0, r, subject, cs[k].1).Rejected?
    ensures |QualifiedOf(calls, r, subject, cs)| + |RejectedOf(calls, r, subject, cs)| == 0 <==> cs == []
  {
    if cs != [] {
      NoneQualified(calls, r, subject, cs[..|cs|-1]);
      assert forall k :: 0 <= k < |cs| - 1 ==> cs[..|cs|-1][k] == cs[k];
      KeptIdMeaning(calls, r, subject, cs[..|cs|-1], []);
    }
  }

  /** The status of a class within limits: missing without candidates; unverified when all are rejected; stale when some
      qualify and none is fresh; conflicted when two fresh items of one claim key differ; present otherwise. */
  lemma StatusExactly<C(!new)>(calls: Calls<C>, r: Requirement, batches: seq<Batch<C>>, limits: Limits, now: int)
    requires LimitViolation(calls, ClassBatches(batches, r.classId), limits).None?
    ensures var bs, e := ClassBatches(batches, r.classId), BuildClass(calls, r, batches, limits, now).entry;
      && e.classId == r.classId && e.checkedAt == now
      && e.status ==
         if Candidates(bs) == [] then Missing
         else if AllRejected(calls, r, bs) then Unverified
         else if forall x :: !IsFresh(calls, r, bs, now, x) then Stale
         else if exists x, y :: IsFresh(calls, r, bs, now, x) && IsFresh(calls, r, bs, now, y) && x.claimKey == y.claimKey && x.digest != y.digest
         then Conflicted
         else Present
  {
    var bs := ClassBatches(batches, r.classId);
    var es := FreshOf(calls, r, bs, now);
    NoneQualified(calls, r, SubjectOf(bs), Candidates(bs));
    NoneFresh(calls, r, bs, now);
    if es != [] {
      ClassIsItsFreshEvidence(calls, r, batches, limits, now);
      ConflictedExactly(r.classId, PrioritiesOf(bs), es, now);
      TwoFresh(calls, r, bs, now);
    }
  }

  lemma TwoFresh<C(!new)>(calls: Calls<C>, r: Requirement, bs: seq<Batch<C>>, now: int)
    ensures SomeKeyHasTwoDigests(FreshOf(calls, r, bs, now)) <==>
      exists x, y :: IsFresh(calls, r, bs, now, x) && IsFresh(calls, r, bs, now, y) && x.claimKey == y.claimKey && x.digest != y.digest
  {
    var es := FreshOf(calls, r, bs, now);
    forall x ensures x in es <==> IsFresh(calls, r, bs, now, x) { FreshExactly(calls, r, bs, now, x); }
    if x, y :| IsFresh(calls, r, bs, now, x) && IsFresh(calls, r, bs, now, y) && x.claimKey == y.claimKey && x.digest != y.digest {
      assert Disagree(es, x, y);
    }
    if SomeKeyHasTwoDigests(es) { var x, y :| Disagree(es, x, y); }
  }

  /** The level of fresh evidence is the highest among the items listed with the evidence. */
  lemma FreshLevel<C(!new)>(calls: Calls<C>, r: Requirement, batches: seq<Batch<C>>, limits: Limits, now: int)
    requires LimitViolation(calls, ClassBatches(batches, r.classId), limits).None?
    requires exists x :: IsFresh(calls, r, ClassBatches(batches, r.classId), now, x)
    ensures var bs, e := ClassBatches(batches, r.classId), BuildClass(calls, r, batches, limits, now).entry;
      && (forall x :: IsFresh(calls, r, bs, now, x) && x.id in e.ids ==> AtMost(x.level, e.level))
      && (e.level == NoVerification || exists x :: IsFresh(calls, r, bs, now, x) && x.id in e.ids && x.level == e.level)
  {
    var bs, e := ClassBatches(batches, r.classId), BuildClass(calls, r, batches, limits, now).entry;
    var es := FreshOf(calls, r, bs, now);
    forall x ensures x in es <==> IsFresh(calls, r, bs, now, x) { FreshExactly(calls, r, bs, now, x); }
    ClassIsItsFreshEvidence(calls, r, batches, limits, now);
    FreshEntryLevel(r.classId, PrioritiesOf(bs), es, now);
  }

  lemma FreshEntryLevel(classId: Str, prio: Priorities, es: seq<Evidence>, now: int)
    requires Unique(es)
    ensures var e := FreshEntry(classId, prio, es, now);
      && (forall x :: x in es && x.id in e.ids ==> AtMost(x.level, e.level))
      && (e.level == NoVerification || exists x :: x in es && x.id in e.ids && x.level == e.level)
  {
    var e, gs := FreshEntry(classId, prio, es, now), Groups(es);
    var agreeing := IdsOf(Side(prio, gs, true));
    var listed := WithIds(es, agreeing);
    HighestMeaning(es);
    HighestMeaning(listed);
    EntryIds(classId, prio, es, now);
    forall x ensures x in listed <==> x in es && x.id in agreeing { WithIdsMeaning(es, agreeing, x); }
    forall x | x in es
      ensures x.id in e.ids <==> ConflictedGroups(gs) == 0 || x in listed
    {
      ItemListed(classId, prio, es, now, x);
    }
  }

  lemma ItemListed(classId: Str, prio: Priorities, es: seq<Evidence>, now: int, x: Evidence)
    requires x in es
    ensures x.id in FreshEntry(classId, prio, es, now).ids <==>
      ConflictedGroups(Groups(es)) == 0 || x.id in IdsOf(Side(prio, Groups(es), true))
  {
    var e := FreshEntry(classId, prio, es, now);
    EntryIds(classId, prio, es, now);
    HasIdMeaning(es, x.id);
    assert x.id in e.ids <==> x.id in Elements(e.ids);
  }

  // ---- The counts of a conflict ----

  ghost function ClaimKeys(es: seq<Evidence>): set<Str> { set x | x in es :: x.claimKey }

  ghost function DisputedKeys(es: seq<Evidence>): set<Str> {
    set x, y | x in es && y in es && x.claimKey == y.claimKey && x.digest != y.digest :: x.claimKey
  }

  lemma {:induction false} KeysAre(gs: seq<Group>, es: seq<Evidence>)
    requires Grouped(gs, es)
    ensures |Keys(gs)| == |gs|
    ensures forall i, j :: 0 <= i < j < |gs| ==> gs[i].key != gs[j].key
    ensures forall i :: 0 <= i < |gs| ==> gs[i].key in Keys(gs)
    ensures Keys(gs) <= ClaimKeys(es)
  {
    if gs != [] {
      KeysAre(gs[1..], es);
      var x := gs[0].members[0];
      WithKeyMeaning(es, gs[0].key, x);
      forall i, j | 0 <= i < j < |gs| ensures gs[i].key != gs[j].key {
        assert gs[j] == gs[1..][j-1];
        if i > 0 { assert gs[i] == gs[1..][i-1]; }
      }
      forall i | 0 <= i < |gs| ensures gs[i].key in Keys(gs) { if i > 0 { assert gs[i] == gs[1..][i-1]; } }
    }
  }

  ghost function SplitKeys(gs: seq<Group>): set<Str> {
    set i | 0 <= i < |gs| && |Digests(gs[i].members)| > 1 :: gs[i].key
  }

  lemma SplitLast(gs: seq<Group>)
    requires gs != [] && forall i, j :: 0 <= i < j < |gs| ==> gs[i].key != gs[j].key
    ensures var init, last := SplitKeys(gs[..|gs|-1]), gs[|gs|-1];
      last.key !in init && SplitKeys(gs) == init + if |Digests(last.members)| > 1 then {last.key} else {}
  {
    var init := gs[..|gs|-1];
    assert forall i :: 0 <= i < |init| ==> init[i] == gs[i];
  }

  lemma {:induction false} SplitCount(gs: seq<Group>)
    requires forall i, j :: 0 <= i < j < |gs| ==> gs[i].key != gs[j].key
    ensures ConflictedGroups(gs) == |SplitKeys(gs)|
  {
    if gs != [] {
      var init, last := gs[..|gs|-1], gs[|gs|-1];
      SplitCount(init);
      SplitLast(gs);
    }
  }

  lemma SplitAreDisputed(es: seq<Evidence>)
    ensures SplitKeys(Groups(es)) == DisputedKeys(es)
  {
    var gs := Groups(es);
    GroupsGrouped(es);
    forall k | k in SplitKeys(gs) ensures k in DisputedKeys(es) {
      var i :| 0 <= i < |gs| && |Digests(gs[i].members)| > 1 && gs[i].key == k;
      GroupedAt(gs, es, i);
      TwoDigests(gs[i].members);
      var x, y :| x in gs[i].members && y in gs[i].members && x.digest != y.digest;
      WithKeyMeaning(es, k, x);
      WithKeyMeaning(es, k, y);
    }
    forall k | k in DisputedKeys(es) ensures k in SplitKeys(gs) {
      var x, y :| x in es && y in es && x.claimKey == y.claimKey && x.digest != y.digest && x.claimKey == k;
      var i := GroupOfKey(gs, k);
      GroupedAt(gs, es, i);
      WithKeyMeaning(es, k, x);
      WithKeyMeaning(es, k, y);
      TwoDigests(gs[i].members);
    }
  }

  /** The note of a conflicted entry counts the claim keys in dispute, and all of them. */
  lemma ConflictCounts(classId: Str, prio: Priorities, es: seq<Evidence>, now: int)
    requires SomeKeyHasTwoDigests(es)
    ensures FreshEntry(classId, prio, es, now).note == ConflictNote(|DisputedKeys(es)|, |ClaimKeys(es)|)
  {
    ConflictMeaning(es);
    GroupsGrouped(es);
    KeysAre(Groups(es), es);
    SplitCount(Groups(es));
    SplitAreDisputed(es);
    assert Keys(Groups(es)) == ClaimKeys(es);
  }

  // ---- A stale class ----

  /** A stale class lists its evidence, with the highest level, and became stale when the first of the items did. */
  ghost predicate ListsStale(r: Requirement, es: seq<Evidence>, e: Entry, now: int) {
    && r.maxAge.Some? && e.staleSince.Some? && IsHighest(e.level, es) && Elements(e.ids) == Elements(IdsOf(es)) && e.conflictIds.None?
    && e.note == StaleNote(|es|)
    && (exists x :: x in es && e.staleSince.value == x.observedAt + r.maxAge.value)
    && (forall x :: x in es ==> e.staleSince.value <= x.observedAt + r.maxAge.value < now)
  }

  lemma StaleEntry(r: Requirement, prio: Priorities, es: seq<Evidence>, rejected: seq<Qualification>, now: int)
    requires es != [] && r.maxAge.Some? && ByStaleness(es, r.maxAge, now, false) == [] && ByStaleness(es, r.maxAge, now, true) == es
    requires EarliestStale(es, r.maxAge.value).Some?
    ensures var e := BuildEntry(r, prio, es, rejected, now);
      && e.level == Highest(es) && e.ids == SortStrings(IdsOf(es)) && e.conflictIds.None?
      && e.staleSince == EarliestStale(es, r.maxAge.value) && e.note == StaleNote(|es|)
  {
  }

  lemma StaleLists(r: Requirement, prio: Priorities, es: seq<Evidence>, rejected: seq<Qualification>, now: int)
    requires es != [] && ByStaleness(es, r.maxAge, now, false) == []
    ensures ListsStale(r, es, BuildEntry(r, prio, es, rejected, now), now)
  {
    AllStale(es, r.maxAge, now);
    assert es[0] in es;
    EarliestStaleMeaning(es, r.maxAge.value);
    StaleEntry(r, prio, es, rejected, now);
    HighestMeaning(es);
    SortStringsMeaning(IdsOf(es));
  }

  lemma NoneFresh<C(!new)>(calls: Calls<C>, r: Requirement, bs: seq<Batch<C>>, now: int)
    ensures FreshOf(calls, r, bs, now) == [] <==> forall x :: !IsFresh(calls, r, bs, now, x)
  {
    var es := FreshOf(calls, r, bs, now);
    forall x ensures x in es <==> IsFresh(calls, r, bs, now, x) { FreshExactly(calls, r, bs, now, x); }
    if es != [] { assert es[0] in es; }
  }

  lemma StaleExactly<C(!new)>(calls: Calls<C>, r: Requirement, batches: seq<Batch<C>>, limits: Limits, now: int)
    requires var bs := ClassBatches(batches, r.classId);
      LimitViolation(calls, bs, limits).None? && !AllRejected(calls, r, bs) && forall x :: !IsFresh(calls, r, bs, now, x)
    ensures var bs := ClassBatches(batches, r.classId);
      ListsStale(r, QualifiedOf(calls, r, SubjectOf(bs), Candidates(bs)), BuildClass(calls, r, batches, limits, now).entry, now)
  {
    var bs := ClassBatches(batches, r.classId);
    NoneQualified(calls, r, SubjectOf(bs), Candidates(bs));
    NoneFresh(calls, r, bs, now);
    StaleLists(r, PrioritiesOf(bs), QualifiedOf(calls, r, SubjectOf(bs), Candidates(bs)), RejectedOf(calls, r, SubjectOf(bs), Candidates(bs)), now);
  }

  lemma {:induction false} AllStale(es: seq<Evidence>, maxAge: Option<int>, now: int)
    requires ByStaleness(es, maxAge, now, false) == []
    ensures ByStaleness(es, maxAge, now, true) == es
    ensures forall x :: x in es ==> maxAge.Some? && now - x.observedAt > maxAge.value
  {
    if es != [] {
      AllStale(es[..|es|-1], maxAge, now);
      assert es == es[..|es|-1] + [es[|es|-1]];
    }
  }

  ghost predicate RefersTo<C>(calls: Calls<C>, r: Requirement, subject: Str, o: Offer<C>, id: Str) {
    var q := calls.qualify(o.0, r, subject, o.1);
    q.Rejected? && q.referenceId == id
  }

  /** A class all of whose candidates are rejected lists the references of the rejections. */
  lemma UnverifiedExactly<C(!new)>(calls: Calls<C>, r: Requirement, batches: seq<Batch<C>>, limits: Limits, now: int, id: Str)
    requires var bs := ClassBatches(batches, r.classId);
      LimitViolation(calls, bs, limits).None? && Candidates(bs) != [] && AllRejected(calls, r, bs)
    ensures var bs, e := ClassBatches(batches, r.classId), BuildClass(calls, r, batches, limits, now).entry;
      && e.level == NoVerification && e.conflictIds.None? && e.staleSince.None?
      && e.note.RejectedNote? && e.note.count == |Candidates(bs)| && Ascending(Less, e.note.codes)
      && (id in e.note.codes <==> exists k :: 0 <= k < |Candidates(bs)| && RejectedFor(calls, r, SubjectOf(bs), Candidates(bs)[k], id))
      && (id in e.ids <==> exists k :: 0 <= k < |Candidates(bs)| && RefersTo(calls, r, SubjectOf(bs), Candidates(bs)[k], id))
  {
    var bs := ClassBatches(batches, r.classId);
    NoneQualified(calls, r, SubjectOf(bs), Candidates(bs));
    RejectedReferences(calls, r, SubjectOf(bs), Candidates(bs), id);
    RejectedCodes(calls, r, SubjectOf(bs), Candidates(bs), id);
    SortStringsMeaning(CodesOf(RejectedOf(calls, r, SubjectOf(bs), Candidates(bs))));
    SortStringsMeaning(ReferenceIds(RejectedOf(calls, r, SubjectOf(bs), Candidates(bs))));
    var e := BuildClass(calls, r, batches, limits, now).entry;
    assert id in e.ids <==> id in Elements(e.ids);
    assert id in e.note.codes <==> id in Elements(e.note.codes);
  }

  /** The candidate is rejected with an issue of this code. */
  ghost predicate RejectedFor<C>(calls: Calls<C>, r: Requirement, subject: Str, o: Offer<C>, code: Str) {
    var q := calls.qualify(o.0, r, subject, o.1);
    q.Rejected? && exists i :: 0 <= i < |q.issues| && q.issues[i].code == code
  }

  lemma CodesLast(rejected: seq<Qualification>, q: Qualification, code: Str)
    ensures code in CodesOf(rejected + [q]) <==>
      code in CodesOf(rejected) || exists i :: 0 <= i < |q.issues| && q.issues[i].code == code
  {
    var codes := seq(|q.issues|, i requires 0 <= i < |q.issues| => q.issues[i].code);
    assert (rejected + [q])[..|rejected|] == rejected;
    assert CodesOf(rejected + [q]) == CodesOf(rejected) + codes;
    if i :| 0 <= i < |q.issues| && q.issues[i].code == code { assert codes[i] == code; }
  }

  lemma {:induction false} RejectedCodes<C(!new)>(calls: Calls<C>, r: Requirement, subject: Str, cs: seq<Offer<C>>, code: Str)
    ensures code in CodesOf(RejectedOf(calls, r, subject, cs)) <==> exists k :: 0 <= k < |cs| && RejectedFor(calls, r, subject, cs[k], code)
  {
    if cs != [] {
      var init, n := cs[..|cs|-1], |cs| - 1;
      assert forall k :: 0 <= k < n ==> init[k] == cs[k];
      RejectedCodes(calls, r, subject, init, code);
      var before, q := RejectedOf(calls, r, subject, init), calls.qualify(cs[n].0, r, subject, cs[n].1);
      assert (exists k :: 0 <= k < |cs| && RejectedFor(calls, r, subject, cs[k], code)) <==>
        (exists k :: 0 <= k < n && RejectedFor(calls, r, subject, init[k], code)) || RejectedFor(calls, r, subject, cs[n], code);
      if q.Rejected? {
        CodesLast(before, q, code);
      } else {
        assert before + [] == before;
      }
    }
  }

  lemma {:induction false} RejectedReferences<C(!new)>(calls: Calls<C>, r: Requirement, subject: Str, cs: seq<Offer<C>>, id: Str)
    requires forall k :: 0 <= k < |cs| ==> calls.qualify(cs[k].0, r, subject, cs[k].1).Rejected?
    ensures |RejectedOf(calls, r, subject, cs)| == |cs|
    ensures id in ReferenceIds(RejectedOf(calls, r, subject, cs)) <==>
      exists k :: 0 <= k < |cs| && RefersTo(calls, r, subject, cs[k], id)
  {
    if cs != [] {
      var init, n := cs[..|cs|-1], |cs| - 1;
      assert forall k :: 0 <= k < n ==> init[k] == cs[k];
      RejectedReferences(calls, r, subject, init, id);
      var before, q := RejectedOf(calls, r, subject, init), calls.qualify(cs[n].0, r, subject, cs[n].1);
      assert ReferenceIds(before + [q]) == ReferenceIds(before) + [q.referenceId];
    }
  }

  // ---- The limits ----

  lemma {:induction false} OverfullMeaning<C(!new)>(bs: seq<Batch<C>>, bound: nat)
    ensures OverfullBatch(bs, bound).None? <==> forall i :: 0 <= i < |bs| ==> |bs[i].candidates| <= bound
  {
    if bs != [] {
      OverfullMeaning(bs[..|bs|-1], bound);
      assert forall i :: 0 <= i < |bs| - 1 ==> bs[..|bs|-1][i] == bs[i];
    }
  }

  lemma {:induction false} OversizedMeaning<C(!new)>(calls: Calls<C>, cs: seq<Offer<C>>, bound: nat)
    ensures OversizedClaim(calls, cs, bound).None? <==>
      forall k :: 0 <= k < |cs| && calls.claimBytes(cs[k].1).Some? ==> calls.claimBytes(cs[k].1).value <= bound
  {
    if cs != [] {
      OversizedMeaning(calls, cs[..|cs|-1], bound);
      assert forall k :: 0 <= k < |cs| - 1 ==> cs[..|cs|-1][k] == cs[k];
    }
  }

  /** A class is within limits when no bound is exceeded: the batches, the candidates of each and of all, and the size of
      every claim that parses. */
  lemma WithinLimitsExactly<C(!new)>(calls: Calls<C>, bs: seq<Batch<C>>, limits: Limits)
    ensures LimitViolation(calls, bs, limits).None? <==>
      && |bs| <= limits.providersPerClass
      && (forall i :: 0 <= i < |bs| ==> |bs[i].candidates| <= limits.candidatesPerBatch)
      && |Candidates(bs)| <= limits.candidatesTotal
      && forall k :: 0 <= k < |Candidates(bs)| && calls.claimBytes(Candidates(bs)[k].1).Some? ==>
           calls.claimBytes(Candidates(bs)[k].1).value <= limits.claimBytes
  {
    OverfullMeaning(bs, limits.candidatesPerBatch);
    OversizedMeaning(calls, Candidates(bs), limits.claimBytes);
    CandidatesSize(bs);
  }

  lemma LimitIdsMeaning<C(!new)>(calls: Calls<C>, classId: Str, subject: Str, bs: seq<Batch<C>>, id: Str)
    ensures id in LimitIds(calls, classId, subject, bs) <==>
      if Candidates(bs) == [] then id == calls.noCandidateId(classId, subject)
      else exists o :: o in Candidates(bs) && calls.limitId(o.0, classId, subject, o.1) == id
  {
    var cs, ids := Candidates(bs), LimitIds(calls, classId, subject, bs);
    if o :| o in cs && calls.limitId(o.0, classId, subject, o.1) == id {
      var k :| 0 <= k < |cs| && cs[k] == o;
      assert ids[k] == id;
    }
  }

  /** A class over a limit fails closed: unverified, with one id for each candidate, or one if there is none. */
  lemma OverLimitEntry<C(!new)>(calls: Calls<C>, r: Requirement, batches: seq<Batch<C>>, limits: Limits, now: int, id: Str)
    requires LimitViolation(calls, ClassBatches(batches, r.classId), limits).Some?
    ensures var bs, e := ClassBatches(batches, r.classId), BuildClass(calls, r, batches, limits, now).entry;
      && e.status == Unverified && e.level == NoVerification && e.conflictIds.None? && e.staleSince.None? && e.checkedAt == now
      && (id in e.ids <==>
            if Candidates(bs) == [] then id == calls.noCandidateId(r.classId, SubjectOf(bs))
            else exists o :: o in Candidates(bs) && calls.limitId(o.0, r.classId, SubjectOf(bs), o.1) == id)
  {
    var bs, e := ClassBatches(batches, r.classId), BuildClass(calls, r, batches, limits, now).entry;
    LimitIdsMeaning(calls, r.classId, SubjectOf(bs), bs, id);
    SortStringsMeaning(LimitIds(calls, r.classId, SubjectOf(bs), bs));
    assert id in e.ids <==> id in Elements(e.ids);
  }

  /** The requested subject is that of the batch which comes first. */
  lemma SubjectOfFirst<C(!new)>(batches: seq<Batch<C>>, classId: Str, b: Batch<C>)
    requires OneBatchPerProvider(batches) && b in batches && b.classId == classId
    requires forall c :: c in batches && c.classId == classId && c != b ==> ComesFirst(b.provider, c.provider)
    ensures SubjectOf(ClassBatches(batches, classId)) == b.subject
  {
    var bs := ClassBatches(batches, classId);
    CanonicalOrder(batches, classId);
    ClassBatchesAre(batches, classId, b);
    var i :| 0 <= i < |bs| && bs[i] == b;
    if i > 0 {
      ClassBatchesAre(batches, classId, bs[0]);
      LessTotal(b.provider.id, bs[0].provider.id);
      assert false;
    }
  }

  // ---- The diagnostics of a class ----

  ghost predicate FromSubject<C>(subject: Str, b: Batch<C>, d: Diagnostic) {
    b.subject != subject && d.SubjectMismatch? && d.provider == b.provider.id && d.subject == b.subject
  }

  ghost predicate FromOutcome<C>(b: Batch<C>, d: Diagnostic) {
    d.OutcomeReported? && d.provider == b.provider.id && b.outcome == Some(d.outcome)
  }

  /** A report of the provider, or an issue of a candidate that is rejected or stale. */
  ghost predicate FromIssue<C>(calls: Calls<C>, r: Requirement, subject: Str, b: Batch<C>, d: Diagnostic) {
    d.IssueFound? && d.provider == b.provider.id &&
    (d.issue in b.reports || exists k :: 0 <= k < |b.candidates| && FromCandidate(calls, r, subject, b, k, d.issue))
  }

  ghost predicate FromCandidate<C>(calls: Calls<C>, r: Requirement, subject: Str, b: Batch<C>, k: nat, issue: Issue)
    requires k < |b.candidates|
  {
    var q := calls.qualify(b.provider, r, subject, b.candidates[k]);
    (q.Rejected? || q.stale) && issue in q.issues
  }

  lemma IssuesMeaning(classId: Str, provider: Str, issues: seq<Issue>, d: Diagnostic)
    ensures d in IssueDiagnostics(classId, provider, issues) <==>
      d.IssueFound? && d.classId == classId && d.provider == provider && d.issue in issues
  {
    if d.IssueFound? && d.classId == classId && d.provider == provider && d.issue in issues {
      var i :| 0 <= i < |issues| && issues[i] == d.issue;
      assert IssueDiagnostics(classId, provider, issues)[i] == d;
    }
  }

  lemma {:induction false} SubjectsMeaning<C(!new)>(classId: Str, subject: Str, bs: seq<Batch<C>>, d: Diagnostic)
    ensures d in SubjectDiagnostics(classId, subject, bs) <==>
      d.SubjectMismatch? && d.classId == classId && exists b :: b in bs && FromSubject(subject, b, d)
  {
    if bs != [] {
      var init, last := bs[..|bs|-1], bs[|bs|-1];
      SubjectsMeaning(classId, subject, init, d);
      assert bs == init + [last];
      assert (exists b :: b in bs && FromSubject(subject, b, d)) <==>
        (exists b :: b in init && FromSubject(subject, b, d)) || FromSubject(subject, last, d);
    }
  }

  lemma {:induction false} CandidatesReport<C(!new)>(calls: Calls<C>, r: Requirement, subject: Str, b: Batch<C>, n: nat, d: Diagnostic)
    requires n <= |b.candidates|
    ensures d in CandidateDiagnostics(calls, r, subject, b, n) <==>
      && d.IssueFound? && d.classId == r.classId && d.provider == b.provider.id
      && exists k :: 0 <= k < n && FromCandidate(calls, r, subject, b, k, d.issue)
  {
    if n > 0 {
      CandidatesReport(calls, r, subject, b, n - 1, d);
      if d.IssueFound? {
        assert (exists k :: 0 <= k < n && FromCandidate(calls, r, subject, b, k, d.issue)) <==>
          (exists k :: 0 <= k < n - 1 && FromCandidate(calls, r, subject, b, k, d.issue)) || FromCandidate(calls, r, subject, b, n - 1, d.issue);
      }
      IssuesMeaning(r.classId, b.provider.id, calls.qualify(b.provider, r, subject, b.candidates[n-1]).issues, d);
    }
  }

  ghost predicate Reported<C>(calls: Calls<C>, r: Requirement, subject: Str, b: Batch<C>, d: Diagnostic) {
    d.classId == r.classId && (FromOutcome(b, d) || FromIssue(calls, r, subject, b, d))
  }

  lemma OneBatchReports<C(!new)>(calls: Calls<C>, r: Requirement, subject: Str, b: Batch<C>, d: Diagnostic)
    ensures d in CandidateDiagnostics(calls, r, subject, b, |b.candidates|)
                 + (if b.outcome.Some? then [OutcomeReported(r.classId, b.provider.id, b.outcome.value)] else [])
                 + IssueDiagnostics(r.classId, b.provider.id, b.reports)
       <==> Reported(calls, r, subject, b, d)
  {
    CandidatesReport(calls, r, subject, b, |b.candidates|, d);
    IssuesMeaning(r.classId, b.provider.id, b.reports, d);
  }

  lemma {:induction false} BatchesReport<C(!new)>(calls: Calls<C>, r: Requirement, subject: Str, bs: seq<Batch<C>>, d: Diagnostic)
    ensures d in BatchDiagnostics(calls, r, subject, bs) <==> exists b :: b in bs && Reported(calls, r, subject, b, d)
  {
    if bs != [] {
      var init, last := bs[..|bs|-1], bs[|bs|-1];
      BatchesReport(calls, r, subject, init, d);
      OneBatchReports(calls, r, subject, last, d);
      assert bs == init + [last];
      assert (exists b :: b in bs && Reported(calls, r, subject, b, d)) <==>
        (exists b :: b in init && Reported(calls, r, subject, b, d)) || Reported(calls, r, subject, last, d);
    }
  }

  /** What a class reports: the batches about another subject than the first, and then either the limit that it exceeds, or
      the outcomes and reports of its providers and the issues of the candidates that do not count. */
  lemma DiagnosticsExactly<C(!new)>(calls: Calls<C>, r: Requirement, batches: seq<Batch<C>>, limits: Limits, now: int, d: Diagnostic)
    ensures var bs := ClassBatches(batches, r.classId);
      var violation := LimitViolation(calls, bs, limits);
      d in BuildClass(calls, r, batches, limits, now).diagnostics <==>
      && d.classId == r.classId
      && (|| (exists b :: b in bs && FromSubject(SubjectOf(bs), b, d))
          || (d.LimitExceeded? && violation == Some(d.violation))
          || (violation.None? && exists b :: b in bs && Reported(calls, r, SubjectOf(bs), b, d)))
  {
    var bs := ClassBatches(batches, r.classId);
    SubjectsMeaning(r.classId, SubjectOf(bs), bs, d);
    BatchesReport(calls, r, SubjectOf(bs), bs, d);
  }
}
