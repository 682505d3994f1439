/** What the evidence guard asks for in a round, and how it ends when it asks for nothing more, in terms of the
    outcomes that the providers have reported. */
module GuardControl {
  import opened EvidenceContracts
  import opened EvidenceGuard
  import opened JsText
  import opened Options
  import opened Sorting
  import opened StringOrder

  // ---- Satisfaction ----

  predicate AtLeast(have: Level, need: Level) {
    match need
    case NoVerification => true
    case Asserted => have == Asserted || have == Verified
    case Verified => have == Verified
  }

  /** Present evidence, or conflicted evidence that the policy tolerates, of at least the level required. */
  lemma SatisfiesExactly(e: CoverageEntry, r: Requirement)
    ensures Satisfies(e, r) <==>
      && (e.status == Present || (e.status == Conflicted && (r.conflictPolicy == Some(Warn) || r.conflictPolicy == Some(Allow))))
      && (r.level == None || AtLeast(e.level, r.level.value))
  {
  }

  /** A satisfied class regresses when its entry goes, or says missing, or stays present at a lower level. */
  lemma RegressesExactly(before: Coverage, after: Coverage, e: Assessed)
    requires e.classId in before
    ensures Regresses(before, after, e) <==>
      && e.satisfied
      && (|| e.classId !in after
          || after[e.classId].status == Missing
          || (after[e.classId].status == Present && !AtLeast(after[e.classId].level, before[e.classId].level)))
  {
  }

  lemma {:induction false} MissingLast(rs: seq<Requirement>, r: Requirement, coverage: Coverage)
    ensures Assess(rs + [r], coverage).missingMandatory
         == Assess(rs, coverage).missingMandatory + if r.mandatory && !Satisfied(coverage, r) then [r.classId] else []
  {
    if rs == [] {
      assert (rs + [r])[1..] == [];
    } else {
      assert (rs + [r])[1..] == rs[1..] + [r];
      MissingLast(rs[1..], r, coverage);
    }
  }

  /** The places of the unsatisfied mandatory requirements. */
  ghost predicate ArePlaces(rs: seq<Requirement>, coverage: Coverage, places: seq<nat>) {
    && (forall i, j :: 0 <= i < j < |places| ==> places[i] < places[j])
    && (forall i: nat :: i in places <==> i < |rs| && rs[i].mandatory && !Satisfied(coverage, rs[i]))
  }

  /** The missing classes are those of the unsatisfied mandatory requirements, in their order. */
  lemma {:induction false} MissingExactly(rs: seq<Requirement>, coverage: Coverage) returns (places: seq<nat>)
    ensures ArePlaces(rs, coverage, places)
    ensures var missing := Assess(rs, coverage).missingMandatory;
      |missing| == |places| && forall k :: 0 <= k < |places| ==> places[k] < |rs| && missing[k] == rs[places[k]].classId
  {
    if rs == [] {
      places := [];
    } else {
      var init, last, n := rs[..|rs|-1], rs[|rs|-1], |rs| - 1;
      var before := MissingExactly(init, coverage);
      assert rs == init + [last];
      MissingLast(init, last, coverage);
      places := before + if last.mandatory && !Satisfied(coverage, last) then [n] else [];
      forall i: nat ensures i in places <==> i < |rs| && rs[i].mandatory && !Satisfied(coverage, rs[i]) {
        if i < n { assert rs[i] == init[i]; }
      }
      forall i, j | 0 <= i < j < |places| ensures places[i] < places[j] { if j == |before| { assert places[i] in before; } }
    }
  }

  // ---- Which classes count ----

  /** A mandatory requirement names the class, and the last requirement of the class is not satisfied. With one
      requirement for each class, this is the mandatory unsatisfied requirement. */
  ghost predicate Due(rs: seq<Requirement>, coverage: Coverage, c: ClassId) {
    && (exists i :: 0 <= i < |rs| && rs[i].mandatory && rs[i].classId == c)
    && LastFails(rs, coverage, c)
  }

  ghost predicate LastFails(rs: seq<Requirement>, coverage: Coverage, c: ClassId) {
    exists j :: 0 <= j < |rs| && rs[j].classId == c && !Satisfied(coverage, rs[j]) && NoneAfter(rs, j, c)
  }

  ghost predicate NoneAfter(rs: seq<Requirement>, j: int, c: ClassId) { forall k :: j < k < |rs| && 0 <= k ==> rs[k].classId != c }

  lemma DueOfMandatory(rs: seq<Requirement>, coverage: Coverage, i: nat)
    requires forall k, l :: 0 <= k < l < |rs| ==> rs[k].classId != rs[l].classId
    requires i < |rs|
    ensures Due(rs, coverage, rs[i].classId) <==> rs[i].mandatory && !Satisfied(coverage, rs[i])
  {
    assert NoneAfter(rs, i, rs[i].classId);
  }

  lemma {:induction false} EntriesAt(rs: seq<Requirement>, coverage: Coverage, i: nat)
    ensures |Assess(rs, coverage).entries| == |rs|
    ensures i < |rs| ==> Assess(rs, coverage).entries[i] == Assessed(rs[i].classId, Satisfied(coverage, rs[i]))
  {
    if rs != [] { EntriesAt(rs[1..], coverage, if i == 0 then 0 else i - 1); }
  }

  lemma {:induction false} LastUnsatisfiedMeaning(entries: seq<Assessed>, c: ClassId)
    ensures LastUnsatisfied(entries, c) <==>
      exists j :: 0 <= j < |entries| && entries[j].classId == c && !entries[j].satisfied &&
        forall k :: j < k < |entries| ==> entries[k].classId != c
  {
    if entries != [] {
      var init, n := entries[..|entries|-1], |entries| - 1;
      LastUnsatisfiedMeaning(init, c);
      assert forall j :: 0 <= j < n ==> init[j] == entries[j];
      if entries[n].classId != c && LastUnsatisfied(init, c) {
        var j :| 0 <= j < n && init[j].classId == c && !init[j].satisfied && forall k :: j < k < n ==> init[k].classId != c;
        assert entries[j].classId == c && forall k :: j < k < |entries| ==> entries[k].classId != c;
      }
    }
  }

  lemma LastFailsMeaning(rs: seq<Requirement>, coverage: Coverage, c: ClassId)
    ensures LastUnsatisfied(Assess(rs, coverage).entries, c) <==> LastFails(rs, coverage, c)
  {
    var es := Assess(rs, coverage).entries;
    LastUnsatisfiedMeaning(es, c);
    EntriesAt(rs, coverage, 0);
    forall i | 0 <= i < |rs| ensures es[i] == Assessed(rs[i].classId, Satisfied(coverage, rs[i])) { EntriesAt(rs, coverage, i); }
    if LastUnsatisfied(es, c) {
      var j :| 0 <= j < |es| && es[j].classId == c && !es[j].satisfied && forall k :: j < k < |es| ==> es[k].classId != c;
      assert NoneAfter(rs, j, c);
    }
    if LastFails(rs, coverage, c) {
      var j :| 0 <= j < |rs| && rs[j].classId == c && !Satisfied(coverage, rs[j]) && NoneAfter(rs, j, c);
      assert es[j].classId == c && !es[j].satisfied;
      forall k | j < k < |es| ensures es[k].classId != c { assert rs[k].classId != c; }
    }
  }

  // ---- What the outcomes of a class allow ----

  /** A class without outcomes may be asked for once; one with outcomes on a flag, unless one of them is permanent, a
      limit, or (with no provider error beside it) the need for the user. */
  ghost predicate MayAsk(os: seq<ProviderOutcome>, asked: bool) {
    if os == [] then !asked
    else
      && (exists i :: 0 <= i < |os| && (os[i].retryable || os[i].alternate))
      && !Has(os, PermanentUnavailable) && !Has(os, CollectionLimitExceeded)
      && (Has(os, UserContextRequired) ==> Has(os, ProviderError))
  }

  /** Nothing said, or something permanent, a limit or an error, or collections that did not suffice. */
  ghost predicate IsHardGap(os: seq<ProviderOutcome>) {
    || Has(os, PermanentUnavailable) || Has(os, CollectionLimitExceeded) || Has(os, ProviderError)
    || (!Has(os, UserContextRequired) && !Has(os, TemporaryUnavailable))
  }

  ghost predicate NeedsUser(os: seq<ProviderOutcome>) { !IsHardGap(os) && Has(os, UserContextRequired) }

  lemma ClassifyMeaning(c: ClassId, os: seq<ProviderOutcome>, asked: bool)
    ensures var d := ClassifyClassControl(c, os, asked);
      && d.classId == c && (d.canRetry <==> MayAsk(os, asked))
      && (d.final == HardGap <==> IsHardGap(os)) && (d.final == UserContext <==> NeedsUser(os))
  {
    if os != [] {
      var k := os[0].kind;
      assert Has(os, k);
    }
  }

  lemma {:induction false} DecisionsMeaning(rs: seq<Requirement>, a: Assessment, latest: Latest, asked: set<ClassId>, d: ClassDecision)
    ensures d in DecisionsFor(rs, a, latest, asked) <==>
      && (exists i :: 0 <= i < |rs| && rs[i].mandatory && rs[i].classId == d.classId)
      && LastUnsatisfied(a.entries, d.classId)
      && d == ClassifyClassControl(d.classId, LatestOf(latest, d.classId), d.classId in asked)
  {
    if rs != [] {
      var c := rs[0].classId;
      DecisionsMeaning(rs[1..], a, latest, asked, d);
      assert forall i :: 1 <= i < |rs| ==> rs[i] == rs[1..][i-1];
      ClassifyMeaning(c, LatestOf(latest, c), c in asked);
      if rs[0].mandatory && rs[0].classId == d.classId {
        assert 0 <= 0 < |rs| && rs[0].mandatory;
      }
    }
  }

  lemma {:induction false} RetryMeaning(ds: seq<ClassDecision>, c: ClassId)
    ensures c in RetryClasses(ds) <==> exists d :: d in ds && d.classId == c && d.canRetry
  {
    if ds != [] {
      RetryMeaning(ds[1..], c);
      assert ds == [ds[0]] + ds[1..];
    }
  }

  lemma {:induction false} ClarifyMeaning(ds: seq<ClassDecision>, c: ClassId)
    ensures c in Clarifications(ds) <==> exists d :: d in ds && d.classId == c && d.final == UserContext
  {
    if ds != [] {
      ClarifyMeaning(ds[1..], c);
      assert ds == [ds[0]] + ds[1..];
    }
  }

  /** The one decision of a class. */
  lemma DecidedExactly(rs: seq<Requirement>, s: State, d: ClassDecision)
    ensures d in Decisions(rs, s) <==>
      Due(rs, s.coverage, d.classId) && d == ClassifyClassControl(d.classId, LatestOf(s.latest, d.classId), d.classId in s.attempted)
  {
    DecisionsMeaning(rs, Assess(rs, s.coverage), s.latest, s.attempted, d);
    LastFailsMeaning(rs, s.coverage, d.classId);
  }

  /** The classes that the round may ask for, that are a hard gap, and that need the user. */
  lemma ClassDecided(rs: seq<Requirement>, s: State, c: ClassId)
    ensures c in RetryClasses(Decisions(rs, s)) <==> Due(rs, s.coverage, c) && MayAsk(LatestOf(s.latest, c), c in s.attempted)
    ensures c in Clarifications(Decisions(rs, s)) <==> Due(rs, s.coverage, c) && NeedsUser(LatestOf(s.latest, c))
    ensures Due(rs, s.coverage, c) <==> exists d :: d in Decisions(rs, s) && d.classId == c
  {
    var ds, e := Decisions(rs, s), ClassifyClassControl(c, LatestOf(s.latest, c), c in s.attempted);
    RetryMeaning(ds, c);
    ClarifyMeaning(ds, c);
    ClassifyMeaning(c, LatestOf(s.latest, c), c in s.attempted);
    DecidedExactly(rs, s, e);
    forall d | d in ds && d.classId == c ensures d == e && Due(rs, s.coverage, c) { DecidedExactly(rs, s, d); }
  }

  lemma FinalDecided(rs: seq<Requirement>, s: State)
    ensures AnyFinal(Decisions(rs, s), HardGap) <==> exists c :: Due(rs, s.coverage, c) && IsHardGap(LatestOf(s.latest, c))
    ensures AnyFinal(Decisions(rs, s), UserContext) <==> exists c :: Due(rs, s.coverage, c) && NeedsUser(LatestOf(s.latest, c))
    ensures AnyFinal(Decisions(rs, s), Temporary) <==>
      exists c :: Due(rs, s.coverage, c) && !IsHardGap(LatestOf(s.latest, c)) && !NeedsUser(LatestOf(s.latest, c))
  {
    var ds := Decisions(rs, s);
    forall d | d in ds
      ensures Due(rs, s.coverage, d.classId)
      ensures d.final == HardGap <==> IsHardGap(LatestOf(s.latest, d.classId))
      ensures d.final == UserContext <==> NeedsUser(LatestOf(s.latest, d.classId))
    {
      DecidedExactly(rs, s, d);
      ClassifyMeaning(d.classId, LatestOf(s.latest, d.classId), d.classId in s.attempted);
    }
    forall c | Due(rs, s.coverage, c)
      ensures var e := ClassifyClassControl(c, LatestOf(s.latest, c), c in s.attempted);
        && e in ds && (e.final == HardGap <==> IsHardGap(LatestOf(s.latest, c)))
        && (e.final == UserContext <==> NeedsUser(LatestOf(s.latest, c)))
    {
      ClassifyMeaning(c, LatestOf(s.latest, c), c in s.attempted);
      DecidedExactly(rs, s, ClassifyClassControl(c, LatestOf(s.latest, c), c in s.attempted));
    }
  }

  lemma {:induction false} TimeoutsFor(requested: seq<ClassId>, c: ClassId)
    ensures var os := ForClass(TimeoutOutcomes(requested), c);
      && (os == [] <==> c !in requested)
      && forall i :: 0 <= i < |os| ==> os[i] == ProviderOutcome(c, TemporaryUnavailable, true, false)
  {
    if requested != [] {
      var init := requested[..|requested|-1];
      assert TimeoutOutcomes(requested)[..|requested|-1] == TimeoutOutcomes(init);
      assert requested == init + [requested[|requested|-1]];
      TimeoutsFor(init, c);
    }
  }

  /** A class whose round timed out may be asked for again, and is by itself a reason to defer. */
  lemma TimeoutMeaning(latest: Latest, requested: seq<ClassId>, c: ClassId, asked: bool)
    requires c in requested
    ensures var os := LatestOf(Recorded(latest, RoundOutcomes(ThrewAbort(false, true), requested)), c);
      MayAsk(os, asked) && !IsHardGap(os) && !NeedsUser(os)
  {
    RecordedMeaning(latest, TimeoutOutcomes(requested), c);
    TimeoutsFor(requested, c);
    var os := ForClass(TimeoutOutcomes(requested), c);
    assert os[0].retryable && os[0].kind == TemporaryUnavailable;
  }

  // ---- One round ----

  ghost predicate SomeoneMayBeAsked(rs: seq<Requirement>, coverage: Coverage, latest: Latest, asked: set<ClassId>) {
    exists c :: Due(rs, coverage, c) && MayAsk(LatestOf(latest, c), c in asked)
  }

  /** What a round decides: proceed when the mandatory evidence is there; else, with rounds left, ask for exactly the due
      classes that may be asked for, if there are any; else block if a due class is a hard gap, or none is due; else
      clarify if one needs the user; else defer. */
  ghost predicate Decides(
    rs: seq<Requirement>, maxRounds: nat, coverage: Coverage, latest: Latest, asked: set<ClassId>, round: nat,
    action: Action, requested: seq<ClassId>)
  {
    if MandatorySatisfied(rs, coverage) then action == Proceed && requested == []
    else if round < maxRounds && SomeoneMayBeAsked(rs, coverage, latest, asked) then
      && action == RetrieveMore && InOrder(Less, requested)
      && forall c :: c in requested <==> Due(rs, coverage, c) && MayAsk(LatestOf(latest, c), c in asked)
    else
      && requested == []
      && action ==
         if (exists c :: Due(rs, coverage, c) && IsHardGap(LatestOf(latest, c))) || !(exists c :: Due(rs, coverage, c)) then Block
         else if exists c :: Due(rs, coverage, c) && NeedsUser(LatestOf(latest, c)) then Clarify
         else Defer
  }

  lemma SortedInOrder(ds: seq<ClassDecision>)
    ensures InOrder(Less, SortedRequest(ds))
  {
    LessOrders(Elements(RetryClasses(ds)));
    SortInOrder(Less, RetryClasses(ds), Elements(RetryClasses(ds)));
  }

  lemma RequestedExactly(rs: seq<Requirement>, s: State, c: ClassId)
    ensures c in SortedRequest(Decisions(rs, s)) <==> Due(rs, s.coverage, c) && MayAsk(LatestOf(s.latest, c), c in s.attempted)
  {
    SortedClasses(RetryClasses(Decisions(rs, s)), c);
    ClassDecided(rs, s, c);
  }

  lemma AnyoneRequested(rs: seq<Requirement>, s: State)
    ensures RetryClasses(Decisions(rs, s)) != [] <==> SomeoneMayBeAsked(rs, s.coverage, s.latest, s.attempted)
  {
    var cs := RetryClasses(Decisions(rs, s));
    if cs != [] { ClassDecided(rs, s, cs[0]); }
    if SomeoneMayBeAsked(rs, s.coverage, s.latest, s.attempted) {
      var c :| Due(rs, s.coverage, c) && MayAsk(LatestOf(s.latest, c), c in s.attempted);
      ClassDecided(rs, s, c);
    }
  }

  /** The choice of a round, in those terms. */
  lemma ChooseDecides(rs: seq<Requirement>, maxRounds: nat, s: State)
    ensures var control := Choose(rs, maxRounds, s);
      Decides(rs, maxRounds, s.coverage, s.latest, s.attempted, |s.trace|, control.action, control.requested)
  {
    var ds := Decisions(rs, s);
    AssessMeaning(rs, s.coverage);
    AnyoneRequested(rs, s);
    FinalDecided(rs, s);
    RequestIs(Assess(rs, s.coverage), ds, |s.trace|, maxRounds);
    SortedInOrder(ds);
    forall c ensures c in SortedRequest(ds) <==> Due(rs, s.coverage, c) && MayAsk(LatestOf(s.latest, c), c in s.attempted) {
      RequestedExactly(rs, s, c);
    }
  }

  // ---- A whole run ----

  /** The coverage before round `n`: the last one that the collector returned. */
  function CoverageAfter(collect: Collector, initial: Option<Coverage>, n: nat): Coverage {
    if n == 0 then (if initial.Some? then initial.value else map[])
    else if collect(n).Returned? && collect(n).coverage.Some? then collect(n).coverage.value
    else CoverageAfter(collect, initial, n - 1)
  }

  ghost predicate RoundsDecide(rs: seq<Requirement>, maxRounds: nat, collect: Collector, initial: Option<Coverage>, trace: seq<TraceRound>) {
    forall i :: 0 <= i < |trace| ==> RoundDecides(rs, maxRounds, collect, initial, trace, i)
  }

  ghost predicate RoundDecides(
    rs: seq<Requirement>, maxRounds: nat, collect: Collector, initial: Option<Coverage>, trace: seq<TraceRound>, i: nat)
    requires i < |trace|
  {
    Decides(rs, maxRounds, CoverageAfter(collect, initial, i), LatestAfter(collect, trace[..i]), Attempted(trace[..i]), i,
            trace[i].action, trace[i].requested)
  }

  /** A reply that ends the run: an exception, an abort that is not the timeout of the round, a value that fails its
      schema, or coverage in which a satisfied class has regressed. */
  ghost predicate Ends(rs: seq<Requirement>, coverage: Coverage, reply: Reply) {
    match reply
    case NotAResult => false
    case ThrewError => true
    case ThrewAbort(external, timedOut) => external || !timedOut
    case Returned(next, outcomes) =>
      next.None? || (exists i :: 0 <= i < |outcomes| && outcomes[i].None?) ||
      exists i :: 0 <= i < |rs| && Regresses(coverage, next.value, Assessed(rs[i].classId, Satisfied(coverage, rs[i])))
  }

  /** Every round of a finished run decides as it should, by the coverage, the outcomes and the requests before it. The run
      ends with the last decision, or, if that was to ask, because of the reply: an abort defers, anything else blocks. */
  ghost predicate Tells(rs: seq<Requirement>, maxRounds: nat, collect: Collector, initial: Option<Coverage>, f: Finished) {
    && |f.trace| == f.roundsUsed + 1 && RoundsDecide(rs, maxRounds, collect, initial, f.trace)
    && f.coverage == CoverageAfter(collect, initial, f.roundsUsed)
    && var last, reply := f.trace[f.roundsUsed].action, collect(f.roundsUsed + 1);
       if last == RetrieveMore then
         Ends(rs, f.coverage, reply) && f.action == if reply.ThrewAbort? then Defer else Block
       else
         && f.action == last
         && forall c :: c in f.clarifications <==>
              f.action == Clarify && Due(rs, f.coverage, c) && NeedsUser(LatestOf(LatestAfter(collect, f.trace[..f.roundsUsed]), c))
  }

  ghost predicate Along(rs: seq<Requirement>, maxRounds: nat, collect: Collector, initial: Option<Coverage>, s: State) {
    && Recording(collect, s) && |s.trace| <= maxRounds
    && s.coverage == CoverageAfter(collect, initial, |s.trace|) && RoundsDecide(rs, maxRounds, collect, initial, s.trace)
  }

  lemma OneMoreDecides(
    rs: seq<Requirement>, maxRounds: nat, collect: Collector, initial: Option<Coverage>, s: State, t: TraceRound)
    requires Along(rs, maxRounds, collect, initial, s)
    requires Decides(rs, maxRounds, s.coverage, s.latest, s.attempted, |s.trace|, t.action, t.requested)
    ensures RoundsDecide(rs, maxRounds, collect, initial, s.trace + [t])
  {
    var trace := s.trace + [t];
    forall i | 0 <= i < |trace| ensures RoundDecides(rs, maxRounds, collect, initial, trace, i) {
      if i < |s.trace| {
        assert trace[..i] == s.trace[..i];
        assert RoundDecides(rs, maxRounds, collect, initial, s.trace, i);
      } else {
        assert trace[..i] == s.trace;
      }
    }
  }

  lemma NeedsExactly(rs: seq<Requirement>, s: State, control: Control, c: ClassId)
    ensures c in Needs(rs, s, control) <==> control.action == Clarify && Due(rs, s.coverage, c) && NeedsUser(LatestOf(s.latest, c))
  {
    ClassDecided(rs, s, c);
  }

  lemma FinalTells(rs: seq<Requirement>, maxRounds: nat, collect: Collector, initial: Option<Coverage>, s: State, t: TraceRound, needs: seq<ClassId>)
    requires Along(rs, maxRounds, collect, initial, s) && t.action != RetrieveMore
    requires Decides(rs, maxRounds, s.coverage, s.latest, s.attempted, |s.trace|, t.action, t.requested)
    requires forall c :: c in needs <==> t.action == Clarify && Due(rs, s.coverage, c) && NeedsUser(LatestOf(s.latest, c))
    ensures Tells(rs, maxRounds, collect, initial, End(rs, s, t, t.action, needs, false).result)
  {
    OneMoreDecides(rs, maxRounds, collect, initial, s, t);
    assert (s.trace + [t])[..|s.trace|] == s.trace;
  }

  lemma RegressedSome(rs: seq<Requirement>, before: Coverage, after: Coverage)
    ensures Regressed(before, after, Assess(rs, before).entries) != [] <==>
      exists i :: 0 <= i < |rs| && Regresses(before, after, Assessed(rs[i].classId, Satisfied(before, rs[i])))
  {
    var es := Assess(rs, before).entries;
    EntriesAt(rs, before, 0);
    forall i | 0 <= i < |rs| ensures es[i] == Assessed(rs[i].classId, Satisfied(before, rs[i])) { EntriesAt(rs, before, i); }
    var cs := Regressed(before, after, es);
    if cs != [] { RegressedMeaning(before, after, es, cs[0]); }
    if i :| 0 <= i < |rs| && Regresses(before, after, Assessed(rs[i].classId, Satisfied(before, rs[i]))) {
      assert Regresses(before, after, es[i]);
      RegressedMeaning(before, after, es, es[i].classId);
    }
  }

  lemma EndsExactly(rs: seq<Requirement>, coverage: Coverage, next: Option<Coverage>, outcomes: seq<Option<ProviderOutcome>>)
    ensures Ends(rs, coverage, Returned(next, outcomes)) <==>
      next.None? || !AllValid(outcomes) || Regressed(coverage, next.value, Assess(rs, coverage).entries) != []
  {
    if next.Some? { RegressedSome(rs, coverage, next.value); }
  }

  lemma StopsExactly(rs: seq<Requirement>, maxRounds: nat, s: State, reply: Reply)
    requires Assess(rs, s.coverage).missingMandatory != [] && Choose(rs, maxRounds, s).action == RetrieveMore && !reply.NotAResult?
    ensures Round(rs, maxRounds, s, reply).Stop? <==> Ends(rs, s.coverage, reply)
  {
    if reply.Returned? { EndsExactly(rs, s.coverage, reply.coverage, reply.outcomes); }
  }

  lemma NextCoverage(rs: seq<Requirement>, maxRounds: nat, s: State, reply: Reply)
    requires Round(rs, maxRounds, s, reply).Go?
    ensures Round(rs, maxRounds, s, reply).next.coverage ==
            if reply.Returned? && reply.coverage.Some? then reply.coverage.value else s.coverage
  {
  }

  lemma AskingTells(rs: seq<Requirement>, maxRounds: nat, collect: Collector, initial: Option<Coverage>, s: State)
    requires Along(rs, maxRounds, collect, initial, s)
    requires Assess(rs, s.coverage).missingMandatory != [] && Choose(rs, maxRounds, s).action == RetrieveMore
    requires !collect(|s.trace| + 1).NotAResult? && Round(rs, maxRounds, s, collect(|s.trace| + 1)).Stop?
    ensures Round(rs, maxRounds, s, collect(|s.trace| + 1)).run.Done?
    ensures Tells(rs, maxRounds, collect, initial, Round(rs, maxRounds, s, collect(|s.trace| + 1)).run.result)
  {
    var t := Entry(rs, s, Choose(rs, maxRounds, s));
    StopsExactly(rs, maxRounds, s, collect(|s.trace| + 1));
    StoppedRun(rs, maxRounds, s, collect(|s.trace| + 1));
    ChooseDecides(rs, maxRounds, s);
    OneMoreDecides(rs, maxRounds, collect, initial, s, t);
  }

  lemma GoesAlong(rs: seq<Requirement>, maxRounds: nat, collect: Collector, initial: Option<Coverage>, s: State)
    requires Along(rs, maxRounds, collect, initial, s) && Round(rs, maxRounds, s, collect(|s.trace| + 1)).Go?
    ensures Along(rs, maxRounds, collect, initial, Round(rs, maxRounds, s, collect(|s.trace| + 1)).next)
  {
    var next := Round(rs, maxRounds, s, collect(|s.trace| + 1)).next;
    AskingGoes(rs, maxRounds, collect, s);
    RoundCounts(rs, maxRounds, s, collect(|s.trace| + 1));
    NextCoverage(rs, maxRounds, s, collect(|s.trace| + 1));
    ChooseDecides(rs, maxRounds, s);
    OneMoreDecides(rs, maxRounds, collect, initial, s, Entry(rs, s, Choose(rs, maxRounds, s)));
  }

  lemma ChosenTells(rs: seq<Requirement>, maxRounds: nat, collect: Collector, initial: Option<Coverage>, s: State)
    requires Along(rs, maxRounds, collect, initial, s) && Choose(rs, maxRounds, s).action != RetrieveMore
    ensures var control := Choose(rs, maxRounds, s);
      Tells(rs, maxRounds, collect, initial, End(rs, s, Entry(rs, s, control), control.action, Needs(rs, s, control), false).result)
  {
    var control := Choose(rs, maxRounds, s);
    ChooseDecides(rs, maxRounds, s);
    forall c ensures c in Needs(rs, s, control) <==>
      control.action == Clarify && Due(rs, s.coverage, c) && NeedsUser(LatestOf(s.latest, c)) { NeedsExactly(rs, s, control, c); }
    FinalTells(rs, maxRounds, collect, initial, s, Entry(rs, s, control), Needs(rs, s, control));
  }

  lemma {:induction false} TellsFrom(rs: seq<Requirement>, maxRounds: nat, collect: Collector, initial: Option<Coverage>, s: State)
    requires Along(rs, maxRounds, collect, initial, s)
    ensures var run := RunFrom(rs, maxRounds, collect, s); run.Done? ==> Tells(rs, maxRounds, collect, initial, run.result)
    decreases maxRounds - |s.trace|
  {
    var reply, control := collect(|s.trace| + 1), Choose(rs, maxRounds, s);
    AssessMeaning(rs, s.coverage);
    if Assess(rs, s.coverage).missingMandatory == [] {
      FinalTells(rs, maxRounds, collect, initial, s, TraceRound(|s.trace|, [], [], Proceed), []);
    } else if control.action != RetrieveMore {
      ChosenTells(rs, maxRounds, collect, initial, s);
    } else if !reply.NotAResult? {
      if Round(rs, maxRounds, s, reply).Stop? {
        AskingTells(rs, maxRounds, collect, initial, s);
      } else {
        RoundCounts(rs, maxRounds, s, reply);
        GoesAlong(rs, maxRounds, collect, initial, s);
        TellsFrom(rs, maxRounds, collect, initial, Round(rs, maxRounds, s, reply).next);
      }
    }
  }

  /** Whatever the collector does, every round of a run that finishes asks for exactly what is due and may be asked for,
      and the run ends for the reason that its outcomes give. */
  lemma RunTells(rs: seq<Requirement>, maxRounds: nat, collect: Collector, initial: Option<Coverage>)
    ensures var run := RunFrom(rs, maxRounds, collect, Start(initial));
      run.Done? ==> Tells(rs, maxRounds, collect, initial, run.result)
  {
    TellsFrom(rs, maxRounds, collect, initial, Start(initial));
  }
}
