/** The evidence guard: a bounded retrieval loop around a collector that may answer anything. */
module EvidenceGuard {
  import opened EvidenceContracts
  import opened JsText
  import opened Options
  import opened Sorting

  type ClassId = Str

  // ---- Requirements, coverage and its assessment ----

  datatype ConflictPolicy = Reject | Warn | Allow

  datatype Requirement = Requirement(
    classId: ClassId, mandatory: bool, level: Option<Level>, conflictPolicy: Option<ConflictPolicy>)

  datatype CoverageEntry = CoverageEntry(status: Status, level: Level)

  /** A valid snapshot has one entry per class. */
  type Coverage = map<ClassId, CoverageEntry>

  predicate Satisfies(e: CoverageEntry, r: Requirement) {
    var levelOk := Rank(e.level) >= Rank(if r.level.Some? then r.level.value else NoVerification);
    match e.status
    case Present => levelOk
    case Conflicted => r.conflictPolicy.Some? && r.conflictPolicy.value != Reject && levelOk
    case _ => false
  }

  predicate Satisfied(c: Coverage, r: Requirement) { r.classId in c && Satisfies(c[r.classId], r) }

  datatype Assessed = Assessed(classId: ClassId, satisfied: bool)

  datatype Assessment = Assessment(entries: seq<Assessed>, missingMandatory: seq<ClassId>)

  function Assess(rs: seq<Requirement>, c: Coverage): Assessment {
    if rs == [] then Assessment([], [])
    else
      var rest := Assess(rs[1..], c);
      Assessment([Assessed(rs[0].classId, Satisfied(c, rs[0]))] + rest.entries,
                 (if rs[0].mandatory && !Satisfied(c, rs[0]) then [rs[0].classId] else []) + rest.missingMandatory)
  }

  /** Every mandatory requirement is satisfied; optional ones have no say. */
  ghost predicate MandatorySatisfied(rs: seq<Requirement>, c: Coverage) {
    forall i :: 0 <= i < |rs| && rs[i].mandatory ==> Satisfied(c, rs[i])
  }

  lemma {:induction false} AssessMeaning(rs: seq<Requirement>, c: Coverage)
    ensures Assess(rs, c).missingMandatory == [] <==> MandatorySatisfied(rs, c)
  {
    if rs != [] {
      AssessMeaning(rs[1..], c);
      assert forall i :: 1 <= i < |rs| ==> rs[i] == rs[1..][i-1];
    }
  }

  // ---- Provider outcomes ----

  datatype OutcomeKind =
    | Collected | NotFound | TemporaryUnavailable | PermanentUnavailable
    | UserContextRequired | ProviderError | CollectionLimitExceeded

  datatype ProviderOutcome = ProviderOutcome(classId: ClassId, kind: OutcomeKind, retryable: bool, alternate: bool)

  predicate Has(os: seq<ProviderOutcome>, k: OutcomeKind) { exists i :: 0 <= i < |os| && os[i].kind == k }

  predicate Retryable(os: seq<ProviderOutcome>) { exists i :: 0 <= i < |os| && (os[i].retryable || os[i].alternate) }

  type Latest = map<ClassId, seq<ProviderOutcome>>

  function LatestOf(latest: Latest, c: ClassId): seq<ProviderOutcome> { if c in latest then latest[c] else [] }

  function Grouped(os: seq<ProviderOutcome>): Latest {
    if os == [] then map[]
    else
      var g, o := Grouped(os[..|os|-1]), os[|os|-1];
      g[o.classId := LatestOf(g, o.classId) + [o]]
  }

  /** Every class a round speaks of has its outcomes replaced; the other classes keep theirs. */
  function Recorded(latest: Latest, os: seq<ProviderOutcome>): Latest { latest + Grouped(os) }

  lemma GroupedNext(os: seq<ProviderOutcome>, i: nat)
    requires i < |os|
    ensures var g := Grouped(os[..i]); Grouped(os[..i+1]) == g[os[i].classId := LatestOf(g, os[i].classId) + [os[i]]]
  {
    assert os[..i+1][..i] == os[..i];
  }

  method RecordRoundOutcomes(latest: Latest, os: seq<ProviderOutcome>) returns (next: Latest)
    ensures next == Recorded(latest, os)
  {
    var byClass: Latest, i := map[], 0;
    while i < |os|
      invariant 0 <= i <= |os| && byClass == Grouped(os[..i])
    {
      GroupedNext(os, i);
      var list := if os[i].classId in byClass then byClass[os[i].classId] else [];
      byClass := byClass[os[i].classId := list + [os[i]]];
      i := i + 1;
    }
    assert os[..i] == os;
    next := latest + byClass;
  }

  /** The outcomes of one class, in order. */
  function ForClass(os: seq<ProviderOutcome>, c: ClassId): seq<ProviderOutcome> {
    if os == [] then []
    else ForClass(os[..|os|-1], c) + if os[|os|-1].classId == c then [os[|os|-1]] else []
  }

  lemma {:induction false} RecordedMeaning(latest: Latest, os: seq<ProviderOutcome>, c: ClassId)
    ensures LatestOf(Recorded(latest, os), c) == if ForClass(os, c) == [] then LatestOf(latest, c) else ForClass(os, c)
    ensures c in Grouped(os) <==> ForClass(os, c) != []
    ensures LatestOf(Grouped(os), c) == ForClass(os, c)
  {
    if os != [] {
      RecordedMeaning(latest, os[..|os|-1], c);
    }
  }

  // ---- Policy ----

  datatype FinalKind = HardGap | UserContext | Temporary

  datatype ClassDecision = ClassDecision(classId: ClassId, canRetry: bool, final: FinalKind)

  function ClassifyClassControl(c: ClassId, os: seq<ProviderOutcome>, attempted: bool): ClassDecision {
    if Has(os, PermanentUnavailable) then ClassDecision(c, false, HardGap)
    else if Has(os, CollectionLimitExceeded) then ClassDecision(c, false, HardGap)
    else if Has(os, ProviderError) then ClassDecision(c, Retryable(os), HardGap)
    else if Has(os, UserContextRequired) then ClassDecision(c, false, UserContext)
    else if Has(os, TemporaryUnavailable) then ClassDecision(c, Retryable(os), Temporary)
    else if Has(os, Collected) || Has(os, NotFound) then ClassDecision(c, Retryable(os), HardGap)
    else ClassDecision(c, !attempted, HardGap)
  }

  datatype Action = Proceed | RetrieveMore | Clarify | Defer | Block

  /** The requested classes are sorted. */
  datatype Control = Control(action: Action, requested: seq<ClassId>)

  function RetryClasses(ds: seq<ClassDecision>): seq<ClassId> {
    if ds == [] then []
    else (if ds[0].canRetry then [ds[0].classId] else []) + RetryClasses(ds[1..])
  }

  function Clarifications(ds: seq<ClassDecision>): seq<ClassId> {
    if ds == [] then []
    else (if ds[0].final == UserContext then [ds[0].classId] else []) + Clarifications(ds[1..])
  }

  function SortedRequest(ds: seq<ClassDecision>): seq<ClassId> { Sort(Less, RetryClasses(ds)) }

  predicate AnyFinal(ds: seq<ClassDecision>, k: FinalKind) { exists d :: d in ds && d.final == k }

  function ChooseControlAction(a: Assessment, ds: seq<ClassDecision>, roundsUsed: nat, maxRounds: nat): Control {
    if a.missingMandatory == [] then Control(Proceed, [])
    else if roundsUsed < maxRounds && RetryClasses(ds) != [] then Control(RetrieveMore, SortedRequest(ds))
    else if AnyFinal(ds, HardGap) then Control(Block, [])
    else if AnyFinal(ds, UserContext) then Control(Clarify, [])
    else if AnyFinal(ds, Temporary) then Control(Defer, [])
    else Control(Block, [])
  }

  /** Is the last assessed entry of the class unsatisfied? (A later entry of a class shadows an earlier one.) */
  predicate LastUnsatisfied(entries: seq<Assessed>, c: ClassId) {
    if entries == [] then false
    else if entries[|entries|-1].classId == c then !entries[|entries|-1].satisfied
    else LastUnsatisfied(entries[..|entries|-1], c)
  }

  /** One decision for every mandatory requirement whose class is unsatisfied. */
  function DecisionsFor(rs: seq<Requirement>, a: Assessment, latest: Latest, attempted: set<ClassId>): seq<ClassDecision> {
    if rs == [] then []
    else
      (if rs[0].mandatory && LastUnsatisfied(a.entries, rs[0].classId)
       then [ClassifyClassControl(rs[0].classId, LatestOf(latest, rs[0].classId), rs[0].classId in attempted)]
       else [])
      + DecisionsFor(rs[1..], a, latest, attempted)
  }

  lemma {:induction false} RetryClassesMeaning(rs: seq<Requirement>, a: Assessment, latest: Latest, attempted: set<ClassId>, c: ClassId)
    requires c in RetryClasses(DecisionsFor(rs, a, latest, attempted))
    ensures ClassifyClassControl(c, LatestOf(latest, c), c in attempted).canRetry
  {
    var ds, rest := DecisionsFor(rs, a, latest, attempted), DecisionsFor(rs[1..], a, latest, attempted);
    if ds != rest {
      assert ds[1..] == rest;
    }
    if c in RetryClasses(rest) {
      RetryClassesMeaning(rs[1..], a, latest, attempted, c);
    }
  }

  lemma {:induction false} ClarificationsMeaning(rs: seq<Requirement>, a: Assessment, latest: Latest, attempted: set<ClassId>, c: ClassId)
    requires c in Clarifications(DecisionsFor(rs, a, latest, attempted))
    ensures Has(LatestOf(latest, c), UserContextRequired)
  {
    var ds, rest := DecisionsFor(rs, a, latest, attempted), DecisionsFor(rs[1..], a, latest, attempted);
    if ds != rest {
      assert ds[1..] == rest;
    }
    if c in Clarifications(rest) {
      ClarificationsMeaning(rs[1..], a, latest, attempted, c);
    }
  }

  /** A satisfied class may only move on to an explicit stale, conflicted or unverified state. */
  predicate Regresses(before: Coverage, after: Coverage, e: Assessed) {
    && e.satisfied && e.classId in before
    && (e.classId !in after
        || after[e.classId].status == Missing
        || (after[e.classId].status == Present && Rank(after[e.classId].level) < Rank(before[e.classId].level)))
  }

  /** The regressed classes, in the order of the assessment. */
  function Regressed(before: Coverage, after: Coverage, entries: seq<Assessed>): seq<ClassId> {
    if entries == [] then []
    else
      var e := entries[|entries|-1];
      Regressed(before, after, entries[..|entries|-1]) + if Regresses(before, after, e) then [e.classId] else []
  }

  lemma {:induction false} RegressedMeaning(before: Coverage, after: Coverage, entries: seq<Assessed>, c: ClassId)
    ensures c in Regressed(before, after, entries)
       <==> exists i :: 0 <= i < |entries| && entries[i].classId == c && Regresses(before, after, entries[i])
  {
    if entries != [] {
      var init, n := entries[..|entries|-1], |entries| - 1;
      RegressedMeaning(before, after, init, c);
      assert forall i :: 0 <= i < n ==> init[i] == entries[i];
      if c in Regressed(before, after, entries) && c !in Regressed(before, after, init) {
        assert entries[n].classId == c;
      }
    }
  }

  method DetectCoverageRegression(before: Coverage, after: Coverage, a: Assessment) returns (regressed: seq<ClassId>)
    ensures regressed == Regressed(before, after, a.entries)
  {
    regressed := [];
    for i := 0 to |a.entries|
      invariant regressed == Regressed(before, after, a.entries[..i])
    {
      assert a.entries[..i+1][..i] == a.entries[..i];
      if Regresses(before, after, a.entries[i]) {
        regressed := regressed + [a.entries[i].classId];
      }
    }
    assert a.entries[..|a.entries|] == a.entries;
  }

  // ---- The collector ----

  /** Everything the callback can do. `None` stands for a value that fails its schema. */
  datatype Reply =
    | Returned(coverage: Option<Coverage>, outcomes: seq<Option<ProviderOutcome>>)
    | NotAResult                 // a value whose fields cannot be read: reading them throws
    | ThrewAbort(external: bool, timedOut: bool)
    | ThrewError

  type Collector = nat -> Reply

  predicate AllValid(os: seq<Option<ProviderOutcome>>) { forall i :: 0 <= i < |os| ==> os[i].Some? }

  function Values(os: seq<Option<ProviderOutcome>>): seq<ProviderOutcome>
    requires AllValid(os)
  {
    seq(|os|, i requires 0 <= i < |os| => os[i].value)
  }

  function TimeoutOutcomes(requested: seq<ClassId>): seq<ProviderOutcome> {
    seq(|requested|, i requires 0 <= i < |requested| => ProviderOutcome(requested[i], TemporaryUnavailable, true, false))
  }

  /** What a round that keeps the run going leaves in the records. */
  function RoundOutcomes(r: Reply, requested: seq<ClassId>): seq<ProviderOutcome> {
    if r.ThrewAbort? then TimeoutOutcomes(requested)
    else if r.Returned? && AllValid(r.outcomes) then Values(r.outcomes)
    else []
  }

  datatype TraceRound = TraceRound(round: nat, requested: seq<ClassId>, missing: seq<ClassId>, action: Action)

  /** The latest outcomes by class after the rounds of `trace`, all of which asked the collector. */
  function LatestAfter(collect: Collector, trace: seq<TraceRound>): Latest {
    if trace == [] then map[]
    else
      var last := trace[|trace|-1];
      Recorded(LatestAfter(collect, trace[..|trace|-1]), RoundOutcomes(collect(|trace|), last.requested))
  }

  /** The classes requested so far. */
  function Attempted(trace: seq<TraceRound>): set<ClassId> {
    if trace == [] then {}
    else Attempted(trace[..|trace|-1]) + Members(trace[|trace|-1].requested)
  }

  function Members(cs: seq<ClassId>): set<ClassId> { set c | c in cs }

  datatype Finished = Finished(
    action: Action, roundsUsed: nat, coverage: Coverage, assessment: Assessment,
    requested: set<ClassId>, clarifications: seq<ClassId>, trace: seq<TraceRound>, aborted: bool)

  datatype Run = Done(result: Finished) | RequestRejected | CollectorBroken

  // ---- What holds of every run ----

  /** A class is asked for again only on a retry or alternate-provider flag, and never after a
      permanent or limit outcome. */
  ghost predicate Retriable(os: seq<ProviderOutcome>) {
    Retryable(os) && !Has(os, PermanentUnavailable) && !Has(os, CollectionLimitExceeded)
  }

  /** In every round, the classes requested before are retriable by their latest outcomes. */
  ghost predicate RetriesJustified(collect: Collector, trace: seq<TraceRound>) {
    trace == [] ||
    var before, last := trace[..|trace|-1], trace[|trace|-1];
    && RetriesJustified(collect, before)
    && forall c :: c in last.requested && c in Attempted(before) ==> Retriable(LatestOf(LatestAfter(collect, before), c))
  }

  /** Rounds numbered from 0, every one of which asked the collector for something. */
  ghost predicate Asking(trace: seq<TraceRound>) {
    forall i :: 0 <= i < |trace| ==>
      trace[i].round == i && trace[i].action == RetrieveMore && trace[i].requested != [] && trace[i].missing != []
  }

  ghost predicate Shape(rs: seq<Requirement>, maxRounds: nat, collect: Collector, f: Finished) {
    && f.action != RetrieveMore
    && f.assessment == Assess(rs, f.coverage)
    && (f.action == Proceed <==> MandatorySatisfied(rs, f.coverage))
    && f.roundsUsed <= maxRounds && |f.trace| == f.roundsUsed + 1
    && Asking(f.trace[..f.roundsUsed]) && f.trace[f.roundsUsed].round == f.roundsUsed
    && f.trace[f.roundsUsed].action in {RetrieveMore, f.action}
    && (f.trace[f.roundsUsed].action == RetrieveMore ==> f.roundsUsed < maxRounds)
    && RetriesJustified(collect, f.trace)
    && f.requested == Attempted(f.trace)
    && (f.aborted ==> f.action == Defer)
    && (f.clarifications != [] ==> f.action == Clarify)
    && (forall c :: c in f.clarifications ==>
          Has(LatestOf(LatestAfter(collect, f.trace[..f.roundsUsed]), c), UserContextRequired))
  }

  /** The variables of the loop between rounds; `roundsUsed` is the length of the trace. */
  datatype State = State(coverage: Coverage, trace: seq<TraceRound>, latest: Latest, attempted: set<ClassId>)

  function Decisions(rs: seq<Requirement>, s: State): seq<ClassDecision> {
    DecisionsFor(rs, Assess(rs, s.coverage), s.latest, s.attempted)
  }

  function Choose(rs: seq<Requirement>, maxRounds: nat, s: State): Control {
    ChooseControlAction(Assess(rs, s.coverage), Decisions(rs, s), |s.trace|, maxRounds)
  }

  function Entry(rs: seq<Requirement>, s: State, c: Control): TraceRound {
    TraceRound(|s.trace|, c.requested, Assess(rs, s.coverage).missingMandatory, c.action)
  }

  /** The result when the run ends with `action` in the round whose trace entry is `t`. */
  function End(rs: seq<Requirement>, s: State, t: TraceRound, action: Action, needs: seq<ClassId>, aborted: bool): Run {
    Done(Finished(action, |s.trace|, s.coverage, Assess(rs, s.coverage),
                  s.attempted + Members(t.requested), needs, s.trace + [t], aborted))
  }

  function Continue(s: State, t: TraceRound, coverage: Coverage, os: seq<ProviderOutcome>): State {
    State(coverage, s.trace + [t], Recorded(s.latest, os), s.attempted + Members(t.requested))
  }

  function Needs(rs: seq<Requirement>, s: State, c: Control): seq<ClassId> {
    if c.action == Clarify then Clarifications(Decisions(rs, s)) else []
  }

  datatype Outcome = Stop(run: Run) | Go(next: State)

  /** One round from the state `s`, given what the collector replies if it is asked. */
  function Round(rs: seq<Requirement>, maxRounds: nat, s: State, reply: Reply): Outcome {
    if Assess(rs, s.coverage).missingMandatory == [] then
      Stop(End(rs, s, TraceRound(|s.trace|, [], [], Proceed), Proceed, [], false))
    else
      var control := Choose(rs, maxRounds, s);
      var t := Entry(rs, s, control);
      if control.action != RetrieveMore then Stop(End(rs, s, t, control.action, Needs(rs, s, control), false))
      else
        match reply
        case ThrewError => Stop(End(rs, s, t, Block, [], false))
        case NotAResult => Stop(CollectorBroken)
        case ThrewAbort(external, timedOut) =>
          if external || !timedOut then Stop(End(rs, s, t, Defer, [], true))
          else Go(Continue(s, t, s.coverage, TimeoutOutcomes(t.requested)))
        case Returned(next, outcomes) =>
          if next.None? || !AllValid(outcomes) || Regressed(s.coverage, next.value, Assess(rs, s.coverage).entries) != [] then
            Stop(End(rs, s, t, Block, [], false))
          else Go(Continue(s, t, next.value, Values(outcomes)))
  }

  lemma RoundCounts(rs: seq<Requirement>, maxRounds: nat, s: State, reply: Reply)
    requires |s.trace| <= maxRounds
    ensures Round(rs, maxRounds, s, reply).Go? ==>
              |Round(rs, maxRounds, s, reply).next.trace| == |s.trace| + 1 <= maxRounds
  {
  }

  /** A run from the state `s` on, by what the collector replies. */
  function RunFrom(rs: seq<Requirement>, maxRounds: nat, collect: Collector, s: State): Run
    requires |s.trace| <= maxRounds
    decreases maxRounds - |s.trace|
  {
    RoundCounts(rs, maxRounds, s, collect(|s.trace| + 1));
    match Round(rs, maxRounds, s, collect(|s.trace| + 1))
    case Stop(run) => run
    case Go(next) => RunFrom(rs, maxRounds, collect, next)
  }

  function Start(initial: Option<Coverage>): State {
    State(if initial.Some? then initial.value else map[], [], map[], {})
  }

  ghost predicate Recording(collect: Collector, s: State) {
    && Asking(s.trace) && RetriesJustified(collect, s.trace)
    && s.latest == LatestAfter(collect, s.trace) && s.attempted == Attempted(s.trace)
  }

  lemma AppendRound(rs: seq<Requirement>, maxRounds: nat, collect: Collector, s: State, t: TraceRound)
    requires Recording(collect, s)
    requires t.requested == [] || t == Entry(rs, s, Choose(rs, maxRounds, s))
    ensures RetriesJustified(collect, s.trace + [t])
    ensures s.attempted + Members(t.requested) == Attempted(s.trace + [t])
    ensures (s.trace + [t])[..|s.trace|] == s.trace
  {
    assert (s.trace + [t])[..|s.trace|] == s.trace;
    forall c | c in t.requested && c in s.attempted ensures Retriable(LatestOf(s.latest, c)) {
      RequestedRetriable(rs, maxRounds, s, c);
    }
  }

  lemma SortedClasses(cs: seq<ClassId>, c: ClassId)
    ensures c in Sort(Less, cs) <==> c in cs
  {
    SameElements(Sort(Less, cs), cs);
  }

  lemma RequestIs(a: Assessment, ds: seq<ClassDecision>, roundsUsed: nat, maxRounds: nat)
    ensures var control := ChooseControlAction(a, ds, roundsUsed, maxRounds);
      control.requested == if control.action == RetrieveMore then SortedRequest(ds) else []
  {
    var control := ChooseControlAction(a, ds, roundsUsed, maxRounds);
    if a.missingMandatory != [] && roundsUsed < maxRounds && RetryClasses(ds) != [] {
      assert control == Control(RetrieveMore, SortedRequest(ds));
    } else {
      assert control.requested == [] && control.action != RetrieveMore;
    }
  }

  lemma RequestedDecided(a: Assessment, ds: seq<ClassDecision>, roundsUsed: nat, maxRounds: nat, c: ClassId)
    requires c in ChooseControlAction(a, ds, roundsUsed, maxRounds).requested
    ensures c in RetryClasses(ds)
  {
    RequestIs(a, ds, roundsUsed, maxRounds);
    SortedClasses(RetryClasses(ds), c);
  }

  lemma AskedAgain(c: ClassId, os: seq<ProviderOutcome>)
    requires ClassifyClassControl(c, os, true).canRetry
    ensures Retriable(os)
  {
  }

  /** What a round asks for again is retriable. */
  lemma RequestedRetriable(rs: seq<Requirement>, maxRounds: nat, s: State, c: ClassId)
    requires c in Choose(rs, maxRounds, s).requested && c in s.attempted
    ensures Retriable(LatestOf(s.latest, c))
  {
    RequestedDecided(Assess(rs, s.coverage), Decisions(rs, s), |s.trace|, maxRounds, c);
    RetryClassesMeaning(rs, Assess(rs, s.coverage), s.latest, s.attempted, c);
    AskedAgain(c, LatestOf(s.latest, c));
  }

  lemma EndShape(rs: seq<Requirement>, maxRounds: nat, collect: Collector, s: State, t: TraceRound,
                 action: Action, needs: seq<ClassId>, aborted: bool)
    requires Recording(collect, s) && |s.trace| <= maxRounds && t.round == |s.trace|
    requires t.requested == [] || t == Entry(rs, s, Choose(rs, maxRounds, s))
    requires action != RetrieveMore && t.action in {RetrieveMore, action}
    requires t.action == RetrieveMore ==> |s.trace| < maxRounds
    requires action == Proceed <==> Assess(rs, s.coverage).missingMandatory == []
    requires aborted ==> action == Defer
    requires needs != [] ==> action == Clarify
    requires forall c :: c in needs ==> Has(LatestOf(s.latest, c), UserContextRequired)
    ensures Shape(rs, maxRounds, collect, End(rs, s, t, action, needs, aborted).result)
  {
    AppendRound(rs, maxRounds, collect, s, t);
    AssessMeaning(rs, s.coverage);
  }

  lemma ContinueRecording(rs: seq<Requirement>, maxRounds: nat, collect: Collector, s: State, t: TraceRound,
                          coverage: Coverage, os: seq<ProviderOutcome>)
    requires Recording(collect, s) && Assess(rs, s.coverage).missingMandatory != []
    requires t == Entry(rs, s, Choose(rs, maxRounds, s)) && t.action == RetrieveMore
    requires os == RoundOutcomes(collect(|s.trace| + 1), t.requested)
    ensures Recording(collect, Continue(s, t, coverage, os))
  {
    AppendRound(rs, maxRounds, collect, s, t);
  }

  ghost predicate Fine(rs: seq<Requirement>, maxRounds: nat, collect: Collector, run: Run) {
    if run.Done? then Shape(rs, maxRounds, collect, run.result)
    else run.CollectorBroken? && exists k :: 1 <= k <= maxRounds && collect(k) == NotAResult
  }

  lemma FinalRound(rs: seq<Requirement>, maxRounds: nat, collect: Collector, s: State)
    requires Recording(collect, s) && |s.trace| <= maxRounds
    requires Assess(rs, s.coverage).missingMandatory == [] || Choose(rs, maxRounds, s).action != RetrieveMore
    ensures Round(rs, maxRounds, s, collect(|s.trace| + 1)).Stop?
    ensures Fine(rs, maxRounds, collect, Round(rs, maxRounds, s, collect(|s.trace| + 1)).run)
  {
    if Assess(rs, s.coverage).missingMandatory == [] {
      EndShape(rs, maxRounds, collect, s, TraceRound(|s.trace|, [], [], Proceed), Proceed, [], false);
    } else {
      var control := Choose(rs, maxRounds, s);
      forall c | c in Needs(rs, s, control) ensures Has(LatestOf(s.latest, c), UserContextRequired) {
        ClarificationsMeaning(rs, Assess(rs, s.coverage), s.latest, s.attempted, c);
      }
      EndShape(rs, maxRounds, collect, s, Entry(rs, s, control), control.action, Needs(rs, s, control), false);
    }
  }

  lemma StoppedRun(rs: seq<Requirement>, maxRounds: nat, s: State, reply: Reply)
    requires Assess(rs, s.coverage).missingMandatory != [] && Choose(rs, maxRounds, s).action == RetrieveMore
    requires Round(rs, maxRounds, s, reply).Stop?
    ensures var t := Entry(rs, s, Choose(rs, maxRounds, s));
      Round(rs, maxRounds, s, reply).run ==
        if reply.NotAResult? then CollectorBroken
        else if reply.ThrewAbort? then End(rs, s, t, Defer, [], true)
        else End(rs, s, t, Block, [], false)
  {
  }

  lemma AskingStops(rs: seq<Requirement>, maxRounds: nat, collect: Collector, s: State)
    requires Recording(collect, s) && |s.trace| <= maxRounds
    requires Assess(rs, s.coverage).missingMandatory != [] && Choose(rs, maxRounds, s).action == RetrieveMore
    requires Round(rs, maxRounds, s, collect(|s.trace| + 1)).Stop?
    ensures Fine(rs, maxRounds, collect, Round(rs, maxRounds, s, collect(|s.trace| + 1)).run)
  {
    var t := Entry(rs, s, Choose(rs, maxRounds, s));
    StoppedRun(rs, maxRounds, s, collect(|s.trace| + 1));
    if collect(|s.trace| + 1).ThrewAbort? {
      EndShape(rs, maxRounds, collect, s, t, Defer, [], true);
    } else {
      EndShape(rs, maxRounds, collect, s, t, Block, [], false);
    }
  }

  lemma AskingGoes(rs: seq<Requirement>, maxRounds: nat, collect: Collector, s: State)
    requires Recording(collect, s) && |s.trace| <= maxRounds
    requires Round(rs, maxRounds, s, collect(|s.trace| + 1)).Go?
    ensures Recording(collect, Round(rs, maxRounds, s, collect(|s.trace| + 1)).next)
  {
    var t, next := Entry(rs, s, Choose(rs, maxRounds, s)), Round(rs, maxRounds, s, collect(|s.trace| + 1)).next;
    ContinueRecording(rs, maxRounds, collect, s, t, next.coverage, RoundOutcomes(collect(|s.trace| + 1), t.requested));
  }

  /** Whatever the collector does, a run that finishes has the shape the guard promises. */
  lemma {:induction false} RunShape(rs: seq<Requirement>, maxRounds: nat, collect: Collector, s: State)
    requires Recording(collect, s) && |s.trace| <= maxRounds
    ensures Fine(rs, maxRounds, collect, RunFrom(rs, maxRounds, collect, s))
    decreases maxRounds - |s.trace|
  {
    if Assess(rs, s.coverage).missingMandatory == [] || Choose(rs, maxRounds, s).action != RetrieveMore {
      FinalRound(rs, maxRounds, collect, s);
    } else {
      RoundCounts(rs, maxRounds, s, collect(|s.trace| + 1));
      match Round(rs, maxRounds, s, collect(|s.trace| + 1))
      case Stop(run) =>
        AskingStops(rs, maxRounds, collect, s);
      case Go(next) =>
        AskingGoes(rs, maxRounds, collect, s);
        RunShape(rs, maxRounds, collect, next);
    }
  }

  /** One turn of the guard loop. The check for satisfied evidence, which the source makes before the
      loop and after every accepted collection, stands at the head of the turn; the choice after the
      loop is the turn in which the budget is spent. */
  method PlayRound(rs: seq<Requirement>, maxRounds: nat, collect: Collector, s: State) returns (o: Outcome)
    ensures o == Round(rs, maxRounds, s, collect(|s.trace| + 1))
  {
    var assessment, roundsUsed := Assess(rs, s.coverage), |s.trace|;
    if assessment.missingMandatory == [] {
      return Stop(End(rs, s, TraceRound(roundsUsed, [], [], Proceed), Proceed, [], false));
    }
    var decisions := DecisionsFor(rs, assessment, s.latest, s.attempted);
    var control := ChooseControlAction(assessment, decisions, roundsUsed, maxRounds);
    var entry := TraceRound(roundsUsed, control.requested, assessment.missingMandatory, control.action);
    if control.action != RetrieveMore {
      var needs := if control.action == Clarify then Clarifications(decisions) else [];
      return Stop(End(rs, s, entry, control.action, needs, false));
    }
    var trace, attempted := s.trace + [entry], s.attempted + Members(control.requested);
    var reply := collect(roundsUsed + 1);
    match reply
    case NotAResult =>
      o := Stop(CollectorBroken);
    case ThrewError =>
      o := Stop(End(rs, s, entry, Block, [], false));
    case ThrewAbort(external, timedOut) =>
      if external || !timedOut {
        o := Stop(End(rs, s, entry, Defer, [], true));
      } else {
        var latest := RecordRoundOutcomes(s.latest, TimeoutOutcomes(control.requested));
        o := Go(State(s.coverage, trace, latest, attempted));
      }
    case Returned(coverage, outcomes) =>
      if coverage.None? || !AllValid(outcomes) {
        return Stop(End(rs, s, entry, Block, [], false));
      }
      var regressed := DetectCoverageRegression(s.coverage, coverage.value, assessment);
      if regressed != [] {
        return Stop(End(rs, s, entry, Block, [], false));
      }
      var latest := RecordRoundOutcomes(s.latest, Values(outcomes));
      o := Go(State(coverage.value, trace, latest, attempted));
  }

  /** runEvidenceGuard: a request outside the bound of ten rounds is rejected. */
  method RunEvidenceGuard(rs: seq<Requirement>, initial: Option<Coverage>, maxRounds: int, collect: Collector)
    returns (out: Run)
    ensures out == RequestRejected <==> !(0 <= maxRounds <= 10)
    ensures out != RequestRejected ==> Fine(rs, maxRounds, collect, out)
    ensures out != RequestRejected ==> out == RunFrom(rs, maxRounds, collect, Start(initial))
  {
    if !(0 <= maxRounds <= 10) {
      return RequestRejected;
    }
    RunShape(rs, maxRounds, collect, Start(initial));
    var s := Start(initial);
    while true
      invariant |s.trace| <= maxRounds
      invariant RunFrom(rs, maxRounds, collect, Start(initial)) == RunFrom(rs, maxRounds, collect, s)
      decreases maxRounds - |s.trace|
    {
      var o := PlayRound(rs, maxRounds, collect, s);
      RoundCounts(rs, maxRounds, s, collect(|s.trace| + 1));
      match o {
        case Stop(run) => return run;
        case Go(next) => s := next;
      }
    }
  }
}
