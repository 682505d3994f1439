/** The evidence coverage builder: canonical batch order, deduplication, freshness and conflict partition. */
module CoverageBuilder {
  import opened EvidenceContracts
  import opened JsText
  import opened Options
  import opened Sorting

  // ---- Inputs ----

  datatype Provider = Provider(id: Str, priority: nat)

  datatype Issue = Issue(code: Str, message: Str)

  datatype Batch<C> = Batch(
    provider: Provider, classId: Str, subject: Str, candidates: seq<C>, outcome: Option<Str>, reports: seq<Issue>)

  datatype Evidence = Evidence(
    id: Str, provider: Str, claimKey: Str, digest: Str, observedAt: int, level: Level)

  datatype Qualification =
    | Qualified(evidence: Evidence, stale: bool, issues: seq<Issue>)
    | Rejected(issues: seq<Issue>, referenceId: Str)

  datatype Requirement = Requirement(classId: Str, maxAge: Option<int>)

  datatype Limits = Limits(
    providersPerClass: nat, candidatesPerBatch: nat, candidatesTotal: nat, claimBytes: nat, diagnostics: nat)

  /** What the builder calls: qualification of a candidate for a requirement and a subject, the size of a
      parsed claim (none when the candidate fails its schema), and the ids under which over-limit input is
      reported. */
  datatype Calls<!C> = Calls(
    qualify: (Provider, Requirement, Str, C) -> Qualification,
    claimBytes: C -> Option<nat>,
    limitId: (Provider, Str, Str, C) -> Str,
    noCandidateId: (Str, Str) -> Str)

  // ---- Outputs ----

  datatype Note =
    | NoNote
    | RejectedNote(count: nat, codes: seq<Str>)
    | StaleNote(count: nat)
    | ConflictNote(conflicted: nat, keys: nat)
    | LimitNote(violation: Violation)

  datatype Violation =
    | TooManyProviders(count: nat)
    | BatchTooLarge(provider: Str, count: nat)
    | TooManyCandidates(count: nat)
    | ClaimTooLarge(bytes: nat)

  datatype Entry = Entry(
    classId: Str, status: Status, level: Level, ids: seq<Str>, conflictIds: Option<seq<Str>>,
    staleSince: Option<int>, checkedAt: int, note: Note)

  datatype Diagnostic =
    | SubjectMismatch(classId: Str, provider: Str, subject: Str)
    | LimitExceeded(classId: Str, violation: Violation)
    | IssueFound(classId: Str, provider: Str, issue: Issue)
    | OutcomeReported(classId: Str, provider: Str, outcome: Str)

  // ---- Canonical order ----

  function ForClass<C>(batches: seq<Batch<C>>, classId: Str): seq<Batch<C>> {
    if batches == [] then []
    else ForClass(batches[..|batches|-1], classId)
         + if batches[|batches|-1].classId == classId then [batches[|batches|-1]] else []
  }

  predicate ProviderBefore<C>(a: Batch<C>, b: Batch<C>) {
    if a.provider.priority != b.provider.priority then a.provider.priority > b.provider.priority
    else Less(a.provider.id, b.provider.id)
  }

  function BatchOrder<C>(): (Batch<C>, Batch<C>) -> bool { (a, b) => ProviderBefore(a, b) }

  /** Provider priority descending, then provider id ascending. */
  function SortBatches<C>(batches: seq<Batch<C>>): seq<Batch<C>> {
    Sort(BatchOrder(), batches)
  }

  /** Set semantics, then the default sort. */
  function SortStrings(ids: seq<Str>): seq<Str> { Sort(Less, Dedupe(ids)) }

  // ---- Collection bounds ----

  function CandidateCount<C>(batches: seq<Batch<C>>): nat {
    if batches == [] then 0 else CandidateCount(batches[..|batches|-1]) + |batches[|batches|-1].candidates|
  }

  /** The first batch over its bound. */
  function OverfullBatch<C>(batches: seq<Batch<C>>, bound: nat): Option<Violation> {
    if batches == [] then None
    else
      var last := batches[|batches|-1];
      var before := OverfullBatch(batches[..|batches|-1], bound);
      if before.Some? then before
      else if |last.candidates| > bound then Some(BatchTooLarge(last.provider.id, |last.candidates|))
      else None
  }

  type Offer<C> = (Provider, C)

  function Offers<C>(b: Batch<C>): seq<Offer<C>> {
    seq(|b.candidates|, i requires 0 <= i < |b.candidates| => (b.provider, b.candidates[i]))
  }

  function Candidates<C>(batches: seq<Batch<C>>): seq<Offer<C>> {
    if batches == [] then [] else Candidates(batches[..|batches|-1]) + Offers(batches[|batches|-1])
  }

  /** The first claim over the bound. */
  function OversizedClaim<C>(calls: Calls<C>, cs: seq<Offer<C>>, bound: nat): Option<Violation> {
    if cs == [] then None
    else
      var before := OversizedClaim(calls, cs[..|cs|-1], bound);
      var bytes := calls.claimBytes(cs[|cs|-1].1);
      if before.Some? then before
      else if bytes.Some? && bytes.value > bound then Some(ClaimTooLarge(bytes.value))
      else None
  }

  /** The bounds, in the order in which they are checked. */
  function LimitViolation<C>(calls: Calls<C>, batches: seq<Batch<C>>, limits: Limits): Option<Violation> {
    if |batches| > limits.providersPerClass then Some(TooManyProviders(|batches|))
    else if OverfullBatch(batches, limits.candidatesPerBatch).Some? then OverfullBatch(batches, limits.candidatesPerBatch)
    else if CandidateCount(batches) > limits.candidatesTotal then Some(TooManyCandidates(CandidateCount(batches)))
    else OversizedClaim(calls, Candidates(batches), limits.claimBytes)
  }

  /** The ids under which an over-limit class is reported: one for each candidate, or one if there is none. */
  function LimitIds<C>(calls: Calls<C>, classId: Str, subject: Str, batches: seq<Batch<C>>): seq<Str> {
    var cs := Candidates(batches);
    if cs == [] then [calls.noCandidateId(classId, subject)]
    else seq(|cs|, i requires 0 <= i < |cs| => calls.limitId(cs[i].0, classId, subject, cs[i].1))
  }

  function LimitEntry<C>(calls: Calls<C>, classId: Str, subject: Str, batches: seq<Batch<C>>, now: int, v: Violation): Entry {
    Entry(classId, Unverified, NoVerification, SortStrings(LimitIds(calls, classId, subject, batches)), None, None, now, LimitNote(v))
  }

  // ---- Qualification ----

  predicate HasId(es: seq<Evidence>, id: Str) {
    if es == [] then false else es[|es|-1].id == id || HasId(es[..|es|-1], id)
  }

  /** The qualified evidence, the first of every evidence id. */
  function QualifiedOf<C>(calls: Calls<C>, r: Requirement, subject: Str, cs: seq<Offer<C>>): seq<Evidence> {
    if cs == [] then []
    else
      var before := QualifiedOf(calls, r, subject, cs[..|cs|-1]);
      var q := calls.qualify(cs[|cs|-1].0, r, subject, cs[|cs|-1].1);
      if q.Rejected? || HasId(before, q.evidence.id) then before else before + [q.evidence]
  }

  function RejectedOf<C>(calls: Calls<C>, r: Requirement, subject: Str, cs: seq<Offer<C>>): seq<Qualification> {
    if cs == [] then []
    else
      var q := calls.qualify(cs[|cs|-1].0, r, subject, cs[|cs|-1].1);
      RejectedOf(calls, r, subject, cs[..|cs|-1]) + if q.Rejected? then [q] else []
  }

  // ---- Diagnostics ----

  function IssueDiagnostics(classId: Str, provider: Str, issues: seq<Issue>): seq<Diagnostic> {
    seq(|issues|, i requires 0 <= i < |issues| => IssueFound(classId, provider, issues[i]))
  }

  /** A qualified candidate's issues are reported only when it is stale. */
  function CandidateDiagnostics<C>(calls: Calls<C>, r: Requirement, subject: Str, b: Batch<C>, n: nat): seq<Diagnostic>
    requires n <= |b.candidates|
  {
    if n == 0 then []
    else
      var q := calls.qualify(b.provider, r, subject, b.candidates[n-1]);
      CandidateDiagnostics(calls, r, subject, b, n - 1)
      + if q.Rejected? || q.stale then IssueDiagnostics(r.classId, b.provider.id, q.issues) else []
  }

  function BatchDiagnostics<C>(calls: Calls<C>, r: Requirement, subject: Str, bs: seq<Batch<C>>): seq<Diagnostic> {
    if bs == [] then []
    else
      var b := bs[|bs|-1];
      BatchDiagnostics(calls, r, subject, bs[..|bs|-1])
      + CandidateDiagnostics(calls, r, subject, b, |b.candidates|)
      + (if b.outcome.Some? then [OutcomeReported(r.classId, b.provider.id, b.outcome.value)] else [])
      + IssueDiagnostics(r.classId, b.provider.id, b.reports)
  }

  function SubjectDiagnostics<C>(classId: Str, subject: Str, bs: seq<Batch<C>>): seq<Diagnostic> {
    if bs == [] then []
    else
      var b := bs[|bs|-1];
      SubjectDiagnostics(classId, subject, bs[..|bs|-1])
      + if b.subject != subject then [SubjectMismatch(classId, b.provider.id, b.subject)] else []
  }

  // ---- Status ----

  predicate IsStale(e: Evidence, maxAge: Option<int>, now: int) { maxAge.Some? && now - e.observedAt > maxAge.value }

  function ByStaleness(es: seq<Evidence>, maxAge: Option<int>, now: int, stale: bool): seq<Evidence> {
    if es == [] then []
    else ByStaleness(es[..|es|-1], maxAge, now, stale)
         + if IsStale(es[|es|-1], maxAge, now) == stale then [es[|es|-1]] else []
  }

  function IdsOf(es: seq<Evidence>): seq<Str> { seq(|es|, i requires 0 <= i < |es| => es[i].id) }

  /** The provider-to-priority map, in the order in which its entries are set. */
  type Priorities = seq<Provider>

  function PrioritiesOf<C>(bs: seq<Batch<C>>): Priorities { seq(|bs|, i requires 0 <= i < |bs| => bs[i].provider) }

  /** The priority set last for a provider; 0 for an unknown one. */
  function PriorityOf(prio: Priorities, provider: Str): nat {
    if prio == [] then 0
    else if prio[|prio|-1].id == provider then prio[|prio|-1].priority
    else PriorityOf(prio[..|prio|-1], provider)
  }

  predicate Preferred(prio: Priorities, a: Evidence, b: Evidence) {
    var p, q := PriorityOf(prio, a.provider), PriorityOf(prio, b.provider);
    if p != q then p > q else Less(a.id, b.id)
  }

  function PreferenceOrder(prio: Priorities): (Evidence, Evidence) -> bool { (a, b) => Preferred(prio, a, b) }

  /** The head of the candidates sorted by preference. */
  function PickPrimary(prio: Priorities, es: seq<Evidence>): Evidence
    requires es != []
  {
    var sorted := Sort(PreferenceOrder(prio), es);
    assert |multiset(sorted)| == |multiset(es)|;
    sorted[0]
  }

  datatype Group = Group(key: Str, members: seq<Evidence>)

  function AddToGroups(gs: seq<Group>, e: Evidence): seq<Group> {
    if gs == [] then [Group(e.claimKey, [e])]
    else if gs[0].key == e.claimKey then [Group(gs[0].key, gs[0].members + [e])] + gs[1..]
    else [gs[0]] + AddToGroups(gs[1..], e)
  }

  /** Groups by claim key, in insertion order. */
  function Groups(es: seq<Evidence>): seq<Group> {
    if es == [] then [] else AddToGroups(Groups(es[..|es|-1]), es[|es|-1])
  }

  function Digests(es: seq<Evidence>): set<Str> { set e | e in es :: e.digest }

  function ConflictedGroups(gs: seq<Group>): nat {
    if gs == [] then 0
    else ConflictedGroups(gs[..|gs|-1]) + if |Digests(gs[|gs|-1].members)| > 1 then 1 else 0
  }

  function Agreeing(digest: Str, es: seq<Evidence>, agree: bool): seq<Evidence> {
    if es == [] then []
    else Agreeing(digest, es[..|es|-1], agree) + if (es[|es|-1].digest == digest) == agree then [es[|es|-1]] else []
  }

  /** The members that agree with the primary of their group, or those that do not. */
  function Side(prio: Priorities, gs: seq<Group>, agree: bool): seq<Evidence> {
    if gs == [] then []
    else
      var g := gs[|gs|-1];
      Side(prio, gs[..|gs|-1], agree)
      + if g.members == [] then [] else Agreeing(PickPrimary(prio, g.members).digest, g.members, agree)
  }

  function Highest(es: seq<Evidence>): Level {
    if es == [] then NoVerification
    else
      var best := Highest(es[..|es|-1]);
      if Rank(es[|es|-1].level) > Rank(best) then es[|es|-1].level else best
  }

  /** When the first of the stale items became stale. */
  function EarliestStale(es: seq<Evidence>, maxAge: int): Option<int> {
    if es == [] then None
    else
      var before, since := EarliestStale(es[..|es|-1], maxAge), es[|es|-1].observedAt + maxAge;
      if before.None? || since < before.value then Some(since) else before
  }

  function CodesOf(rejected: seq<Qualification>): seq<Str> {
    if rejected == [] then []
    else
      var q := rejected[|rejected|-1];
      CodesOf(rejected[..|rejected|-1]) + seq(|q.issues|, i requires 0 <= i < |q.issues| => q.issues[i].code)
  }

  function ReferenceIds(rejected: seq<Qualification>): seq<Str> {
    seq(|rejected|, i requires 0 <= i < |rejected| => if rejected[i].Rejected? then rejected[i].referenceId else [])
  }

  /** The items whose id is listed. */
  function WithIds(es: seq<Evidence>, ids: seq<Str>): seq<Evidence> {
    if es == [] then []
    else WithIds(es[..|es|-1], ids) + if es[|es|-1].id in ids then [es[|es|-1]] else []
  }

  function FreshEntry(classId: Str, prio: Priorities, current: seq<Evidence>, now: int): Entry {
    var gs := Groups(current);
    if ConflictedGroups(gs) > 0 then
      var agreeing, conflicting := IdsOf(Side(prio, gs, true)), IdsOf(Side(prio, gs, false));
      Entry(classId, Conflicted, Highest(WithIds(current, agreeing)), SortStrings(agreeing),
            Some(SortStrings(conflicting)), None, now, ConflictNote(ConflictedGroups(gs), |gs|))
    else
      Entry(classId, Present, Highest(current), SortStrings(IdsOf(current)), None, None, now, NoNote)
  }

  function BuildEntry(
    r: Requirement, prio: Priorities, qualified: seq<Evidence>, rejected: seq<Qualification>, now: int): Entry
  {
    if qualified == [] && rejected == [] then
      Entry(r.classId, Missing, NoVerification, [], None, None, now, NoNote)
    else if qualified == [] then
      Entry(r.classId, Unverified, NoVerification, SortStrings(ReferenceIds(rejected)), None, None, now,
            RejectedNote(|rejected|, SortStrings(CodesOf(rejected))))
    else
      var current := ByStaleness(qualified, r.maxAge, now, false);
      if current == [] then
        var stale := ByStaleness(qualified, r.maxAge, now, true);
        var since := if r.maxAge.Some? then EarliestStale(stale, r.maxAge.value) else None;
        Entry(r.classId, Stale, Highest(stale), SortStrings(IdsOf(stale)), None,
              Some(if since.Some? then since.value else now), now, StaleNote(|stale|))
      else FreshEntry(r.classId, prio, current, now)
  }

  // ---- The builder ----

  datatype Built = Built(entry: Entry, diagnostics: seq<Diagnostic>)

  /** The requested subject of a class: that of its first batch in canonical order. */
  function SubjectOf<C>(sorted: seq<Batch<C>>): Str { if sorted == [] then [] else sorted[0].subject }

  function BuildClass<C>(calls: Calls<C>, r: Requirement, batches: seq<Batch<C>>, limits: Limits, now: int): Built {
    var bs := SortBatches(ForClass(batches, r.classId));
    var subject := SubjectOf(bs);
    var mismatches := SubjectDiagnostics(r.classId, subject, bs);
    var violation := LimitViolation(calls, bs, limits);
    if violation.Some? then
      Built(LimitEntry(calls, r.classId, subject, bs, now, violation.value),
            mismatches + [LimitExceeded(r.classId, violation.value)])
    else
      var cs := Candidates(bs);
      Built(BuildEntry(r, PrioritiesOf(bs), QualifiedOf(calls, r, subject, cs), RejectedOf(calls, r, subject, cs), now),
            mismatches + BatchDiagnostics(calls, r, subject, bs))
  }

  function EntriesOf<C>(calls: Calls<C>, rs: seq<Requirement>, batches: seq<Batch<C>>, limits: Limits, now: int): seq<Entry> {
    if rs == [] then []
    else EntriesOf(calls, rs[..|rs|-1], batches, limits, now) + [BuildClass(calls, rs[|rs|-1], batches, limits, now).entry]
  }

  function DiagnosticsOf<C>(calls: Calls<C>, rs: seq<Requirement>, batches: seq<Batch<C>>, limits: Limits, now: int): seq<Diagnostic> {
    if rs == [] then []
    else DiagnosticsOf(calls, rs[..|rs|-1], batches, limits, now)
         + BuildClass(calls, rs[|rs|-1], batches, limits, now).diagnostics
  }

  function ClassIds(rs: seq<Requirement>): set<Str> { set r | r in rs :: r.classId }

  const MAX_SNAPSHOT_ENTRIES := 1000
  const MAX_ENTRY_IDS := 1000

  /** The size limits of the snapshot schema. */
  predicate EntryFits(e: Entry) {
    |e.ids| <= MAX_ENTRY_IDS && (e.conflictIds.Some? ==> |e.conflictIds.value| <= MAX_ENTRY_IDS)
  }

  predicate SnapshotFits(entries: seq<Entry>) {
    |entries| <= MAX_SNAPSHOT_ENTRIES && forall i :: 0 <= i < |entries| ==> EntryFits(entries[i])
  }

  /** The builder throws on a repeated class, and when the snapshot it built exceeds the schema's sizes. */
  datatype Outcome =
    | DuplicateClass
    | SnapshotRejected
    | Coverage(entries: seq<Entry>, diagnostics: seq<Diagnostic>, truncated: bool)

  function BuildCoverage<C>(calls: Calls<C>, rs: seq<Requirement>, batches: seq<Batch<C>>, limits: Limits, now: int): Outcome {
    if |ClassIds(rs)| != |rs| then DuplicateClass
    else if !SnapshotFits(EntriesOf(calls, rs, batches, limits, now)) then SnapshotRejected
    else
      var ds := DiagnosticsOf(calls, rs, batches, limits, now);
      Coverage(EntriesOf(calls, rs, batches, limits, now),
               if |ds| > limits.diagnostics then ds[..limits.diagnostics] else ds, |ds| > limits.diagnostics)
  }

  // ---- The imperative builder ----

  lemma TakeOneMore<T>(s: seq<T>, i: nat)
    requires i < |s|
    ensures s[..i+1][..i] == s[..i] && s[..i+1] == s[..i] + [s[i]]
  {
  }

  lemma LimitPrefix<C>(calls: Calls<C>, bs: seq<Batch<C>>, i: nat, bound: nat)
    requires i <= |bs| && OverfullBatch(bs[..i], bound).Some?
    ensures OverfullBatch(bs, bound) == OverfullBatch(bs[..i], bound)
    decreases |bs|
  {
    if i < |bs| {
      assert bs[..|bs|-1][..i] == bs[..i];
      LimitPrefix(calls, bs[..|bs|-1], i, bound);
    } else {
      assert bs[..i] == bs;
    }
  }

  lemma OversizedPrefix<C>(calls: Calls<C>, cs: seq<Offer<C>>, more: seq<Offer<C>>, bound: nat)
    requires OversizedClaim(calls, cs, bound).Some?
    ensures OversizedClaim(calls, cs + more, bound) == OversizedClaim(calls, cs, bound)
  {
    if more == [] {
      assert cs + more == cs;
    } else {
      OversizedPrefix(calls, cs, more[..|more|-1], bound);
      assert (cs + more)[..|cs + more|-1] == cs + more[..|more|-1];
    }
  }

  lemma CandidatesPrefix<C>(bs: seq<Batch<C>>, i: nat) returns (more: seq<Offer<C>>)
    requires i < |bs|
    ensures Candidates(bs) == Candidates(bs[..i]) + Offers(bs[i]) + more
    decreases |bs|
  {
    if i == |bs| - 1 {
      more := [];
    } else {
      var init := bs[..|bs|-1];
      var rest := CandidatesPrefix(init, i);
      assert init[..i] == bs[..i];
      more := rest + Offers(bs[|bs|-1]);
    }
  }

  lemma OversizedFound<C>(calls: Calls<C>, bs: seq<Batch<C>>, i: nat, j: nat, bound: nat)
    requires i < |bs| && j <= |bs[i].candidates|
    requires OversizedClaim(calls, Candidates(bs[..i]) + Offers(bs[i])[..j], bound).Some?
    ensures OversizedClaim(calls, Candidates(bs), bound)
         == OversizedClaim(calls, Candidates(bs[..i]) + Offers(bs[i])[..j], bound)
  {
    var more := CandidatesPrefix(bs, i);
    var seen := Candidates(bs[..i]) + Offers(bs[i])[..j];
    assert Candidates(bs) == seen + (Offers(bs[i])[j..] + more);
    OversizedPrefix(calls, seen, Offers(bs[i])[j..] + more, bound);
  }

  /** The first pass: the sizes of the batches and their total. */
  method CountCandidates<C>(calls: Calls<C>, batches: seq<Batch<C>>, bound: nat) returns (overfull: Option<Violation>, total: nat)
    ensures overfull == OverfullBatch(batches, bound)
    ensures overfull.None? ==> total == CandidateCount(batches)
  {
    total := 0;
    for i := 0 to |batches|
      invariant total == CandidateCount(batches[..i])
      invariant OverfullBatch(batches[..i], bound).None?
    {
      var b := batches[i];
      TakeOneMore(batches, i);
      if |b.candidates| > bound {
        LimitPrefix(calls, batches, i + 1, bound);
        return Some(BatchTooLarge(b.provider.id, |b.candidates|)), total;
      }
      total := total + |b.candidates|;
    }
    assert batches[..|batches|] == batches;
    overfull := None;
  }

  /** The second pass: the size of every claim that parses. */
  lemma OversizedNext<C>(calls: Calls<C>, before: seq<Offer<C>>, b: Batch<C>, j: nat, bound: nat)
    requires j < |b.candidates| && OversizedClaim(calls, before + Offers(b)[..j], bound).None?
    ensures var bytes := calls.claimBytes(b.candidates[j]);
      OversizedClaim(calls, before + Offers(b)[..j+1], bound)
      == if bytes.Some? && bytes.value > bound then Some(ClaimTooLarge(bytes.value)) else None
  {
    ExtendOffers(before, b, j);
  }

  method FindOversizedClaim<C>(calls: Calls<C>, batches: seq<Batch<C>>, bound: nat) returns (v: Option<Violation>)
    ensures v == OversizedClaim(calls, Candidates(batches), bound)
  {
    for i := 0 to |batches|
      invariant OversizedClaim(calls, Candidates(batches[..i]), bound).None?
    {
      var b := batches[i];
      ghost var before := Candidates(batches[..i]);
      assert before + Offers(b)[..0] == before;
      for j := 0 to |b.candidates|
        invariant OversizedClaim(calls, before + Offers(b)[..j], bound).None?
      {
        var bytes := calls.claimBytes(b.candidates[j]);
        OversizedNext(calls, before, b, j, bound);
        if bytes.Some? && bytes.value > bound {
          OversizedFound(calls, batches, i, j + 1, bound);
          return Some(ClaimTooLarge(bytes.value));
        }
      }
      ExtendBatches(batches, i);
    }
    assert batches[..|batches|] == batches;
    return None;
  }

  method FindLimitViolation<C>(calls: Calls<C>, batches: seq<Batch<C>>, limits: Limits) returns (v: Option<Violation>)
    ensures v == LimitViolation(calls, batches, limits)
  {
    if |batches| > limits.providersPerClass { return Some(TooManyProviders(|batches|)); }
    var overfull, total := CountCandidates(calls, batches, limits.candidatesPerBatch);
    if overfull.Some? { return overfull; }
    if total > limits.candidatesTotal { return Some(TooManyCandidates(total)); }
    v := FindOversizedClaim(calls, batches, limits.claimBytes);
  }

  lemma ExtendOffers<C>(seen: seq<Offer<C>>, b: Batch<C>, j: nat)
    requires j < |b.candidates|
    ensures var cs := seen + Offers(b)[..j+1];
            cs[..|cs|-1] == seen + Offers(b)[..j] && cs[|cs|-1] == (b.provider, b.candidates[j])
  {
  }

  lemma ExtendBatches<C>(bs: seq<Batch<C>>, i: nat)
    requires i < |bs|
    ensures Candidates(bs[..i]) + Offers(bs[i])[..|bs[i].candidates|] == Candidates(bs[..i+1])
  {
    TakeOneMore(bs, i);
    assert Offers(bs[i])[..|bs[i].candidates|] == Offers(bs[i]);
  }

  method GroupByClaimKey(evidence: seq<Evidence>) returns (grouped: seq<Group>)
    ensures grouped == Groups(evidence)
  {
    grouped := [];
    for i := 0 to |evidence|
      invariant grouped == Groups(evidence[..i])
    {
      TakeOneMore(evidence, i);
      grouped := AddToGroups(grouped, evidence[i]);
    }
    assert evidence[..|evidence|] == evidence;
  }

  lemma IdsOfConcat(a: seq<Evidence>, b: seq<Evidence>)
    ensures IdsOf(a + b) == IdsOf(a) + IdsOf(b)
  {
  }

  method SplitGroup(digest: Str, members: seq<Evidence>) returns (agreeing: seq<Str>, conflicting: seq<Str>)
    ensures agreeing == IdsOf(Agreeing(digest, members, true))
    ensures conflicting == IdsOf(Agreeing(digest, members, false))
  {
    agreeing, conflicting := [], [];
    for j := 0 to |members|
      invariant agreeing == IdsOf(Agreeing(digest, members[..j], true))
      invariant conflicting == IdsOf(Agreeing(digest, members[..j], false))
    {
      TakeOneMore(members, j);
      if members[j].digest == digest {
        agreeing := agreeing + [members[j].id];
      } else {
        conflicting := conflicting + [members[j].id];
      }
    }
    assert members[..|members|] == members;
  }

  /** The two id lists of a conflicted class, group by group and candidate by candidate. */
  method PartitionConflicts(prio: Priorities, groups: seq<Group>) returns (agreeing: seq<Str>, conflicting: seq<Str>)
    ensures agreeing == IdsOf(Side(prio, groups, true)) && conflicting == IdsOf(Side(prio, groups, false))
  {
    agreeing, conflicting := [], [];
    for i := 0 to |groups|
      invariant agreeing == IdsOf(Side(prio, groups[..i], true))
      invariant conflicting == IdsOf(Side(prio, groups[..i], false))
    {
      TakeOneMore(groups, i);
      var members := groups[i].members;
      if members != [] {
        var digest := PickPrimary(prio, members).digest;
        var agree, disagree := SplitGroup(digest, members);
        IdsOfConcat(Side(prio, groups[..i], true), Agreeing(digest, members, true));
        IdsOfConcat(Side(prio, groups[..i], false), Agreeing(digest, members, false));
        agreeing, conflicting := agreeing + agree, conflicting + disagree;
      }
    }
    assert groups[..|groups|] == groups;
  }

  method HighestVerification(evidence: seq<Evidence>) returns (best: Level)
    ensures best == Highest(evidence)
  {
    best := NoVerification;
    for i := 0 to |evidence|
      invariant best == Highest(evidence[..i])
    {
      TakeOneMore(evidence, i);
      if Rank(evidence[i].level) > Rank(best) { best := evidence[i].level; }
    }
    assert evidence[..|evidence|] == evidence;
  }

  method StaleSince(stale: seq<Evidence>, maxAge: Option<int>, now: int) returns (since: int)
    ensures var first := if maxAge.Some? then EarliestStale(stale, maxAge.value) else None;
            since == if first.Some? then first.value else now
  {
    var earliest: Option<int> := None;
    for i := 0 to |stale|
      invariant earliest == if maxAge.Some? then EarliestStale(stale[..i], maxAge.value) else None
    {
      TakeOneMore(stale, i);
      if maxAge.None? { break; }
      var becameStaleAt := stale[i].observedAt + maxAge.value;
      if earliest.None? || becameStaleAt < earliest.value { earliest := Some(becameStaleAt); }
    }
    assert stale[..|stale|] == stale;
    since := if earliest.Some? then earliest.value else now;
  }

  lemma TakeOffer<C>(calls: Calls<C>, r: Requirement, subject: Str, cs: seq<Offer<C>>, o: Offer<C>)
    ensures var q, before := calls.qualify(o.0, r, subject, o.1), QualifiedOf(calls, r, subject, cs);
            && RejectedOf(calls, r, subject, cs + [o]) == RejectedOf(calls, r, subject, cs) + (if q.Rejected? then [q] else [])
            && QualifiedOf(calls, r, subject, cs + [o])
               == if q.Rejected? || HasId(before, q.evidence.id) then before else before + [q.evidence]
  {
    assert (cs + [o])[..|cs|] == cs;
  }

  /** Qualification of one candidate, after the candidates `cs` before it. */
  method QualifyOne<C>(
    calls: Calls<C>, r: Requirement, subject: Str, o: Offer<C>, ghost cs: seq<Offer<C>>,
    qualified0: seq<Evidence>, rejected0: seq<Qualification>)
    returns (qualified: seq<Evidence>, rejected: seq<Qualification>, diagnostics: seq<Diagnostic>)
    requires qualified0 == QualifiedOf(calls, r, subject, cs) && rejected0 == RejectedOf(calls, r, subject, cs)
    ensures qualified == QualifiedOf(calls, r, subject, cs + [o]) && rejected == RejectedOf(calls, r, subject, cs + [o])
    ensures var q := calls.qualify(o.0, r, subject, o.1);
            diagnostics == if q.Rejected? || q.stale then IssueDiagnostics(r.classId, o.0.id, q.issues) else []
  {
    TakeOffer(calls, r, subject, cs, o);
    var q := calls.qualify(o.0, r, subject, o.1);
    qualified, rejected, diagnostics := qualified0, rejected0, [];
    if q.Rejected? {
      rejected := rejected + [q];
    } else if !HasId(qualified, q.evidence.id) {
      qualified := qualified + [q.evidence];
    }
    if q.Rejected? || q.stale {
      diagnostics := IssueDiagnostics(r.classId, o.0.id, q.issues);
    }
  }

  /** Qualification of one batch, after the candidates `seen` before it. */
  method QualifyBatch<C>(
    calls: Calls<C>, r: Requirement, subject: Str, b: Batch<C>, ghost seen: seq<Offer<C>>,
    qualified0: seq<Evidence>, rejected0: seq<Qualification>)
    returns (qualified: seq<Evidence>, rejected: seq<Qualification>, diagnostics: seq<Diagnostic>)
    requires qualified0 == QualifiedOf(calls, r, subject, seen) && rejected0 == RejectedOf(calls, r, subject, seen)
    ensures qualified == QualifiedOf(calls, r, subject, seen + Offers(b))
    ensures rejected == RejectedOf(calls, r, subject, seen + Offers(b))
    ensures diagnostics == CandidateDiagnostics(calls, r, subject, b, |b.candidates|)
  {
    qualified, rejected, diagnostics := qualified0, rejected0, [];
    OffersEnds(seen, b);
    for j := 0 to |b.candidates|
      invariant qualified == QualifiedOf(calls, r, subject, seen + Offers(b)[..j])
      invariant rejected == RejectedOf(calls, r, subject, seen + Offers(b)[..j])
      invariant diagnostics == CandidateDiagnostics(calls, r, subject, b, j)
    {
      OffersNext(seen, b, j);
      var found;
      qualified, rejected, found := QualifyOne(
        calls, r, subject, (b.provider, b.candidates[j]), seen + Offers(b)[..j], qualified, rejected);
      diagnostics := diagnostics + found;
    }
  }

  lemma OffersNext<C>(seen: seq<Offer<C>>, b: Batch<C>, j: nat)
    requires j < |b.candidates|
    ensures seen + Offers(b)[..j+1] == (seen + Offers(b)[..j]) + [(b.provider, b.candidates[j])]
  {
  }

  lemma OffersEnds<C>(seen: seq<Offer<C>>, b: Batch<C>)
    ensures seen + Offers(b)[..0] == seen && seen + Offers(b)[..|b.candidates|] == seen + Offers(b)
  {
  }

  /** Qualification of every candidate of a class, batch by batch. */
  method Qualify<C>(calls: Calls<C>, r: Requirement, subject: Str, bs: seq<Batch<C>>)
    returns (qualified: seq<Evidence>, rejected: seq<Qualification>, diagnostics: seq<Diagnostic>)
    ensures qualified == QualifiedOf(calls, r, subject, Candidates(bs))
    ensures rejected == RejectedOf(calls, r, subject, Candidates(bs))
    ensures diagnostics == BatchDiagnostics(calls, r, subject, bs)
  {
    qualified, rejected, diagnostics := [], [], [];
    for i := 0 to |bs|
      invariant qualified == QualifiedOf(calls, r, subject, Candidates(bs[..i]))
      invariant rejected == RejectedOf(calls, r, subject, Candidates(bs[..i]))
      invariant diagnostics == BatchDiagnostics(calls, r, subject, bs[..i])
    {
      var b := bs[i];
      TakeOneMore(bs, i);
      var found;
      qualified, rejected, found := QualifyBatch(calls, r, subject, b, Candidates(bs[..i]), qualified, rejected);
      if b.outcome.Some? {
        found := found + [OutcomeReported(r.classId, b.provider.id, b.outcome.value)];
      }
      found := found + IssueDiagnostics(r.classId, b.provider.id, b.reports);
      AppendFound(calls, r, subject, bs[..i], b, found);
      diagnostics := diagnostics + found;
    }
    assert bs[..|bs|] == bs;
  }

  lemma JoinFour<T>(a: seq<T>, b: seq<T>, c: seq<T>, d: seq<T>)
    ensures a + b + c + d == a + (b + c + d)
  {
  }

  lemma AppendFound<C>(
    calls: Calls<C>, r: Requirement, subject: Str, before: seq<Batch<C>>, b: Batch<C>, found: seq<Diagnostic>)
    requires found == CandidateDiagnostics(calls, r, subject, b, |b.candidates|)
      + (if b.outcome.Some? then [OutcomeReported(r.classId, b.provider.id, b.outcome.value)] else [])
      + IssueDiagnostics(r.classId, b.provider.id, b.reports)
    ensures BatchDiagnostics(calls, r, subject, before + [b]) == BatchDiagnostics(calls, r, subject, before) + found
  {
    var all := before + [b];
    assert all[..|all|-1] == before && all[|all|-1] == b;
    JoinFour(BatchDiagnostics(calls, r, subject, before), CandidateDiagnostics(calls, r, subject, b, |b.candidates|),
             if b.outcome.Some? then [OutcomeReported(r.classId, b.provider.id, b.outcome.value)] else [],
             IssueDiagnostics(r.classId, b.provider.id, b.reports));
  }

  method FreshClassEntry(classId: Str, prio: Priorities, current: seq<Evidence>, now: int) returns (e: Entry)
    ensures e == FreshEntry(classId, prio, current, now)
  {
    var groups := GroupByClaimKey(current);
    var conflicted := ConflictedGroups(groups);
    if conflicted > 0 {
      var agreeing, conflicting := PartitionConflicts(prio, groups);
      var level := HighestVerification(WithIds(current, agreeing));
      return Entry(classId, Conflicted, level, SortStrings(agreeing), Some(SortStrings(conflicting)), None, now,
                   ConflictNote(conflicted, |groups|));
    }
    var level := HighestVerification(current);
    return Entry(classId, Present, level, SortStrings(IdsOf(current)), None, None, now, NoNote);
  }

  method ClassEntry(
    r: Requirement, prio: Priorities, qualified: seq<Evidence>, rejected: seq<Qualification>, now: int)
    returns (e: Entry)
    ensures e == BuildEntry(r, prio, qualified, rejected, now)
  {
    if qualified == [] && rejected == [] {
      return Entry(r.classId, Missing, NoVerification, [], None, None, now, NoNote);
    }
    if qualified == [] {
      return Entry(r.classId, Unverified, NoVerification, SortStrings(ReferenceIds(rejected)), None, None, now,
                   RejectedNote(|rejected|, SortStrings(CodesOf(rejected))));
    }
    var current := ByStaleness(qualified, r.maxAge, now, false);
    if current == [] {
      var stale := ByStaleness(qualified, r.maxAge, now, true);
      var since := StaleSince(stale, r.maxAge, now);
      var level := HighestVerification(stale);
      return Entry(r.classId, Stale, level, SortStrings(IdsOf(stale)), None, Some(since), now, StaleNote(|stale|));
    }
    e := FreshClassEntry(r.classId, prio, current, now);
  }

  method BuildEvidenceCoverage<C>(
    calls: Calls<C>, requirements: seq<Requirement>, batches: seq<Batch<C>>, limits: Limits, now: int)
    returns (outcome: Outcome)
    ensures outcome == BuildCoverage(calls, requirements, batches, limits, now)
  {
    if |ClassIds(requirements)| != |requirements| { return DuplicateClass; }
    var entries, diagnostics := [], [];
    for i := 0 to |requirements|
      invariant entries == EntriesOf(calls, requirements[..i], batches, limits, now)
      invariant diagnostics == DiagnosticsOf(calls, requirements[..i], batches, limits, now)
    {
      var r := requirements[i];
      TakeOneMore(requirements, i);
      var bs := SortBatches(ForClass(batches, r.classId));
      var subject := SubjectOf(bs);
      var found := SubjectDiagnostics(r.classId, subject, bs);
      var violation := FindLimitViolation(calls, bs, limits);
      var entry;
      if violation.Some? {
        entry := LimitEntry(calls, r.classId, subject, bs, now, violation.value);
        found := found + [LimitExceeded(r.classId, violation.value)];
      } else {
        var qualified, rejected, reported := Qualify(calls, r, subject, bs);
        entry := ClassEntry(r, PrioritiesOf(bs), qualified, rejected, now);
        found := found + reported;
      }
      entries := entries + [entry];
      diagnostics := diagnostics + found;
    }
    assert requirements[..|requirements|] == requirements;
    if !SnapshotFits(entries) { return SnapshotRejected; }
    var truncated := |diagnostics| > limits.diagnostics;
    outcome := Coverage(entries, if truncated then diagnostics[..limits.diagnostics] else diagnostics, truncated);
  }
}
