/** What every run of the authorization service keeps. */
module ApprovalTheorems {
  import opened ApprovalBinding
  import opened ApprovalLifecycle
  import opened ApprovalPolicy
  import opened ApprovalStore
  import opened AuthorizationRecords
  import opened CanonicalJson
  import opened JsText
  import opened Options

  // ---- Runs ----

  datatype Step =
    | Authorize(filing: Filing)
    | ApplyApproval(planId: Str, reference: Option<Reference>, verdict: Verdict, now: int, accepted: bool)
    | Deny(planId: Str, accepted: bool)
    | Revoke(planId: Str, accepted: bool)
    | SweepExpired(now: int)
    | Discard(planId: Str, decisionId: Str)

  function Outcome(env: Env, m: Records, s: Step): Result<Records> {
    match s
    case Authorize(f) => Authorized(env, m, f)
    case ApplyApproval(id, reference, verdict, now, accepted) => Applied(env, m, id, reference, verdict, now, accepted)
    case Deny(id, accepted) => DenyApproval(env, m, id, accepted)
    case Revoke(id, accepted) => RevokeApproval(env, m, id, accepted)
    case SweepExpired(now) => Ok(Sweep(env, m, now))
    case Discard(id, decisionId) => Ok(Discarded(m, id, decisionId).0)
  }

  /** A call that throws leaves the store as it was. */
  function After(env: Env, m: Records, s: Step): Records {
    var o := Outcome(env, m, s);
    if o.Ok? then o.value else m
  }

  function Exec(env: Env, m: Records, steps: seq<Step>): Records
    decreases |steps|
  {
    if steps == [] then m else Exec(env, After(env, m, steps[0]), steps[1..])
  }

  // ---- The store-wide invariant ----

  /** The times of a record: created, then expiring within the policy bound. */
  predicate TimesOk(t: Terms) {
    t.expiresAt.Some? && t.createdAt < t.expiresAt.value <= t.createdAt + MAX_APPROVAL_TTL_MS
  }

  predicate RequestOk(env: Env, r: Record, q: Request) {
    && q.policyVersion == Trim(env.policyVersion) && q.digest == r.digest
    && r.plan.terms.expiresAt == Some(q.expiresAt)
  }

  /** A grant of sufficient authority that expires no later than the plan. */
  predicate GrantOk(r: Record, q: Request, g: Grant) {
    && Rank(g.actor.authority) >= Rank(q.requiredAuthority)
    && g.grantedAt < g.expiresAt <= q.expiresAt
  }

  predicate StateOk(r: Record) {
    var p := r.plan;
    match p.state
    case Awaiting => p.requiredApproval && p.approval.None? && r.grant.None? && r.request.Some? && r.request.value.status == Pending
    case Ready =>
      if p.requiredApproval then
        p.approval.Some? && r.grant.Some? && r.request.Some? && r.request.value.status == Granted && GrantOk(r, r.request.value, r.grant.value)
      else p.approval.None? && r.grant.None?
    case Blocked => p.approval.None? && (r.request.Some? ==> r.request.value.status in {Denied, Revoked, Expired})
  }

  predicate RecordOk(env: Env, id: Str, r: Record) {
    && PlanId(r) == id && env.termsOk(r.plan.terms) && TimesOk(r.plan.terms)
    && BindingDigest(env.texts, r.plan.terms, env.policyVersion) == Some(r.digest)
    && (r.request.Some? <==> r.plan.requiredApproval)
    && (r.request.Some? ==> RequestOk(env, r, r.request.value))
    && (r.blockedReason.Some? <==> r.plan.state == Blocked)
    && StateOk(r)
  }

  ghost predicate RecordsOk(env: Env, m: Records) { forall id :: id in m ==> RecordOk(env, id, m[id]) }

  ghost predicate StoreOk(env: Env, m: Records) { |m| <= env.maxRecords && RecordsOk(env, m) }

  lemma PrepareOk(env: Env, f: Filing)
    requires ValidEnv(env) && Prepare(env, f).Ok?
    ensures var r := Prepare(env, f).value; RecordOk(env, PlanId(r), r)
  {
  }

  lemma ApplyOk(env: Env, id: Str, r: Record, reference: Option<Reference>, verdict: Verdict, now: int, accepted: bool)
    requires RecordOk(env, id, r) && Apply(env, r, reference, verdict, now, accepted).Ok?
    ensures var next := Apply(env, r, reference, verdict, now, accepted).value;
            RecordOk(env, id, next) && MovesUp(r, next) && r.plan.state == Awaiting && next.plan.state == Ready
  {
  }

  /** From one version of a record to the next: the plan only moves up, what its digest binds stays, and a blocked
      record stays as it is. */
  predicate MovesUp(r: Record, n: Record) {
    && StateRank(n.plan.state) >= StateRank(r.plan.state)
    && n.plan.terms == r.plan.terms && n.digest == r.digest && n.plan.requiredApproval == r.plan.requiredApproval
    && (r.plan.state == Blocked ==> n == r)
  }

  function StateRank(s: State): nat { match s case Awaiting => 0 case Ready => 1 case Blocked => 2 }

  /** With the invariant, an expired record always has a plan that passes the schema again: the sweep never leaves
      one behind. */
  lemma SweepReachesAll(env: Env, id: Str, r: Record, now: int)
    requires RecordOk(env, id, r)
    ensures Affected(env, r, now) <==> Fires(r, now)
  {
  }

  /** The plan arm, which does not touch a granted request, only ever meets a plan without one. */
  lemma PlanArmStrandsNothing(env: Env, id: Str, r: Record, now: int)
    requires RecordOk(env, id, r)
    ensures PlanArm(FirstArms(r, now), now) ==> r.request.None? && r.grant.None? && r.plan.state == Ready
  {
  }

  lemma SweptOk(env: Env, id: Str, r: Record, now: int)
    requires RecordOk(env, id, r)
    ensures RecordOk(env, id, Swept(env, r, now)) && MovesUp(r, Swept(env, r, now))
  {
  }

  lemma SameKeysSize(m: Records, n: Records)
    requires n.Keys == m.Keys
    ensures |n| == |m|
  {
    assert |n.Keys| == |n| && |m.Keys| == |m|;
  }

  lemma SweepKeys(env: Env, m: Records, now: int)
    ensures Sweep(env, m, now).Keys == m.Keys && |Sweep(env, m, now)| == |m|
  {
    assert Sweep(env, m, now).Keys == m.Keys;
    SameKeysSize(m, Sweep(env, m, now));
  }

  lemma DiscardSize(m: Records, id: Str)
    ensures |m - {id}| <= |m|
  {
    assert (m - {id}).Keys == m.Keys - {id};
    assert |(m - {id}).Keys| <= |m.Keys|;
  }

  /** How a successful step leaves a store: one record added, one replaced by a later version of itself, all of
      them replaced so, or one removed. */
  ghost predicate Evolves(env: Env, m: Records, s: Step, n: Records) {
    match s
    case Authorize(f) => exists r :: RecordOk(env, PlanId(r), r) && Inserted(m, env.maxRecords, r) == Ok(n)
    case ApplyApproval(id, _, _, _, _) => ReplacedBy(env, m, id, n)
    case Deny(id, _) => ReplacedBy(env, m, id, n)
    case Revoke(id, _) => ReplacedBy(env, m, id, n)
    case SweepExpired(_) => n.Keys == m.Keys && forall id :: id in m ==> RecordOk(env, id, n[id]) && MovesUp(m[id], n[id])
    case Discard(id, _) => n == m || (id in m && m[id].plan.state == Awaiting && m[id].grant.None? && n == m - {id})
  }

  ghost predicate ReplacedBy(env: Env, m: Records, id: Str, n: Records) {
    id in m && id in n && n == m[id := n[id]] && RecordOk(env, id, n[id]) && MovesUp(m[id], n[id])
  }

  lemma DeniedOk(env: Env, id: Str, r: Record)
    requires RecordOk(env, id, r) && r.plan.state == Awaiting
    ensures RecordOk(env, id, DeniedRecord(r)) && MovesUp(r, DeniedRecord(r))
  {
  }

  lemma RevokedOk(env: Env, id: Str, r: Record)
    requires RecordOk(env, id, r) && r.plan.state == Ready && r.grant.Some?
    ensures RecordOk(env, id, RevokedRecord(r)) && MovesUp(r, RevokedRecord(r))
  {
  }

  lemma StepEvolves(env: Env, m: Records, s: Step)
    requires ValidEnv(env) && RecordsOk(env, m) && Outcome(env, m, s).Ok?
    ensures Evolves(env, m, s, After(env, m, s))
  {
    match s
    case Authorize(f) => PrepareOk(env, f);
    case ApplyApproval(id, reference, verdict, now, accepted) => ApplyOk(env, id, m[id], reference, verdict, now, accepted);
    case Deny(id, _) => DeniedOk(env, id, m[id]);
    case Revoke(id, _) => RevokedOk(env, id, m[id]);
    case SweepExpired(now) =>
      forall id | id in m ensures RecordOk(env, id, Swept(env, m[id], now)) && MovesUp(m[id], Swept(env, m[id], now)) {
        SweptOk(env, id, m[id], now);
      }
    case Discard(id, _) =>
  }

  lemma EvolvesSize(env: Env, m: Records, s: Step, n: Records)
    requires |m| <= env.maxRecords && Evolves(env, m, s, n)
    ensures |n| <= env.maxRecords
  {
    match s
    case Authorize(f) =>
    case ApplyApproval(id, _, _, _, _) => assert n.Keys == m.Keys; SameKeysSize(m, n);
    case Deny(id, _) => assert n.Keys == m.Keys; SameKeysSize(m, n);
    case Revoke(id, _) => assert n.Keys == m.Keys; SameKeysSize(m, n);
    case SweepExpired(_) => SameKeysSize(m, n);
    case Discard(id, _) => DiscardSize(m, id);
  }

  lemma StepKeepsStore(env: Env, m: Records, s: Step)
    requires ValidEnv(env) && StoreOk(env, m)
    ensures StoreOk(env, After(env, m, s))
  {
    if Outcome(env, m, s).Ok? {
      StepEvolves(env, m, s);
      EvolvesSize(env, m, s, After(env, m, s));
      EvolvesOk(env, m, s, After(env, m, s));
    }
  }

  lemma EvolvesOk(env: Env, m: Records, s: Step, n: Records)
    requires RecordsOk(env, m) && Evolves(env, m, s, n)
    ensures RecordsOk(env, n)
  {
    match s
    case Authorize(_) =>
      var r :| RecordOk(env, PlanId(r), r) && Inserted(m, env.maxRecords, r) == Ok(n);
      assert n == m[PlanId(r) := r];
    case ApplyApproval(id, _, _, _, _) => assert ReplacedBy(env, m, id, n);
    case Deny(id, _) => assert ReplacedBy(env, m, id, n);
    case Revoke(id, _) => assert ReplacedBy(env, m, id, n);
    case SweepExpired(_) =>
    case Discard(_, _) =>
  }

  /** In every reachable store: awaiting records have a pending request and no grant, ready records that need an
      approval have a granted request and a sufficient grant that expires no later than the plan, itself within
      fifteen minutes of its creation, and blocked records carry no live approval. */
  lemma {:induction false} StoreInvariant(env: Env, m: Records, steps: seq<Step>)
    requires ValidEnv(env) && StoreOk(env, m)
    ensures StoreOk(env, Exec(env, m, steps))
    decreases |steps|
  {
    if steps != [] {
      StepKeepsStore(env, m, steps[0]);
      StoreInvariant(env, After(env, m, steps[0]), steps[1..]);
    }
  }

  // ---- Single use ----

  lemma EvolvesUp(env: Env, m: Records, s: Step, n: Records, id: Str)
    requires id in m && Evolves(env, m, s, n)
    ensures if id in n then MovesUp(m[id], n[id])
            else s.Discard? && s.planId == id && m[id].plan.state == Awaiting && m[id].grant.None?
  {
  }

  /** One step only moves a plan up, never changes what its digest binds, leaves a blocked record alone, and
      removes a record only by discarding a plan that awaits its first approval. */
  lemma StepMovesUp(env: Env, m: Records, s: Step, id: Str)
    requires ValidEnv(env) && StoreOk(env, m) && id in m
    ensures var n := After(env, m, s);
      if id in n then MovesUp(m[id], n[id])
      else s.Discard? && s.planId == id && m[id].plan.state == Awaiting && m[id].grant.None?
  {
    if Outcome(env, m, s).Ok? {
      StepEvolves(env, m, s);
      EvolvesUp(env, m, s, After(env, m, s), id);
    }
  }

  predicate Succeeds(env: Env, m: Records, s: Step, id: Str) { s.ApplyApproval? && s.planId == id && Outcome(env, m, s).Ok? }

  /** How many calls of applyApproval succeed for the plan. */
  function Successes(env: Env, m: Records, steps: seq<Step>, id: Str): nat
    decreases |steps|
  {
    if steps == [] then 0
    else (if Succeeds(env, m, steps[0], id) then 1 else 0) + Successes(env, After(env, m, steps[0]), steps[1..], id)
  }

  predicate Settled(m: Records, id: Str) { id in m && m[id].plan.state != Awaiting }

  lemma ApplySettles(env: Env, m: Records, s: Step, id: Str)
    requires StoreOk(env, m) && Succeeds(env, m, s, id)
    ensures !Settled(m, id) && Settled(After(env, m, s), id)
  {
    ApplyOk(env, id, m[id], s.reference, s.verdict, s.now, s.accepted);
  }

  lemma {:induction false} SettledForGood(env: Env, m: Records, steps: seq<Step>, id: Str)
    requires ValidEnv(env) && StoreOk(env, m) && Settled(m, id)
    ensures Successes(env, m, steps, id) == 0 && Settled(Exec(env, m, steps), id)
    ensures Exec(env, m, steps)[id].plan.terms == m[id].plan.terms
    ensures m[id].plan.state == Blocked ==> Exec(env, m, steps)[id] == m[id]
    decreases |steps|
  {
    if steps != [] {
      StepKeepsStore(env, m, steps[0]);
      StepMovesUp(env, m, steps[0], id);
      if Succeeds(env, m, steps[0], id) { ApplySettles(env, m, steps[0], id); }
      SettledForGood(env, After(env, m, steps[0]), steps[1..], id);
    }
  }

  /** Over any run, applyApproval succeeds at most once for a plan id. */
  lemma {:induction false} SingleUse(env: Env, m: Records, steps: seq<Step>, id: Str)
    requires ValidEnv(env) && StoreOk(env, m)
    ensures Successes(env, m, steps, id) <= 1
    decreases |steps|
  {
    if steps != [] {
      StepKeepsStore(env, m, steps[0]);
      if Succeeds(env, m, steps[0], id) {
        ApplySettles(env, m, steps[0], id);
        SettledForGood(env, After(env, m, steps[0]), steps[1..], id);
      } else {
        SingleUse(env, After(env, m, steps[0]), steps[1..], id);
      }
    }
  }

  // ---- The binding always matches ----

  /** No service operation alters a bound field, so for a stored plan the recomputation is the recorded digest:
      apply succeeds exactly when the remaining conditions hold. The first of them is the configuration's: under a
      policy version with outer blanks, which the constructor accepts, nothing is ever applied. */
  lemma ApplyExactly(env: Env, id: Str, r: Record, reference: Option<Reference>, verdict: Verdict, now: int, accepted: bool)
    requires RecordOk(env, id, r)
    ensures Apply(env, r, reference, verdict, now, accepted) != Err(BindingMismatch)
    ensures Apply(env, r, reference, verdict, now, accepted).Ok? <==>
      && Trim(env.policyVersion) == env.policyVersion
      && r.plan.state == Awaiting && now < r.plan.terms.expiresAt.value
      && reference.Some? && reference.value.planId == id && reference.value.policyVersion == env.policyVersion
      && verdict.Verified? && verdict.grant.authority == verdict.grant.actor.authority
      && Rank(verdict.grant.authority) >= Rank(r.request.value.requiredAuthority)
      && verdict.grant.grantedAt <= now < verdict.grant.expiresAt <= r.plan.terms.expiresAt.value
      && accepted
  {
  }

  // ---- Sweeping ----

  lemma SweptTwice(env: Env, id: Str, r: Record, t1: int, t2: int)
    requires RecordOk(env, id, r) && t1 <= t2
    ensures Swept(env, Swept(env, r, t1), t2) == Swept(env, r, t2)
  {
    SweepReachesAll(env, id, r, t1);
    SweepReachesAll(env, id, r, t2);
  }

  lemma SweptTwiceAt(env: Env, m: Records, t1: int, t2: int, id: Str)
    requires RecordsOk(env, m) && t1 <= t2 && id in m
    ensures Sweep(env, Sweep(env, m, t1), t2)[id] == Sweep(env, m, t2)[id]
  {
    SweptTwice(env, id, m[id], t1, t2);
  }

  lemma SameRecords(m: Records, n: Records)
    requires m.Keys == n.Keys && forall id :: id in m ==> m[id] == n[id]
    ensures m == n
  {
  }

  /** Sweeping at t1 and then at t2 is sweeping at t2; the ids and their number stay. */
  lemma SweepComposes(env: Env, m: Records, t1: int, t2: int)
    requires StoreOk(env, m) && t1 <= t2
    ensures Sweep(env, Sweep(env, m, t1), t2) == Sweep(env, m, t2)
    ensures Sweep(env, m, t2).Keys == m.Keys && |Sweep(env, m, t2)| == |m|
  {
    SweepKeys(env, m, t1);
    SweepKeys(env, m, t2);
    var twice, once := Sweep(env, Sweep(env, m, t1), t2), Sweep(env, m, t2);
    SweepKeys(env, Sweep(env, m, t1), t2);
    forall id | id in m ensures twice[id] == once[id] { SweptTwiceAt(env, m, t1, t2, id); }
    SameRecords(twice, once);
  }

  /** What a sweep leaves awaiting or ready expires strictly later, and so does its grant. */
  lemma SweepLeavesLive(env: Env, m: Records, now: int, id: Str)
    requires StoreOk(env, m) && id in m && Sweep(env, m, now)[id].plan.state != Blocked
    ensures var r := Sweep(env, m, now)[id];
            && r == m[id] && r.plan.terms.expiresAt.Some? && r.plan.terms.expiresAt.value > now
            && (r.grant.Some? ==> r.grant.value.expiresAt > now)
  {
    SweepReachesAll(env, id, m[id], now);
  }

  // ---- The verifier is awaited ----

  /** The record is read before the verifier is awaited and written after, without reading it again. */
  function LateCommit(env: Env, m: Records, snapshot: Record, reference: Option<Reference>, verdict: Verdict, now: int, accepted: bool): Result<Records> {
    match Apply(env, snapshot, reference, verdict, now, accepted)
    case Err(e) => Err(e)
    case Ok(r) => Replaced(m, r)
  }

  lemma GrantedBack(env: Env, id: Str, r: Record, s: Record, g: VerifiedGrant)
    requires RecordOk(env, id, r) && RecordOk(env, id, s) && r.plan.state == Awaiting && s.plan.state == Awaiting
    requires GrantedRecord(env, r, g) == GrantedRecord(env, s, g)
    ensures r == s
  {
    var q, p := r.request.value, s.request.value;
    assert q.(status := Granted).(status := Pending) == q;
    assert p.(status := Granted).(status := Pending) == p;
    assert r.plan.(state := Ready, approval := None).(state := Awaiting) == r.plan;
    assert s.plan.(state := Ready, approval := None).(state := Awaiting) == s.plan;
    assert r.plan.terms == s.plan.terms && r.plan.requiredApproval == s.plan.requiredApproval;
  }

  /** A late commit does what the atomic call would do exactly when the record has not changed meanwhile. */
  lemma LateCommitExactly(
    env: Env, m: Records, id: Str, snapshot: Record, reference: Option<Reference>, verdict: Verdict, now: int, accepted: bool)
    requires StoreOk(env, m) && id in m && RecordOk(env, id, snapshot)
    requires Apply(env, snapshot, reference, verdict, now, accepted).Ok?
    ensures LateCommit(env, m, snapshot, reference, verdict, now, accepted) == Applied(env, m, id, reference, verdict, now, accepted)
       <==> m[id] == snapshot
  {
    ApplyOk(env, id, snapshot, reference, verdict, now, accepted);
    if LateCommit(env, m, snapshot, reference, verdict, now, accepted) == Applied(env, m, id, reference, verdict, now, accepted) {
      var next := GrantedRecord(env, snapshot, verdict.grant);
      ApplyExactly(env, id, m[id], reference, verdict, now, accepted);
      assert m[id := next][id] == m[id := GrantedRecord(env, m[id], verdict.grant)][id];
      GrantedBack(env, id, m[id], snapshot, verdict.grant);
    }
  }

  /** A denial between the read and the commit is undone: the blocked plan becomes ready. */
  lemma LateCommitRevivesDenied(
    env: Env, m: Records, id: Str, reference: Option<Reference>, verdict: Verdict, now: int, accepted: bool)
    requires StoreOk(env, m) && id in m && Apply(env, m[id], reference, verdict, now, accepted).Ok?
    ensures DenyApproval(env, m, id, true).Ok?
    ensures var denied := DenyApproval(env, m, id, true).value;
            var late := LateCommit(env, denied, m[id], reference, verdict, now, accepted);
            && denied[id].plan.state == Blocked
            && late.Ok? && late.value[id].plan.state == Ready
  {
    ApplyOk(env, id, m[id], reference, verdict, now, accepted);
  }

  // ---- One such store, grant and clock ----

  /** A lower-case hexadecimal SHA-256 digest. */
  function SomeDigest(): Str { seq(64, _ => 0x61) }

  /** The shortest timeout allowed, in milliseconds. */
  function SomeTimeout(): Token { [0x31, 0x30, 0x30] }

  function SomeRisk(): Json { RiskSnapshot(Capability(Ascii("1.0.0"), ReadOnly, Low, L1, false)) }

  /** A read of an issue list that needs L1, created at the epoch and open for fifteen minutes. */
  function SomeTerms(): Terms {
    Terms(Ascii("plan-0001"), Ascii("decision-1"), Ascii("github.issue.list"), Ascii("1.0.0"), Ascii("github-cli"),
          Obj([]), SomeRisk(), Obj([Field(Ascii("entries"), Arr([]))]), Finite(SomeTimeout()), None, None, 0, Some(MAX_APPROVAL_TTL_MS))
  }

  function SomeEnv(texts: Texts): Env { Env(Ascii("goal24-approval-policy-v1"), MAX_APPROVAL_TTL_MS, 200, texts, t => true) }

  function SomeBinding(texts: Texts): Str { texts.hash(Print(Payload(texts, SomeTerms(), SomeEnv(texts).policyVersion))) }

  function SomeRecord(texts: Texts): Record {
    Record(Plan(SomeTerms(), true, None, Awaiting), Ascii("guard-run-1"),
           Some(Request(Ascii("apr-0001"), L1, SomeEnv(texts).policyVersion, SomeBinding(texts), 0, MAX_APPROVAL_TTL_MS, Pending)),
           SomeBinding(texts), None, None)
  }

  lemma SomeTermsBind(texts: Texts)
    ensures BindingDigest(texts, SomeTerms(), SomeEnv(texts).policyVersion) == Some(SomeBinding(texts))
  {
    var t := SomeTerms();
    TimeoutInDomain();
    assert InDomain(t.inputs) && InDomain(t.coverage);
    RiskInDomain();
  }

  lemma SomeEnvValid(texts: Texts)
    ensures ValidEnv(SomeEnv(texts)) && Trim(SomeEnv(texts).policyVersion) == SomeEnv(texts).policyVersion
  {
    var v := SomeEnv(texts).policyVersion;
    assert v[0] == 0x67 && v[|v|-1] == 0x31;
  }

  lemma TimeoutInDomain()
    ensures NumberInDomain(Finite(SomeTimeout()))
  {
    var a: Str, b: Str := [0x30, 0x30], [0x30];
    assert SomeTimeout()[1..] == a && a[1..] == b && b[1..] == [];
    assert IntegerPart(b, 10) == 100 && IntegerPart(a, 1) == 100 && IntegerPart(SomeTimeout(), 0) == 100;
    assert FractionDigits(b) == 0 && FractionDigits(a) == 0;
  }

  lemma RiskInDomain()
    ensures InDomain(SomeRisk())
  {
    forall i | 0 <= i < |SomeRisk().fields| ensures InDomain(SomeRisk().fields[i].value) {
      assert SomeRisk().fields[i].value.Text? || SomeRisk().fields[i].value.Bool?;
    }
  }

  /** A plan, a grant and a clock that pass every check, whatever the hash: the grant is confirmed while a denial may
      come between. */
  lemma LateCommitHappens(texts: Texts)
    returns (env: Env, m: Records, id: Str, reference: Option<Reference>, verdict: Verdict, now: int)
    ensures ValidEnv(env) && env.texts == texts && StoreOk(env, m) && id in m
    ensures Apply(env, m[id], reference, verdict, now, true).Ok?
  {
    env, id, now := SomeEnv(texts), Ascii("plan-0001"), 60_000;
    m := map[id := SomeRecord(texts)];
    reference := Some(Reference(Ascii("native-1"), id, Ascii("local-owner"), 30_000, env.policyVersion, Ascii("token-1"), SomeDigest()));
    verdict := Verified(VerifiedGrant(Actor(Ascii("local-owner"), L3), L3, 30_000, 300_000, Ascii("native-1"), Ascii("token-1"), SomeDigest()));
    SomeEnvValid(texts);
    SomeTermsBind(texts);
    assert RecordOk(env, id, SomeRecord(texts));
    ApplyExactly(env, id, SomeRecord(texts), reference, verdict, now, true);
  }
}
