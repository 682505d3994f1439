/** The plan authorization lifecycle: authorize, apply, deny, revoke, sweep and discard. */
module ApprovalLifecycle {
  import opened ApprovalBinding
  import opened ApprovalPolicy
  import opened ApprovalStore
  import opened AuthorizationRecords
  import opened CanonicalJson
  import opened JsText
  import opened Options
  import opened Sorting

  // ---- Authorize ----

  datatype Submission = Submission(
    decisionId: Str, capabilityId: Str, capabilityVersion: Str, adapterId: Str, inputs: Json, timeout: Number,
    verification: Option<Json>, rollback: Option<Json>, expiresAt: Option<int>)

  datatype Eligibility = Eligibility(guardRunId: Str, coverage: Json)

  /** What one call of authorize finds outside the store: the parsed request, the trusted capability, the
      eligible evidence, the fresh ids, the clock, and whether the capability contract accepts the plan. */
  datatype Filing = Filing(
    request: Option<Submission>, forceFresh: bool, capability: Option<Capability>, eligibility: Option<Eligibility>,
    planId: Str, requestId: Str, now: int, accepted: bool)

  function NewPlan(f: Filing, s: Submission, c: Capability, coverage: Json, expiry: int): Plan {
    var required := f.forceFresh || ApprovalRequired(c.effect, c.risk, c.authority);
    Plan(Terms(f.planId, s.decisionId, s.capabilityId, s.capabilityVersion, s.adapterId, s.inputs, RiskSnapshot(c),
               coverage, s.timeout, s.verification, s.rollback, f.now, Some(expiry)),
         required, None, if required then Awaiting else Ready)
  }

  /** The schema trims the policy version of a stored request. */
  function NewRecord(env: Env, f: Filing, p: Plan, c: Capability, guardRunId: Str, digest: Str, expiry: int): Record {
    Record(p, guardRunId,
           if p.requiredApproval
           then Some(Request(f.requestId, c.authority, Trim(env.policyVersion), digest, f.now, expiry, Pending)) else None,
           digest, None, None)
  }

  /** The record that authorize files, or the error it stops with. */
  function Prepare(env: Env, f: Filing): Result<Record> {
    if f.request.None? then Err(InputInvalid)
    else
      var s := f.request.value;
      if f.capability.None? then Err(CapabilityNotFound)
      else
        var c := f.capability.value;
        if c.version != s.capabilityVersion then Err(CapabilityVersionMismatch)
        else if f.eligibility.None? then Err(EvidenceIneligible)
        else
          var e := f.eligibility.value;
          var expiry := ComputePlanExpiry(f.now, s.expiresAt, env.ttl);
          if expiry.None? then Err(InputInvalid)
          else
            var p := NewPlan(f, s, c, e.coverage, expiry.value);
            if !PlanSchemaOk(env, p) || !f.accepted then Err(PlanInvalid)
            else
              var digest := BindingDigest(env.texts, p.terms, env.policyVersion);
              if digest.None? then Err(InputInvalid)
              else Ok(NewRecord(env, f, p, c, e.guardRunId, digest.value, expiry.value))
  }

  function Authorized(env: Env, m: Records, f: Filing): Result<Records> {
    match Prepare(env, f)
    case Err(e) => Err(e)
    case Ok(r) => Inserted(m, env.maxRecords, r)
  }

  // ---- Apply ----

  /** The native verifier throws, says no, returns metadata that does not parse, or confirms a grant. */
  datatype Verdict = VerifierFailed | NotVerified | Malformed | Verified(grant: VerifiedGrant)

  /** Everything that is checked before the verifier is asked. */
  function CheckApply(env: Env, r: Record, reference: Option<Reference>, now: int): Option<Error> {
    if r.plan.state != Awaiting then Some(StateConflict)
    else if r.request.None? || r.request.value.status != Pending then Some(RequestNotPending)
    else
      var q := r.request.value;
      if q.policyVersion != env.policyVersion then Some(PolicyVersionMismatch)
      else if IsExpiredAt(q.expiresAt, now) then Some(RequestHasExpired)
      else
        var recomputed := BindingDigest(env.texts, r.plan.terms, q.policyVersion);
        if recomputed.None? then Some(InputInvalid)
        else if recomputed.value != r.digest then Some(BindingMismatch)
        else if reference.None? then Some(InputInvalid)
        else if reference.value.planId != PlanId(r) then Some(PlanMismatch)
        else if reference.value.policyVersion != env.policyVersion then Some(PolicyVersionMismatch)
        else None
  }

  /** Everything that is checked of the verifier's answer. */
  function CheckGrant(q: Request, verdict: Verdict, now: int): Option<Error> {
    if !verdict.Verified? then Some(GrantInvalid)
    else
      var g := verdict.grant;
      if g.authority != g.actor.authority then Some(GrantInvalid)
      else if !AuthoritySatisfies(g.actor.authority, q.requiredAuthority) then Some(AuthorityInsufficient)
      else if g.grantedAt > now then Some(GrantInvalid)
      else if IsExpiredAt(g.expiresAt, now) then Some(GrantHasExpired)
      else if g.expiresAt > q.expiresAt then Some(GrantInvalid)
      else None
  }

  function WireReference(env: Env, planId: Str, g: VerifiedGrant): Reference {
    Reference(g.recordId, planId, g.actor.id, g.grantedAt, env.policyVersion, g.tokenReference, g.tokenDigest)
  }

  function GrantedRecord(env: Env, r: Record, g: VerifiedGrant): Record
    requires r.request.Some?
  {
    r.(plan := r.plan.(state := Ready, approval := Some(WireReference(env, PlanId(r), g))),
       request := Some(r.request.value.(status := Granted)),
       grant := Some(Grant(g.actor, g.grantedAt, g.expiresAt, g.recordId, g.tokenReference, g.tokenDigest)),
       blockedReason := None)
  }

  /** The verifier's answer meets one record: the record that replaces it, or an error. */
  function Apply(env: Env, r: Record, reference: Option<Reference>, verdict: Verdict, now: int, accepted: bool): Result<Record> {
    var unready := CheckApply(env, r, reference, now);
    if unready.Some? then Err(unready.value)
    else
      var refused := CheckGrant(r.request.value, verdict, now);
      if refused.Some? then Err(refused.value)
      else
        var next := GrantedRecord(env, r, verdict.grant);
        if !PlanSchemaOk(env, next.plan) || !accepted then Err(PlanInvalid) else Ok(next)
  }

  function Applied(env: Env, m: Records, planId: Str, reference: Option<Reference>, verdict: Verdict, now: int, accepted: bool): Result<Records> {
    if planId !in m then Err(PlanNotFound)
    else
      match Apply(env, m[planId], reference, verdict, now, accepted)
      case Err(e) => Err(e)
      case Ok(r) => Replaced(m, r)
  }

  // ---- Deny, revoke ----

  function BlockedPlan(p: Plan): Plan { p.(state := Blocked, approval := None) }

  function DeniedRecord(r: Record): Record
    requires r.request.Some?
  {
    r.(plan := BlockedPlan(r.plan), request := Some(r.request.value.(status := Denied)), blockedReason := Some(ApprovalDenied))
  }

  function DenyApproval(env: Env, m: Records, planId: Str, accepted: bool): Result<Records> {
    if planId !in m then Err(PlanNotFound)
    else
      var r := m[planId];
      if r.plan.state != Awaiting then Err(StateConflict)
      else if r.request.None? || r.request.value.status != Pending then Err(RequestNotPending)
      else if !PlanSchemaOk(env, BlockedPlan(r.plan)) || !accepted then Err(PlanInvalid)
      else Replaced(m, DeniedRecord(r))
  }

  function RevokedRecord(r: Record): Record
    requires r.request.Some?
  {
    r.(plan := BlockedPlan(r.plan), request := Some(r.request.value.(status := Revoked)), blockedReason := Some(ApprovalRevoked))
  }

  function RevokeApproval(env: Env, m: Records, planId: Str, accepted: bool): Result<Records> {
    if planId !in m then Err(PlanNotFound)
    else
      var r := m[planId];
      if r.plan.state != Ready || r.grant.None? then Err(StateConflict)
      else if r.request.None? || r.request.value.status != Granted then Err(RequestNotPending)
      else if !PlanSchemaOk(env, BlockedPlan(r.plan)) || !accepted then Err(PlanInvalid)
      else Replaced(m, RevokedRecord(r))
  }

  // ---- Sweep ----

  predicate RequestArm(r: Record, now: int) {
    r.plan.state == Awaiting && r.request.Some? && r.request.value.status == Pending && IsExpiredAt(r.request.value.expiresAt, now)
  }

  predicate GrantArm(r: Record, now: int) {
    && r.plan.state == Ready && r.grant.Some?
    && r.request.Some? && r.request.value.status == Granted && IsExpiredAt(r.grant.value.expiresAt, now)
  }

  /** The plan arm, after the other two have had their turn. */
  predicate PlanArm(r: Record, now: int) {
    && r.plan.terms.expiresAt.Some? && IsExpiredAt(r.plan.terms.expiresAt.value, now)
    && (r.plan.state == Awaiting || r.plan.state == Ready)
  }

  function WithStatus(q: Option<Request>, status: RequestStatus): Option<Request> {
    if q.None? then None else Some(q.value.(status := status))
  }

  function FirstArms(r: Record, now: int): Record {
    if RequestArm(r, now) then
      r.(plan := BlockedPlan(r.plan), request := WithStatus(r.request, Expired), blockedReason := Some(RequestExpired))
    else if GrantArm(r, now) then
      r.(plan := BlockedPlan(r.plan), request := WithStatus(r.request, Expired), blockedReason := Some(GrantExpired))
    else r
  }

  function LastArm(r: Record, now: int): Record {
    if PlanArm(r, now) then
      r.(plan := BlockedPlan(r.plan), blockedReason := Some(PlanExpired),
         request := if r.request.Some? && r.request.value.status == Pending then WithStatus(r.request, Expired) else r.request)
    else r
  }

  predicate Fires(r: Record, now: int) { RequestArm(r, now) || GrantArm(r, now) || PlanArm(r, now) }

  /** A record whose plan would fail the schema is left as it is. */
  predicate Affected(env: Env, r: Record, now: int) {
    Fires(r, now) && PlanSchemaOk(env, LastArm(FirstArms(r, now), now).plan)
  }

  function Swept(env: Env, r: Record, now: int): Record {
    if Affected(env, r, now) then LastArm(FirstArms(r, now), now) else r
  }

  function Sweep(env: Env, m: Records, now: int): Records { map id | id in m :: Swept(env, m[id], now) }

  // ---- The service ----

  /** `Sweep` on the listed ids only. */
  function SweepSome(env: Env, m: Records, ids: set<Str>, now: int): Records {
    map id | id in m :: if id in ids then Swept(env, m[id], now) else m[id]
  }

  function AffectedIds(env: Env, m: Records, ids: seq<Str>, now: int): seq<Str> {
    if ids == [] then []
    else
      var last := ids[|ids|-1];
      AffectedIds(env, m, ids[..|ids|-1], now) + if last in m && Affected(env, m[last], now) then [last] else []
  }

  lemma SweepExtend(env: Env, m: Records, done: set<Str>, id: Str, now: int)
    requires id in m && id !in done
    ensures var current := SweepSome(env, m, done, now);
            SweepSome(env, m, done + {id}, now)
            == if Affected(env, m[id], now) then current[id := Swept(env, m[id], now)] else current
  {
  }

  lemma NextId(ids: seq<Str>, i: nat)
    requires Ascending(Less, ids) && i < |ids|
    ensures ids[i] in Elements(ids) && ids[i] !in Elements(ids[..i])
    ensures ids[..i+1] == ids[..i] + [ids[i]] && Elements(ids[..i+1]) == Elements(ids[..i]) + {ids[i]}
  {
    assert ids[..i+1] == ids[..i] + [ids[i]];
    forall k | 0 <= k < i ensures ids[k] != ids[i] { LessTotal(ids[k], ids[i]); }
  }

  lemma SweepOneMore(env: Env, m: Records, ids: seq<Str>, i: nat, now: int)
    requires Keyed(m) && Ascending(Less, ids) && Elements(ids) == m.Keys && i < |ids|
    ensures ids[i] in m && PlanId(m[ids[i]]) == ids[i]
    ensures AffectedIds(env, m, ids[..i+1], now)
         == AffectedIds(env, m, ids[..i], now) + (if Affected(env, m[ids[i]], now) then [ids[i]] else [])
    ensures var current := SweepSome(env, m, Elements(ids[..i]), now);
            SweepSome(env, m, Elements(ids[..i+1]), now)
            == if Affected(env, m[ids[i]], now) then current[ids[i] := Swept(env, m[ids[i]], now)] else current
  {
    NextId(ids, i);
    SweepExtend(env, m, Elements(ids[..i]), ids[i], now);
  }

  lemma {:induction false} AffectedIdsMeaning(env: Env, m: Records, ids: seq<Str>, now: int)
    requires Ascending(Less, ids)
    ensures Ascending(Less, AffectedIds(env, m, ids, now))
    ensures forall id :: id in AffectedIds(env, m, ids, now) <==> id in ids && id in m && Affected(env, m[id], now)
  {
    if ids != [] {
      var init, last := ids[..|ids|-1], ids[|ids|-1];
      AffectedIdsMeaning(env, m, init, now);
      assert ids == init + [last];
      var before := AffectedIds(env, m, init, now);
      forall k | 0 <= k < |before| ensures Less(before[k], last) { assert before[k] in init; }
    }
  }

  class AuthorizationService {
    const env: Env
    const store: AuthorizationStore

    constructor (env: Env, store: AuthorizationStore)
      requires ValidEnv(env) && store.maxRecords == env.maxRecords
      ensures this.env == env && this.store == store
    {
      this.env := env;
      this.store := store;
    }

    ghost predicate Valid()
      reads this, store
    {
      ValidEnv(env) && store.maxRecords == env.maxRecords && Keyed(store.records)
    }

    method AuthorizeInternal(f: Filing) returns (outcome: Result<Record>)
      requires Valid()
      modifies store
      ensures Valid()
      ensures match Authorized(env, old(store.records), f)
              case Ok(m) => store.records == m && outcome == Prepare(env, f)
              case Err(e) => store.records == old(store.records) && outcome == Err(e)
    {
      if f.request.None? { return Err(InputInvalid); }
      var s := f.request.value;
      if f.capability.None? { return Err(CapabilityNotFound); }
      var c := f.capability.value;
      if c.version != s.capabilityVersion { return Err(CapabilityVersionMismatch); }
      if f.eligibility.None? { return Err(EvidenceIneligible); }
      var expiry := ComputePlanExpiry(f.now, s.expiresAt, env.ttl);
      if expiry.None? { return Err(InputInvalid); }
      var p := NewPlan(f, s, c, f.eligibility.value.coverage, expiry.value);
      if !PlanSchemaOk(env, p) || !f.accepted { return Err(PlanInvalid); }
      var digest := BindingDigest(env.texts, p.terms, env.policyVersion);
      if digest.None? { return Err(InputInvalid); }
      var r := NewRecord(env, f, p, c, f.eligibility.value.guardRunId, digest.value, expiry.value);
      var stored := store.Put(r);
      outcome := if stored.Ok? then Ok(r) else Err(stored.error);
    }

    method ApplyApproval(planId: Str, reference: Option<Reference>, verdict: Verdict, now: int, accepted: bool)
      returns (outcome: Result<Record>)
      requires Valid()
      modifies store
      ensures Valid()
      ensures match Applied(env, old(store.records), planId, reference, verdict, now, accepted)
              case Ok(m) => store.records == m && planId in m && outcome == Ok(m[planId])
              case Err(e) => store.records == old(store.records) && outcome == Err(e)
    {
      if planId !in store.records { return Err(PlanNotFound); }
      var record := store.records[planId];
      var unready := CheckApply(env, record, reference, now);
      if unready.Some? { return Err(unready.value); }
      var refused := CheckGrant(record.request.value, verdict, now);
      if refused.Some? { return Err(refused.value); }
      var next := GrantedRecord(env, record, verdict.grant);
      if !PlanSchemaOk(env, next.plan) || !accepted { return Err(PlanInvalid); }
      var _ := store.Replace(next);
      outcome := Ok(next);
    }

    method Deny(planId: Str, accepted: bool) returns (outcome: Result<Record>)
      requires Valid()
      modifies store
      ensures Valid()
      ensures match DenyApproval(env, old(store.records), planId, accepted)
              case Ok(m) => store.records == m && planId in m && outcome == Ok(m[planId])
              case Err(e) => store.records == old(store.records) && outcome == Err(e)
    {
      if planId !in store.records { return Err(PlanNotFound); }
      var record := store.records[planId];
      if record.plan.state != Awaiting { return Err(StateConflict); }
      if record.request.None? || record.request.value.status != Pending { return Err(RequestNotPending); }
      if !PlanSchemaOk(env, BlockedPlan(record.plan)) || !accepted { return Err(PlanInvalid); }
      var next := DeniedRecord(record);
      var _ := store.Replace(next);
      outcome := Ok(next);
    }

    method Revoke(planId: Str, accepted: bool) returns (outcome: Result<Record>)
      requires Valid()
      modifies store
      ensures Valid()
      ensures match RevokeApproval(env, old(store.records), planId, accepted)
              case Ok(m) => store.records == m && planId in m && outcome == Ok(m[planId])
              case Err(e) => store.records == old(store.records) && outcome == Err(e)
    {
      if planId !in store.records { return Err(PlanNotFound); }
      var record := store.records[planId];
      if record.plan.state != Ready || record.grant.None? { return Err(StateConflict); }
      if record.request.None? || record.request.value.status != Granted { return Err(RequestNotPending); }
      if !PlanSchemaOk(env, BlockedPlan(record.plan)) || !accepted { return Err(PlanInvalid); }
      var next := RevokedRecord(record);
      var _ := store.Replace(next);
      outcome := Ok(next);
    }

    method DiscardUncommittedRevisionPlan(planId: Str, decisionId: Str) returns (discarded: bool)
      requires Valid()
      modifies store
      ensures Valid()
      ensures (store.records, discarded) == Discarded(old(store.records), planId, decisionId)
    {
      discarded := store.DiscardUncommitted(planId, decisionId);
    }

    /** The three arms on one record of the snapshot. */
    method SweepOne(r: Record, now: int) returns (hit: bool)
      requires Valid() && PlanId(r) in store.records
      modifies store
      ensures Valid()
      ensures hit == Affected(env, r, now)
      ensures store.records == if hit then old(store.records)[PlanId(r) := Swept(env, r, now)] else old(store.records)
    {
      var nextPlan, nextRequest, blockedReason := r.plan, r.request, r.blockedReason;
      var changed := false;
      if RequestArm(r, now) {
        nextPlan, nextRequest, blockedReason := BlockedPlan(r.plan), WithStatus(r.request, Expired), Some(RequestExpired);
        changed := true;
      } else if GrantArm(r, now) {
        nextPlan, nextRequest, blockedReason := BlockedPlan(r.plan), WithStatus(r.request, Expired), Some(GrantExpired);
        changed := true;
      }
      if r.plan.terms.expiresAt.Some? && IsExpiredAt(r.plan.terms.expiresAt.value, now)
         && (nextPlan.state == Awaiting || nextPlan.state == Ready)
      {
        nextPlan, blockedReason := BlockedPlan(nextPlan), Some(PlanExpired);
        if nextRequest.Some? && nextRequest.value.status == Pending {
          nextRequest := WithStatus(nextRequest, Expired);
        }
        changed := true;
      }
      hit := changed && PlanSchemaOk(env, nextPlan);
      if hit {
        var next := r.(plan := nextPlan, request := nextRequest, blockedReason := blockedReason);
        assert next == LastArm(FirstArms(r, now), now);
        var _ := store.Replace(next);
      }
    }

    /** One pass over the sorted snapshot; the affected ids come back in the same order. */
    method SweepExpired(now: int) returns (affected: seq<Str>)
      requires Valid()
      modifies store
      ensures Valid()
      ensures store.records == Sweep(env, old(store.records), now)
      ensures Ascending(Less, affected)
      ensures forall id :: id in affected <==> id in old(store.records) && Affected(env, old(store.records)[id], now)
    {
      ghost var before := store.records;
      affected := [];
      var rs := store.List();
      ghost var ids :| Lists(store.records, ids, rs);
      assert store.records == SweepSome(env, before, Elements(ids[..0]), now);
      for i := 0 to |rs|
        invariant Valid() && store.records == SweepSome(env, before, Elements(ids[..i]), now)
        invariant affected == AffectedIds(env, before, ids[..i], now)
      {
        var r := rs[i];
        SweepOneMore(env, before, ids, i, now);
        var hit := SweepOne(r, now);
        if hit { affected := affected + [PlanId(r)]; }
      }
      assert ids[..|rs|] == ids;
      AffectedIdsMeaning(env, before, ids, now);
      SweptAll(env, before, ids, now);
    }
  }

  lemma SweptAll(env: Env, m: Records, ids: seq<Str>, now: int)
    requires Elements(ids) == m.Keys
    ensures SweepSome(env, m, Elements(ids), now) == Sweep(env, m, now)
    ensures Keyed(m) ==> Keyed(Sweep(env, m, now))
    ensures forall id :: id in ids <==> id in m
  {
    forall id ensures id in ids <==> id in m { assert id in ids <==> id in Elements(ids); }
  }
}
