/** What the calls of the authorization service leave in the store, in the terms of the policy: which plans need no
    approval, whose authority a plan waits for, and what becomes of a plan that is applied, denied, revoked or late. */
module ApprovalMeaning {
  import opened ApprovalBinding
  import opened ApprovalLifecycle
  import opened ApprovalPolicy
  import opened ApprovalStore
  import opened ApprovalTheorems
  import opened AuthorizationRecords
  import opened CanonicalJson
  import opened JsText
  import opened Options

  // ---- The policy ----

  /** The minimum case: a read, of low risk, open to everyone. */
  predicate Harmless(c: Capability) { c.effect == ReadOnly && c.risk == Low && c.authority == L0 }

  /** L0 < L1 < L2 < L3. */
  predicate Covers(actor: Authority, required: Authority) {
    match required
    case L0 => true
    case L1 => actor != L0
    case L2 => actor == L2 || actor == L3
    case L3 => actor == L3
  }

  lemma CoversIsRank(actor: Authority, required: Authority)
    ensures Covers(actor, required) <==> Rank(actor) >= Rank(required)
  {
  }

  /** What the digest says of the risk is the effect, the risk and the authority of the capability, by their names. */
  lemma RiskSnapshotNames(c: Capability)
    ensures RiskSnapshot(c).Obj? && |RiskSnapshot(c).fields| == 5
    ensures var fs := RiskSnapshot(c).fields;
      && fs[0] == Field(Ascii("risk_level"), Text(Ascii(if c.risk == Low then "low" else if c.risk == Medium then "medium" else "high")))
      && fs[1] == Field(Ascii("reversible"), Bool(c.reversible))
      && fs[2] == Field(Ascii("side_effect_class"), Text(Ascii(
           if c.effect == ReadOnly then "read_only" else if c.effect == ReversibleWrite then "reversible_write"
           else if c.effect == DestructiveWrite then "destructive_write" else "external_effect")))
      && fs[3] == Field(Ascii("required_authority"), Text(Ascii(
           if c.authority == L0 then "L0" else if c.authority == L1 then "L1" else if c.authority == L2 then "L2" else "L3")))
      && fs[4] == Field(Ascii("capability_version"), Text(c.version))
  {
  }

  // ---- Authorize ----

  /** The plan that a request asks for. */
  ghost predicate FiledFor(env: Env, f: Filing, r: Record) {
    && f.request.Some? && f.capability.Some? && f.eligibility.Some?
    && var s, c, t := f.request.value, f.capability.value, r.plan.terms;
       && t.planId == f.planId && t.decisionId == s.decisionId && t.adapterId == s.adapterId
       && t.capabilityId == s.capabilityId && t.capabilityVersion == c.version
       && t.inputs == s.inputs && t.timeout == s.timeout && t.verification == s.verification && t.rollback == s.rollback
       && t.risk == RiskSnapshot(c) && t.coverage == f.eligibility.value.coverage && r.guardRunId == f.eligibility.value.guardRunId
       && t.createdAt == f.now && t.expiresAt.Some?
  }

  /** A filed plan is ready at once exactly when no fresh approval is forced and the capability is harmless; any other
      waits, with a pending request, for the authority that the capability requires. */
  lemma FiledReadyExactly(env: Env, f: Filing)
    requires Prepare(env, f).Ok?
    ensures var r := Prepare(env, f).value;
      && r.digest == env.texts.hash(Print(Payload(env.texts, r.plan.terms, env.policyVersion)))
      && FiledFor(env, f, r) && f.accepted && r.grant.None? && r.blockedReason.None? && r.plan.approval.None?
      && var c := f.capability.value;
         if !f.forceFresh && c.effect == ReadOnly && c.risk == Low && c.authority == L0 then
           r.plan.state == Ready && !r.plan.requiredApproval && r.request.None?
         else
           r.plan.state == Awaiting && r.plan.requiredApproval &&
           r.request == Some(Request(f.requestId, c.authority, Trim(env.policyVersion), r.digest, f.now, r.plan.terms.expiresAt.value, Pending))
  {
  }

  /** The earlier of the requested time and the end of the policy bound. */
  lemma FiledExpiry(env: Env, f: Filing)
    requires Prepare(env, f).Ok?
    ensures var expiry, wish := Prepare(env, f).value.plan.terms.expiresAt.value, f.request.value.expiresAt;
      && f.now < expiry <= f.now + env.ttl && (wish.Some? ==> expiry <= wish.value)
      && (expiry == f.now + env.ttl || wish == Some(expiry))
  {
  }

  ghost function FiledTerms(env: Env, f: Filing): Terms
    requires f.request.Some? && f.capability.Some? && f.eligibility.Some?
  {
    var s, bound := f.request.value, f.now + env.ttl;
    Terms(f.planId, s.decisionId, s.capabilityId, s.capabilityVersion, s.adapterId, s.inputs, RiskSnapshot(f.capability.value),
          f.eligibility.value.coverage, s.timeout, s.verification, s.rollback, f.now,
          Some(if s.expiresAt.Some? && s.expiresAt.value < bound then s.expiresAt.value else bound))
  }

  /** What stops a request before its plan is made: each answer means that none of the earlier ones applies. */
  lemma FilingRefused(env: Env, f: Filing)
    ensures f.request.None? ==> Prepare(env, f) == Err(InputInvalid)
    ensures f.request.Some? && f.capability.None? ==> Prepare(env, f) == Err(CapabilityNotFound)
    ensures f.request.Some? && f.capability.Some? && f.capability.value.version != f.request.value.capabilityVersion ==>
              Prepare(env, f) == Err(CapabilityVersionMismatch)
    ensures f.request.Some? && f.capability.Some? && f.capability.value.version == f.request.value.capabilityVersion && f.eligibility.None? ==>
              Prepare(env, f) == Err(EvidenceIneligible)
  {
  }

  /** And what stops it then, or the terms of the plan that is filed. */
  lemma FilingAnswers(env: Env, f: Filing)
    requires ValidEnv(env) && f.request.Some? && f.capability.Some? && f.eligibility.Some?
    requires f.capability.value.version == f.request.value.capabilityVersion
    ensures if f.request.value.expiresAt.Some? && f.request.value.expiresAt.value <= f.now then Prepare(env, f) == Err(InputInvalid)
            else if !env.termsOk(FiledTerms(env, f)) || !f.accepted then Prepare(env, f) == Err(PlanInvalid)
            else if !BindingInDomain(FiledTerms(env, f)) then Prepare(env, f) == Err(InputInvalid)
            else Prepare(env, f).Ok? && Prepare(env, f).value.plan.terms == FiledTerms(env, f)
  {
  }

  /** What the plan schema refuses of the fields that the service sets itself. */
  lemma SchemaRefuses(env: Env, p: Plan)
    ensures !env.termsOk(p.terms) ==> !PlanSchemaOk(env, p)
    ensures p.terms.expiresAt.Some? && p.terms.expiresAt.value <= p.terms.createdAt ==> !PlanSchemaOk(env, p)
    ensures p.approval.Some? && (p.approval.value.planId != p.terms.planId || !p.requiredApproval || p.state != Ready) ==> !PlanSchemaOk(env, p)
    ensures p.requiredApproval && p.state == Ready && p.approval.None? ==> !PlanSchemaOk(env, p)
    ensures !p.requiredApproval && p.state == Awaiting ==> !PlanSchemaOk(env, p)
  {
  }

  // ---- Apply ----

  /** Why a stored plan is not applied, or the record that its approval leaves. */
  lemma ApplyAnswers(env: Env, id: Str, r: Record, reference: Option<Reference>, verdict: Verdict, now: int, accepted: bool)
    requires RecordOk(env, id, r)
    ensures r.plan.state != Awaiting ==> Apply(env, r, reference, verdict, now, accepted) == Err(StateConflict)
    ensures r.plan.state == Awaiting && !verdict.Verified? ==>
              Apply(env, r, reference, verdict, now, accepted) ==
              (if Trim(env.policyVersion) != env.policyVersion then Err(PolicyVersionMismatch)
               else if now >= r.plan.terms.expiresAt.value then Err(RequestHasExpired)
               else if reference.None? then Err(InputInvalid)
               else if reference.value.planId != id then Err(PlanMismatch)
               else if reference.value.policyVersion != env.policyVersion then Err(PolicyVersionMismatch)
               else Err(GrantInvalid))
    ensures r.plan.state == Awaiting && verdict.Verified? ==>
              var g := verdict.grant;
              Apply(env, r, reference, verdict, now, accepted) ==
              if Trim(env.policyVersion) != env.policyVersion then Err(PolicyVersionMismatch)
              else if now >= r.plan.terms.expiresAt.value then Err(RequestHasExpired)
              else if reference.None? then Err(InputInvalid)
              else if reference.value.planId != id then Err(PlanMismatch)
              else if reference.value.policyVersion != env.policyVersion then Err(PolicyVersionMismatch)
              else if g.authority != g.actor.authority then Err(GrantInvalid)
              else if !Covers(g.authority, r.request.value.requiredAuthority) then Err(AuthorityInsufficient)
              else if g.grantedAt > now then Err(GrantInvalid)
              else if now >= g.expiresAt then Err(GrantHasExpired)
              else if g.expiresAt > r.plan.terms.expiresAt.value then Err(GrantInvalid)
              else if !accepted then Err(PlanInvalid)
              else Ok(r.(
                plan := r.plan.(state := Ready, approval := Some(Reference(
                  g.recordId, id, g.actor.id, g.grantedAt, env.policyVersion, g.tokenReference, g.tokenDigest))),
                request := Some(r.request.value.(status := Granted)),
                grant := Some(Grant(g.actor, g.grantedAt, g.expiresAt, g.recordId, g.tokenReference, g.tokenDigest))))
  {
    if r.plan.state == Awaiting && verdict.Verified? {
      CoversIsRank(verdict.grant.authority, r.request.value.requiredAuthority);
    }
  }

  // ---- Deny, revoke, discard ----

  /** A denial blocks a plan that awaits approval, and no other. */
  lemma DenialExactly(env: Env, m: Records, id: Str, accepted: bool)
    requires StoreOk(env, m)
    ensures DenyApproval(env, m, id, accepted) ==
      if id !in m then Err(PlanNotFound)
      else if m[id].plan.state != Awaiting then Err(StateConflict)
      else if !accepted then Err(PlanInvalid)
      else Ok(m[id := m[id].(plan := m[id].plan.(state := Blocked), request := Some(m[id].request.value.(status := Denied)),
                             blockedReason := Some(ApprovalDenied))])
  {
  }

  /** A revocation blocks a plan that is ready by a grant, and no other; the grant stays on record. */
  lemma RevocationExactly(env: Env, m: Records, id: Str, accepted: bool)
    requires StoreOk(env, m)
    ensures RevokeApproval(env, m, id, accepted) ==
      if id !in m then Err(PlanNotFound)
      else if m[id].plan.state != Ready || !m[id].plan.requiredApproval then Err(StateConflict)
      else if !accepted then Err(PlanInvalid)
      else Ok(m[id := m[id].(plan := m[id].plan.(state := Blocked, approval := None),
                             request := Some(m[id].request.value.(status := Revoked)), blockedReason := Some(ApprovalRevoked))])
  {
  }

  /** Whatever the store holds, only a plan that awaits its first approval is ever discarded. */
  lemma DiscardsAwaiting(m: Records, id: Str, decisionId: Str)
    requires Discarded(m, id, decisionId).1
    ensures id in m && m[id].plan.terms.decisionId == decisionId && m[id].plan.state == Awaiting && m[id].plan.approval.None?
    ensures m[id].grant.None? && m[id].request.Some? && m[id].request.value.status == Pending && Discarded(m, id, decisionId).0 == m - {id}
  {
  }

  /** A revision discards a plan of its decision that awaits its first approval, and no other. */
  lemma DiscardExactly(env: Env, m: Records, id: Str, decisionId: Str)
    requires StoreOk(env, m)
    ensures Discarded(m, id, decisionId) ==
      if id in m && m[id].plan.terms.decisionId == decisionId && m[id].plan.state == Awaiting then (m - {id}, true) else (m, false)
  {
  }

  // ---- Sweep ----

  /** What a sweep makes of a stored record: an awaiting plan is blocked from its expiry on, a granted one from the expiry
      of its grant on, one without approval from its own expiry on, and any other record is left alone. */
  lemma SweptExactly(env: Env, id: Str, r: Record, now: int)
    requires RecordOk(env, id, r)
    ensures Swept(env, r, now) ==
      if r.plan.state == Awaiting && now >= r.plan.terms.expiresAt.value then
        r.(plan := r.plan.(state := Blocked), request := Some(r.request.value.(status := Expired)), blockedReason := Some(RequestExpired))
      else if r.plan.state == Ready && r.plan.requiredApproval && now >= r.grant.value.expiresAt then
        r.(plan := r.plan.(state := Blocked, approval := None), request := Some(r.request.value.(status := Expired)),
           blockedReason := Some(GrantExpired))
      else if r.plan.state == Ready && !r.plan.requiredApproval && now >= r.plan.terms.expiresAt.value then
        r.(plan := r.plan.(state := Blocked), blockedReason := Some(PlanExpired))
      else r
  {
  }

  /** The pass reports exactly the records that it blocks. */
  lemma AffectedExactly(env: Env, m: Records, id: Str, now: int)
    requires StoreOk(env, m) && id in m
    ensures Affected(env, m[id], now) <==> m[id].plan.state != Blocked && Sweep(env, m, now)[id].plan.state == Blocked
  {
    SweptExactly(env, id, m[id], now);
    SweepReachesAll(env, id, m[id], now);
  }

  /** Nothing stays open for longer than fifteen minutes after its creation. */
  lemma FifteenMinutes(env: Env, m: Records, id: Str, now: int)
    requires StoreOk(env, m) && id in m && now >= m[id].plan.terms.createdAt + 900_000
    ensures Sweep(env, m, now)[id].plan.state == Blocked
  {
    SweptExactly(env, id, m[id], now);
  }

  // ---- What every stored plan was filed for ----

  /** The filing that each plan id was last filed with, in a run. */
  type History = map<Str, Filing>

  ghost function Noted(env: Env, m: Records, s: Step, h: History): History {
    if s.Authorize? && Outcome(env, m, s).Ok? then h[s.filing.planId := s.filing] else h
  }

  ghost function HistoryOf(env: Env, m: Records, steps: seq<Step>, h: History): History
    decreases |steps|
  {
    if steps == [] then h else HistoryOf(env, After(env, m, steps[0]), steps[1..], Noted(env, m, steps[0], h))
  }

  /** The plan is the one filed; it is free of approval only for a harmless capability; and otherwise the authority it
      asks for, and the one that granted it, are at least what the capability requires. */
  ghost predicate Warranted(env: Env, f: Filing, r: Record) {
    && FiledFor(env, f, r)
    && var c := f.capability.value;
       if !f.forceFresh && c.effect == ReadOnly && c.risk == Low && c.authority == L0 then
         r.request.None? && r.plan.state in {Ready, Blocked} && r.grant.None?
       else
         && r.request.Some? && r.request.value.requiredAuthority == c.authority && r.request.value.id == f.requestId
         && (r.plan.state == Awaiting ==> r.request.value.status == Pending)
         && (r.plan.state == Ready ==> r.request.value.status == Granted && r.grant.Some? && Covers(r.grant.value.actor.authority, c.authority))
  }

  ghost predicate AllWarranted(env: Env, m: Records, h: History) {
    forall id :: id in m ==> id in h && h[id].planId == id && Warranted(env, h[id], m[id])
  }

  lemma FilingWarranted(env: Env, f: Filing)
    requires Prepare(env, f).Ok?
    ensures Warranted(env, f, Prepare(env, f).value) && PlanId(Prepare(env, f).value) == f.planId
  {
    FiledReadyExactly(env, f);
  }

  lemma ApplyWarranted(env: Env, f: Filing, r: Record, reference: Option<Reference>, verdict: Verdict, now: int, accepted: bool)
    requires Warranted(env, f, r) && Apply(env, r, reference, verdict, now, accepted).Ok?
    ensures Warranted(env, f, Apply(env, r, reference, verdict, now, accepted).value)
  {
    CoversIsRank(verdict.grant.actor.authority, f.capability.value.authority);
  }

  lemma BlockedWarranted(env: Env, f: Filing, r: Record, n: Record)
    requires Warranted(env, f, r) && n.plan.state == Blocked && n.plan.terms == r.plan.terms && n.guardRunId == r.guardRunId
    requires n.grant == r.grant && n.request.Some? == r.request.Some?
    requires r.request.Some? ==> n.request.value.requiredAuthority == r.request.value.requiredAuthority && n.request.value.id == r.request.value.id
    ensures Warranted(env, f, n)
  {
  }

  lemma SweepWarranted(env: Env, f: Filing, id: Str, r: Record, now: int)
    requires Warranted(env, f, r) && RecordOk(env, id, r)
    ensures Warranted(env, f, Swept(env, r, now))
  {
    SweptExactly(env, id, r, now);
    if Swept(env, r, now) != r { BlockedWarranted(env, f, r, Swept(env, r, now)); }
  }

  lemma DenyWarranted(env: Env, m: Records, h: History, id: Str, accepted: bool)
    requires StoreOk(env, m) && id in m && id in h && Warranted(env, h[id], m[id]) && DenyApproval(env, m, id, accepted).Ok?
    ensures Warranted(env, h[id], DenyApproval(env, m, id, accepted).value[id])
  {
    DenialExactly(env, m, id, accepted);
    BlockedWarranted(env, h[id], m[id], DenyApproval(env, m, id, accepted).value[id]);
  }

  lemma RevokeWarranted(env: Env, m: Records, h: History, id: Str, accepted: bool)
    requires StoreOk(env, m) && id in m && id in h && Warranted(env, h[id], m[id]) && RevokeApproval(env, m, id, accepted).Ok?
    ensures Warranted(env, h[id], RevokeApproval(env, m, id, accepted).value[id])
  {
    RevocationExactly(env, m, id, accepted);
    BlockedWarranted(env, h[id], m[id], RevokeApproval(env, m, id, accepted).value[id]);
  }

  /** A step that is not about the plan leaves its record alone. */
  lemma OthersStay(env: Env, m: Records, s: Step, id: Str)
    requires ValidEnv(env) && StoreOk(env, m) && Outcome(env, m, s).Ok? && !s.Authorize? && !s.SweepExpired?
    requires id in m && id in After(env, m, s) && (s.planId != id || s.Discard?)
    ensures After(env, m, s)[id] == m[id]
  {
    StepEvolves(env, m, s);
  }

  lemma ChangeWarranted(env: Env, m: Records, s: Step, h: History, id: Str)
    requires ValidEnv(env) && StoreOk(env, m) && AllWarranted(env, m, h) && Outcome(env, m, s).Ok?
    requires !s.Authorize? && id in m && id in After(env, m, s)
    ensures Warranted(env, h[id], After(env, m, s)[id])
  {
    if s.SweepExpired? {
      SweepWarranted(env, h[id], id, m[id], s.now);
    } else if s.planId != id || s.Discard? {
      OthersStay(env, m, s, id);
    } else {
      match s
      case ApplyApproval(_, reference, verdict, now, accepted) => ApplyWarranted(env, h[id], m[id], reference, verdict, now, accepted);
      case Deny(_, accepted) => DenyWarranted(env, m, h, id, accepted);
      case Revoke(_, accepted) => RevokeWarranted(env, m, h, id, accepted);
    }
  }

  lemma OldId(env: Env, m: Records, s: Step, id: Str)
    requires ValidEnv(env) && StoreOk(env, m) && Outcome(env, m, s).Ok? && !s.Authorize? && id in After(env, m, s)
    ensures id in m
  {
    StepEvolves(env, m, s);
  }

  lemma StepWarranted(env: Env, m: Records, s: Step, h: History, id: Str)
    requires ValidEnv(env) && StoreOk(env, m) && AllWarranted(env, m, h) && id in After(env, m, s)
    ensures var g := Noted(env, m, s, h);
      id in g && g[id].planId == id && Warranted(env, g[id], After(env, m, s)[id])
  {
    if Outcome(env, m, s).Ok? {
      if s.Authorize? {
        FilingWarranted(env, s.filing);
      } else {
        OldId(env, m, s, id);
        ChangeWarranted(env, m, s, h, id);
      }
    }
  }

  lemma {:induction false} WarrantedRun(env: Env, m: Records, steps: seq<Step>, h: History)
    requires ValidEnv(env) && StoreOk(env, m) && AllWarranted(env, m, h)
    ensures AllWarranted(env, Exec(env, m, steps), HistoryOf(env, m, steps, h))
    decreases |steps|
  {
    if steps != [] {
      var n, g := After(env, m, steps[0]), Noted(env, m, steps[0], h);
      StepKeepsStore(env, m, steps[0]);
      forall id | id in n ensures id in g && g[id].planId == id && Warranted(env, g[id], n[id]) { StepWarranted(env, m, steps[0], h, id); }
      WarrantedRun(env, n, steps[1..], g);
    }
  }

  /** In every run from the empty store a plan is ready only if its capability is harmless and no fresh approval was
      forced, or if it was granted by an actor whose authority covers what the capability requires. */
  lemma NothingReadyUnapproved(env: Env, steps: seq<Step>, id: Str)
    requires ValidEnv(env) && id in Exec(env, map[], steps)
    ensures var h, r := HistoryOf(env, map[], steps, map[]), Exec(env, map[], steps)[id];
      && id in h && FiledFor(env, h[id], r)
      && var f, c := h[id], h[id].capability.value;
         && (r.plan.state == Ready ==>
               || (!f.forceFresh && c.effect == ReadOnly && c.risk == Low && c.authority == L0)
               || (r.grant.Some? && Covers(r.grant.value.actor.authority, c.authority)))
         && (r.plan.state == Awaiting ==> r.request.Some? && r.request.value.requiredAuthority == c.authority)
  {
    WarrantedRun(env, map[], steps, map[]);
  }
}
