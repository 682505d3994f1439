/** Plans, approval requests, grants and the records that hold them together. */
module AuthorizationRecords {
  import opened ApprovalBinding
  import opened ApprovalPolicy
  import opened JsText
  import opened Options

  /** The states the authorization service assigns; execution states are set elsewhere. */
  datatype State = Awaiting | Ready | Blocked

  datatype Reference = Reference(
    approvalId: Str, planId: Str, grantedBy: Str, grantedAt: int, policyVersion: Str, tokenReference: Str, tokenDigest: Str)

  datatype Plan = Plan(terms: Terms, requiredApproval: bool, approval: Option<Reference>, state: State)

  datatype RequestStatus = Pending | Granted | Denied | Revoked | Expired

  datatype Request = Request(
    id: Str, requiredAuthority: Authority, policyVersion: Str, digest: Str, createdAt: int, expiresAt: int,
    status: RequestStatus)

  datatype Actor = Actor(id: Str, authority: Authority)

  /** What the native verifier returns. */
  datatype VerifiedGrant = VerifiedGrant(
    actor: Actor, authority: Authority, grantedAt: int, expiresAt: int, recordId: Str, tokenReference: Str, tokenDigest: Str)

  /** What the record keeps of it. */
  datatype Grant = Grant(
    actor: Actor, grantedAt: int, expiresAt: int, recordId: Str, tokenReference: Str, tokenDigest: Str)

  datatype Reason = ApprovalDenied | ApprovalRevoked | RequestExpired | GrantExpired | PlanExpired

  datatype Record = Record(
    plan: Plan, guardRunId: Str, request: Option<Request>, digest: Str, grant: Option<Grant>, blockedReason: Option<Reason>)

  type Records = map<Str, Record>

  datatype Error =
    | InputInvalid | CapabilityNotFound | CapabilityVersionMismatch | EvidenceIneligible | PlanInvalid
    | StoreConflict | StoreFull | PlanNotFound | StateConflict | RequestNotPending | PolicyVersionMismatch
    | RequestHasExpired | BindingMismatch | PlanMismatch | GrantInvalid | AuthorityInsufficient | GrantHasExpired

  datatype Result<+T> = Ok(value: T) | Err(error: Error)

  /** The configuration of a service: its policy version, its lifetime cap, its store bound, the text functions,
      and the schema of the plan fields it copies from a request. */
  datatype Env = Env(policyVersion: Str, ttl: nat, maxRecords: nat, texts: Texts, termsOk: Terms -> bool)

  predicate ValidEnv(env: Env) {
    && Trim(env.policyVersion) != [] && |env.policyVersion| <= 50
    && 0 < env.ttl <= MAX_APPROVAL_TTL_MS && env.maxRecords > 0
  }

  function PlanId(r: Record): Str { r.plan.terms.planId }

  /** The rules of the plan schema that involve its state, its approval and its times. */
  predicate PlanSchemaOk(env: Env, p: Plan) {
    && env.termsOk(p.terms)
    && (p.terms.expiresAt.Some? ==> p.terms.expiresAt.value > p.terms.createdAt)
    && (p.state == Awaiting ==> p.requiredApproval)
    && (p.approval.Some? ==> p.approval.value.planId == p.terms.planId && p.requiredApproval)
    && (p.requiredApproval && p.state == Ready ==> p.approval.Some?)
    && (p.state == Awaiting || p.state == Blocked ==> p.approval.None?)
  }
}
