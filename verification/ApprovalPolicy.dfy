/** The fail-closed approval policy. Times are milliseconds. */
module ApprovalPolicy {
  import opened CanonicalJson
  import opened JsText
  import opened Options

  const MAX_APPROVAL_TTL_MS := 15 * 60 * 1000

  datatype Authority = L0 | L1 | L2 | L3

  function Rank(a: Authority): nat {
    match a case L0 => 0 case L1 => 1 case L2 => 2 case L3 => 3
  }

  predicate AuthoritySatisfies(actor: Authority, required: Authority) { Rank(actor) >= Rank(required) }

  datatype SideEffect = ReadOnly | ReversibleWrite | DestructiveWrite | ExternalEffect

  datatype Risk = Low | Medium | High

  /** What the trusted catalog declares of a capability. */
  datatype Capability = Capability(version: Str, effect: SideEffect, risk: Risk, authority: Authority, reversible: bool)

  function EffectName(e: SideEffect): string {
    match e
    case ReadOnly => "read_only"
    case ReversibleWrite => "reversible_write"
    case DestructiveWrite => "destructive_write"
    case ExternalEffect => "external_effect"
  }

  function RiskName(r: Risk): string { match r case Low => "low" case Medium => "medium" case High => "high" }

  function AuthorityName(a: Authority): string { match a case L0 => "L0" case L1 => "L1" case L2 => "L2" case L3 => "L3" }

  /** The risk snapshot of a plan comes from the capability alone. */
  function RiskSnapshot(c: Capability): Json {
    Obj([Field(Ascii("risk_level"), Text(Ascii(RiskName(c.risk)))), Field(Ascii("reversible"), Bool(c.reversible)),
         Field(Ascii("side_effect_class"), Text(Ascii(EffectName(c.effect)))),
         Field(Ascii("required_authority"), Text(Ascii(AuthorityName(c.authority)))),
         Field(Ascii("capability_version"), Text(c.version))])
  }

  predicate ApprovalRequired(effect: SideEffect, risk: Risk, authority: Authority) {
    !(effect == ReadOnly && risk == Low && authority == L0)
  }

  /** A requested expiry can only shorten the policy bound; an expiry that is not in the future is refused. */
  function ComputePlanExpiry(createdAt: int, requested: Option<int>, ttl: nat): (expiry: Option<int>)
    ensures expiry.Some? ==> createdAt < expiry.value <= createdAt + ttl
    ensures expiry.Some? && requested.Some? ==> expiry.value <= requested.value
    ensures expiry.None? <==> ttl == 0 || (requested.Some? && requested.value <= createdAt)
  {
    var bound := createdAt + ttl;
    var expires := if requested.Some? && requested.value < bound then requested.value else bound;
    if expires <= createdAt then None else Some(expires)
  }

  predicate IsExpiredAt(expiresAt: int, now: int) { now >= expiresAt }
}
