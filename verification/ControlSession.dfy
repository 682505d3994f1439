/** Control sessions: a bounded lifetime with a fixed-window burst limiter inside it. */
module ControlSession {
  import opened JsText
  import opened Options

  const TTL_MS := 5 * 60 * 1000
  const BURST_MAX := 10
  const BURST_WINDOW_MS := 60_000

  type SessionId = Str

  datatype Scope = ApproveScope | VerifyScope | ReopenScope

  datatype Stored = Stored(
    id: SessionId, scope: Scope, digest: Str, issuedAt: int, expiresAt: int, requests: nat, resetAt: int)

  /** The sessions map in insertion order. */
  type Sessions = seq<Stored>

  // ---- Map operations ----

  function Get(m: Sessions, id: SessionId): Option<Stored> {
    if m == [] then None else if m[0].id == id then Some(m[0]) else Get(m[1..], id)
  }

  /** `set`: an existing key keeps its place, a new one goes to the end. */
  function Set(m: Sessions, s: Stored): Sessions {
    if m == [] then [s] else if m[0].id == s.id then [s] + m[1..] else [m[0]] + Set(m[1..], s)
  }

  function Delete(m: Sessions, id: SessionId): Sessions {
    if m == [] then [] else if m[0].id == id then m[1..] else [m[0]] + Delete(m[1..], id)
  }

  ghost predicate DistinctIds(m: Sessions) {
    m == [] || (Get(m[1..], m[0].id) == None && DistinctIds(m[1..]))
  }

  // ---- Operations on the map ----

  function Minted(id: SessionId, scope: Scope, digest: Str, now: int): Stored {
    Stored(id, scope, digest, now, now + TTL_MS, 0, now + BURST_WINDOW_MS)
  }

  /** authenticate: expired sessions met before the match are dropped. */
  function Scan(m: Sessions, digest: Str, now: int): (Sessions, Option<Stored>) {
    if m == [] then ([], None)
    else if m[0].expiresAt <= now then Scan(m[1..], digest, now)
    else if m[0].digest == digest then (m, Some(m[0]))
    else
      var (rest, found) := Scan(m[1..], digest, now);
      ([m[0]] + rest, found)
  }

  lemma ScanNothing(m: Sessions, digest: Str, now: int)
    ensures m[0..] == m && m[|m|..] == [] && [] + Scan(m, digest, now).0 == Scan(m, digest, now).0
    ensures forall kept: Sessions :: kept + [] == kept
  {
  }

  lemma ScanPast(kept: Sessions, m: Sessions, i: nat, digest: Str, now: int)
    requires i < |m|
    ensures m[i].expiresAt <= now ==> Scan(m[i..], digest, now) == Scan(m[i+1..], digest, now)
    ensures m[i].expiresAt > now && m[i].digest == digest ==> Scan(m[i..], digest, now) == (m[i..], Some(m[i]))
    ensures m[i].expiresAt > now && m[i].digest != digest ==>
              && kept + Scan(m[i..], digest, now).0 == kept + [m[i]] + Scan(m[i+1..], digest, now).0
              && Scan(m[i..], digest, now).1 == Scan(m[i+1..], digest, now).1
  {
    assert m[i..][1..] == m[i+1..];
  }

  predicate OpensWindow(s: Stored, now: int) { s.expiresAt > now && s.resetAt <= now }

  /** The stored session after one admitted or refused request at a live time. */
  function Counted(s: Stored, now: int): Stored {
    if s.resetAt <= now then s.(resetAt := now + BURST_WINDOW_MS, requests := 1)
    else s.(requests := s.requests + 1)
  }

  function Consume(m: Sessions, id: SessionId, now: int): (Sessions, bool) {
    match Get(m, id)
    case None => (m, false)
    case Some(s) =>
      if s.expiresAt <= now then (Delete(m, id), false)
      else (Set(m, Counted(s, now)), Counted(s, now).requests <= BURST_MAX)
  }

  class ControlSessionManager {
    var sessions: Sessions

    constructor ()
      ensures sessions == []
    {
      sessions := [];
    }

    /** The token and the id are drawn at random; they arrive here as parameters. */
    method Mint(id: SessionId, scope: Scope, digest: Str, now: int) returns (session: Stored)
      modifies this
      ensures session == Minted(id, scope, digest, now)
      ensures sessions == Set(old(sessions), session)
    {
      session := Stored(id, scope, digest, now, now + TTL_MS, 0, now + BURST_WINDOW_MS);
      sessions := Set(sessions, session);
    }

    method Authenticate(digest: Str, now: int) returns (session: Option<Stored>)
      modifies this
      ensures (sessions, session) == (if digest == [] then (old(sessions), None) else Scan(old(sessions), digest, now))
    {
      if digest == [] {
        return None;
      }
      var kept, i := [], 0;
      ghost var all := sessions;
      ScanNothing(all, digest, now);
      while i < |sessions|
        invariant 0 <= i <= |sessions| && sessions == all
        invariant Scan(all, digest, now).0 == kept + Scan(all[i..], digest, now).0
        invariant Scan(all, digest, now).1 == Scan(all[i..], digest, now).1
      {
        var stored := sessions[i];
        ScanPast(kept, all, i, digest, now);
        if stored.expiresAt > now {
          if stored.digest == digest {
            sessions := kept + sessions[i..];
            return Some(stored);
          }
          kept := kept + [stored];
        }
        i := i + 1;
      }
      ScanNothing(all, digest, now);
      sessions := kept;
      session := None;
    }

    method ConsumeBurst(id: SessionId, now: int) returns (admitted: bool)
      modifies this
      ensures (sessions, admitted) == Consume(old(sessions), id, now)
    {
      var stored := Get(sessions, id);
      if stored.None? || stored.value.expiresAt <= now {
        if stored.Some? {
          sessions := Delete(sessions, id);
        }
        return false;
      }
      var s := stored.value;
      if s.resetAt <= now {
        s := s.(resetAt := now + BURST_WINDOW_MS, requests := 0);
      }
      s := s.(requests := s.requests + 1);
      sessions := Set(sessions, s);
      admitted := s.requests <= BURST_MAX;
    }

    method Revoke(id: SessionId) returns (existed: bool)
      modifies this
      ensures sessions == Delete(old(sessions), id) && existed == Get(old(sessions), id).Some?
    {
      existed := Get(sessions, id).Some?;
      sessions := Delete(sessions, id);
    }

    method RevokeAll()
      modifies this
      ensures sessions == []
    {
      sessions := [];
    }
  }

  // ---- Runs ----

  datatype Op =
    | OpMint(id: SessionId, scope: Scope, digest: Str, now: int)
    | OpAuthenticate(digest: Str, now: int)
    | OpConsume(id: SessionId, now: int)
    | OpRevoke(id: SessionId)
    | OpRevokeAll

  function After(m: Sessions, op: Op): Sessions {
    match op
    case OpMint(id, scope, digest, now) => Set(m, Minted(id, scope, digest, now))
    case OpAuthenticate(digest, now) => if digest == [] then m else Scan(m, digest, now).0
    case OpConsume(id, now) => Consume(m, id, now).0
    case OpRevoke(id) => Delete(m, id)
    case OpRevokeAll => []
  }

  /** Is `op` a request of session `id` that is admitted? */
  predicate Admits(m: Sessions, op: Op, id: SessionId) {
    op.OpConsume? && op.id == id && Consume(m, id, op.now).1
  }

  predicate Opens(m: Sessions, op: Op, id: SessionId) {
    op.OpConsume? && op.id == id && Get(m, id).Some? && OpensWindow(Get(m, id).value, op.now)
  }

  function Admitted(m: Sessions, ops: seq<Op>, id: SessionId): nat
    decreases |ops|
  {
    if ops == [] then 0
    else (if Admits(m, ops[0], id) then 1 else 0) + Admitted(After(m, ops[0]), ops[1..], id)
  }

  function WindowsOpened(m: Sessions, ops: seq<Op>, id: SessionId): nat
    decreases |ops|
  {
    if ops == [] then 0
    else (if Opens(m, ops[0], id) then 1 else 0) + WindowsOpened(After(m, ops[0]), ops[1..], id)
  }

  /** Admitted requests of `id` at times from `lo` to `lo` + 60 s, both ends included. */
  function AdmittedWithin(m: Sessions, ops: seq<Op>, id: SessionId, lo: int): nat
    decreases |ops|
  {
    if ops == [] then 0
    else (if Admits(m, ops[0], id) && lo <= ops[0].now <= lo + BURST_WINDOW_MS then 1 else 0)
         + AdmittedWithin(After(m, ops[0]), ops[1..], id, lo)
  }

  /** Session ids are never drawn twice. */
  predicate NeverMints(ops: seq<Op>, id: SessionId) {
    forall i :: 0 <= i < |ops| ==> ops[i].OpMint? ==> ops[i].id != id
  }

  predicate Timed(op: Op) { !op.OpRevoke? && !op.OpRevokeAll? }

  /** The clock does not run backwards, from `since` on. */
  predicate ClockAdvances(ops: seq<Op>, since: int) {
    if ops == [] then true
    else if Timed(ops[0]) then since <= ops[0].now && ClockAdvances(ops[1..], ops[0].now)
    else ClockAdvances(ops[1..], since)
  }

  // ---- What one operation does to one session ----

  lemma {:induction false} GetSet(m: Sessions, s: Stored, id: SessionId)
    ensures Get(Set(m, s), id) == if id == s.id then Some(s) else Get(m, id)
  {
    if m != [] && m[0].id != s.id { GetSet(m[1..], s, id); }
  }

  lemma {:induction false} GetDelete(m: Sessions, gone: SessionId, id: SessionId)
    requires DistinctIds(m)
    ensures Get(Delete(m, gone), id) == if id == gone then None else Get(m, id)
  {
    if m != [] && m[0].id != gone { GetDelete(m[1..], gone, id); }
  }

  lemma {:induction false} GetScan(m: Sessions, digest: Str, now: int, id: SessionId)
    requires DistinctIds(m)
    ensures Get(Scan(m, digest, now).0, id) in {None, Get(m, id)}
  {
    if m != [] { GetScan(m[1..], digest, now, id); }
  }

  lemma {:induction false} DistinctSet(m: Sessions, s: Stored)
    requires DistinctIds(m)
    ensures DistinctIds(Set(m, s))
  {
    if m != [] && m[0].id != s.id {
      DistinctSet(m[1..], s);
      GetSet(m[1..], s, m[0].id);
    }
  }

  lemma {:induction false} DistinctDelete(m: Sessions, id: SessionId)
    requires DistinctIds(m)
    ensures DistinctIds(Delete(m, id))
  {
    if m != [] && m[0].id != id {
      DistinctDelete(m[1..], id);
      GetDelete(m[1..], id, m[0].id);
    }
  }

  lemma {:induction false} DistinctScan(m: Sessions, digest: Str, now: int)
    requires DistinctIds(m)
    ensures DistinctIds(Scan(m, digest, now).0)
  {
    if m != [] {
      DistinctScan(m[1..], digest, now);
      GetScan(m[1..], digest, now, m[0].id);
    }
  }

  lemma {:induction false} GetFound(m: Sessions, id: SessionId)
    ensures Get(m, id).Some? ==> Get(m, id).value.id == id
  {
    if m != [] { GetFound(m[1..], id); }
  }

  /** One operation drops the session, leaves it alone, or counts one live request of it. */
  lemma StepOnSession(m: Sessions, op: Op, id: SessionId)
    requires DistinctIds(m) && (op.OpMint? ==> op.id != id)
    ensures DistinctIds(After(m, op))
    ensures Get(m, id) == None ==> Get(After(m, op), id) == None && !Admits(m, op, id)
    ensures Get(m, id).Some? ==>
              var s := Get(m, id).value;
              if op.OpConsume? && op.id == id && s.expiresAt > op.now
              then Get(After(m, op), id) == Some(Counted(s, op.now))
                && (Admits(m, op, id) <==> Counted(s, op.now).requests <= BURST_MAX)
              else Get(After(m, op), id) in {None, Some(s)} && !Admits(m, op, id) && !Opens(m, op, id)
  {
    GetFound(m, id);
    match op
    case OpMint(other, scope, digest, now) =>
      GetSet(m, Minted(other, scope, digest, now), id);
      DistinctSet(m, Minted(other, scope, digest, now));
    case OpAuthenticate(digest, now) =>
      GetScan(m, digest, now, id);
      DistinctScan(m, digest, now);
    case OpConsume(other, now) =>
      GetFound(m, other);
      GetDelete(m, other, id);
      DistinctDelete(m, other);
      if Get(m, other).Some? {
        GetSet(m, Counted(Get(m, other).value, now), id);
        DistinctSet(m, Counted(Get(m, other).value, now));
      }
    case OpRevoke(other) =>
      GetDelete(m, other, id);
      DistinctDelete(m, other);
    case OpRevokeAll =>
  }

  // ---- The bound over a whole life, for any clock ----

  /** How many more windows can open before the session expires. */
  function WindowsLeft(s: Stored): nat {
    if s.resetAt >= s.expiresAt then 0 else (s.expiresAt - 1 - s.resetAt) / BURST_WINDOW_MS + 1
  }

  function RequestsLeft(s: Stored): nat { if s.requests >= BURST_MAX then 0 else BURST_MAX - s.requests }

  function Budget(m: Sessions, id: SessionId): nat {
    match Get(m, id)
    case None => 0
    case Some(s) => RequestsLeft(s) + BURST_MAX * WindowsLeft(s)
  }

  function WindowBudget(m: Sessions, id: SessionId): nat {
    match Get(m, id)
    case None => 0
    case Some(s) => WindowsLeft(s)
  }

  lemma OpeningCosts(s: Stored, now: int)
    requires OpensWindow(s, now)
    ensures WindowsLeft(Counted(s, now)) + 1 <= WindowsLeft(s)
  {
  }

  lemma {:induction false} BudgetHolds(m: Sessions, ops: seq<Op>, id: SessionId)
    requires DistinctIds(m) && NeverMints(ops, id)
    ensures Admitted(m, ops, id) <= Budget(m, id)
    ensures WindowsOpened(m, ops, id) <= WindowBudget(m, id)
    decreases |ops|
  {
    if ops != [] {
      StepOnSession(m, ops[0], id);
      BudgetHolds(After(m, ops[0]), ops[1..], id);
      if Opens(m, ops[0], id) {
        OpeningCosts(Get(m, id).value, ops[0].now);
      }
    }
  }

  /** Whatever the clock reports, a session sees at most 5 windows and admits at most 50 requests. */
  lemma LifetimeBurst(m: Sessions, id: SessionId, scope: Scope, digest: Str, t0: int, ops: seq<Op>)
    requires DistinctIds(m) && NeverMints(ops, id)
    ensures var start := After(m, OpMint(id, scope, digest, t0));
            && 1 + WindowsOpened(start, ops, id) <= 5
            && Admitted(start, ops, id) <= 50
  {
    var start := After(m, OpMint(id, scope, digest, t0));
    GetSet(m, Minted(id, scope, digest, t0), id);
    DistinctSet(m, Minted(id, scope, digest, t0));
    BudgetHolds(start, ops, id);
  }

  // ---- The bound over any 60 seconds, for a clock that does not run backwards ----

  function SpanBudget(m: Sessions, id: SessionId, lo: int, clock: int): nat {
    match Get(m, id)
    case None => 0
    case Some(s) =>
      if clock > lo + BURST_WINDOW_MS then 0
      else if s.resetAt > lo + BURST_WINDOW_MS then RequestsLeft(s)
      else if s.resetAt > lo then RequestsLeft(s) + BURST_MAX
      else 2 * BURST_MAX
  }

  lemma {:induction false} SpanBudgetHolds(m: Sessions, ops: seq<Op>, id: SessionId, lo: int, clock: int)
    requires DistinctIds(m) && NeverMints(ops, id) && ClockAdvances(ops, clock)
    ensures AdmittedWithin(m, ops, id, lo) <= SpanBudget(m, id, lo, clock)
    decreases |ops|
  {
    if ops != [] {
      var next := if Timed(ops[0]) then ops[0].now else clock;
      StepOnSession(m, ops[0], id);
      SpanBudgetHolds(After(m, ops[0]), ops[1..], id, lo, next);
    }
  }

  lemma SpanBurst(m: Sessions, ops: seq<Op>, id: SessionId, lo: int, clock: int)
    requires DistinctIds(m) && NeverMints(ops, id) && ClockAdvances(ops, clock)
    ensures AdmittedWithin(m, ops, id, lo) <= 20
  {
    SpanBudgetHolds(m, ops, id, lo, clock);
  }

  // ---- Which requests are admitted ----

  function Exec(m: Sessions, ops: seq<Op>): Sessions
    decreases |ops|
  {
    if ops == [] then m else Exec(After(m, ops[0]), ops[1..])
  }

  /** The requests of the session, admitted or not. */
  function Requests(ops: seq<Op>, id: SessionId): nat
    decreases |ops|
  {
    if ops == [] then 0 else (if ops[0].OpConsume? && ops[0].id == id then 1 else 0) + Requests(ops[1..], id)
  }

  /** The session is not revoked, and every operation comes before the time. */
  predicate Undisturbed(ops: seq<Op>, id: SessionId, before: int) {
    forall i :: 0 <= i < |ops| ==>
      !ops[i].OpRevokeAll? && (ops[i].OpRevoke? ==> ops[i].id != id) && (Timed(ops[i]) ==> ops[i].now < before)
  }

  lemma {:induction false} ScanKeepsLive(m: Sessions, digest: Str, now: int, id: SessionId)
    requires DistinctIds(m) && Get(m, id).Some? && Get(m, id).value.expiresAt > now
    ensures Get(Scan(m, digest, now).0, id) == Get(m, id)
  {
    if m[0].id == id {
    } else {
      ScanKeepsLive(m[1..], digest, now, id);
    }
  }

  /** One operation before the end of the window and of the session. */
  lemma StepInWindow(m: Sessions, op: Op, id: SessionId, s: Stored)
    requires DistinctIds(m) && Get(m, id) == Some(s) && Undisturbed([op], id, s.resetAt) && Undisturbed([op], id, s.expiresAt)
    requires op.OpMint? ==> op.id != id
    ensures DistinctIds(After(m, op))
    ensures var mine := op.OpConsume? && op.id == id;
      Get(After(m, op), id) == Some(s.(requests := s.requests + if mine then 1 else 0)) && (Admits(m, op, id) <==> mine && s.requests + 1 <= 10)
  {
    assert [op][0] == op;
    StepOnSession(m, op, id);
    match op
    case OpMint(other, scope, digest, now) => GetSet(m, Minted(other, scope, digest, now), id);
    case OpAuthenticate(digest, now) => ScanKeepsLive(m, digest, now, id);
    case OpConsume(other, now) =>
      GetFound(m, other);
      GetDelete(m, other, id);
      if Get(m, other).Some? { GetSet(m, Counted(Get(m, other).value, now), id); }
    case OpRevoke(other) => GetDelete(m, other, id);
    case OpRevokeAll =>
  }

  lemma {:induction false} WindowCounts(m: Sessions, ops: seq<Op>, id: SessionId, s: Stored)
    requires DistinctIds(m) && Get(m, id) == Some(s) && NeverMints(ops, id)
    requires Undisturbed(ops, id, s.resetAt) && Undisturbed(ops, id, s.expiresAt)
    ensures DistinctIds(Exec(m, ops)) && Get(Exec(m, ops), id) == Some(s.(requests := s.requests + Requests(ops, id)))
    decreases |ops|
  {
    if ops != [] {
      assert [ops[0]][0] == ops[0];
      StepInWindow(m, ops[0], id, s);
      var mine := ops[0].OpConsume? && ops[0].id == id;
      WindowCounts(After(m, ops[0]), ops[1..], id, s.(requests := s.requests + if mine then 1 else 0));
    }
  }

  /** In the first minute of a session exactly its first ten requests are admitted, whatever runs beside them. */
  lemma FirstTen(m: Sessions, id: SessionId, scope: Scope, digest: Str, t0: int, ops: seq<Op>, now: int)
    requires DistinctIds(m) && NeverMints(ops, id) && Undisturbed(ops, id, t0 + 60_000) && now < t0 + 60_000
    ensures var end := Exec(After(m, OpMint(id, scope, digest, t0)), ops);
      Admits(end, OpConsume(id, now), id) <==> Requests(ops, id) + 1 <= 10
  {
    var start := Minted(id, scope, digest, t0);
    GetSet(m, start, id);
    DistinctSet(m, start);
    WindowCounts(Set(m, start), ops, id, start);
    var end := Exec(After(m, OpMint(id, scope, digest, t0)), ops);
    assert [OpConsume(id, now)][0] == OpConsume(id, now);
    StepInWindow(end, OpConsume(id, now), id, start.(requests := Requests(ops, id)));
  }

  /** A request at or after the end of the window, on a live session, is admitted as the first of a new one; then exactly
      the next nine before the new window ends, a minute later, are admitted too. */
  lemma NextTen(m: Sessions, id: SessionId, s: Stored, t: int, ops: seq<Op>, now: int)
    requires DistinctIds(m) && Get(m, id) == Some(s) && s.resetAt <= t < s.expiresAt
    requires NeverMints(ops, id) && Undisturbed(ops, id, t + 60_000) && Undisturbed(ops, id, s.expiresAt)
    requires now < t + 60_000 && now < s.expiresAt
    ensures Admits(m, OpConsume(id, t), id)
    ensures var end := Exec(After(m, OpConsume(id, t)), ops);
      Admits(end, OpConsume(id, now), id) <==> 1 + Requests(ops, id) + 1 <= 10
  {
    var first := s.(requests := 1, resetAt := t + 60_000);
    StepOnSession(m, OpConsume(id, t), id);
    assert Counted(s, t) == first;
    WindowCounts(After(m, OpConsume(id, t)), ops, id, first);
    var end := Exec(After(m, OpConsume(id, t)), ops);
    assert [OpConsume(id, now)][0] == OpConsume(id, now);
    StepInWindow(end, OpConsume(id, now), id, first.(requests := 1 + Requests(ops, id)));
  }

  /** A session lives for five minutes: from then on its requests are refused, and drop it. */
  lemma FiveMinutes(m: Sessions, id: SessionId, scope: Scope, digest: Str, t0: int, ops: seq<Op>, now: int)
    requires DistinctIds(m) && NeverMints(ops, id) && now >= t0 + 300_000
    ensures var end := Exec(After(m, OpMint(id, scope, digest, t0)), ops);
      !Admits(end, OpConsume(id, now), id) && Get(After(end, OpConsume(id, now)), id) == None
  {
    var start := Minted(id, scope, digest, t0);
    GetSet(m, start, id);
    DistinctSet(m, start);
    ExpiryKept(Set(m, start), ops, id, t0 + 300_000);
    var end := Exec(After(m, OpMint(id, scope, digest, t0)), ops);
    GetDelete(end, id, id);
  }

  lemma {:induction false} ExpiryKept(m: Sessions, ops: seq<Op>, id: SessionId, expiry: int)
    requires DistinctIds(m) && NeverMints(ops, id) && (Get(m, id).Some? ==> Get(m, id).value.expiresAt == expiry)
    ensures var end := Exec(m, ops); DistinctIds(end) && (Get(end, id).Some? ==> Get(end, id).value.expiresAt == expiry)
    decreases |ops|
  {
    if ops != [] {
      StepOnSession(m, ops[0], id);
      ExpiryKept(After(m, ops[0]), ops[1..], id, expiry);
    }
  }
}
