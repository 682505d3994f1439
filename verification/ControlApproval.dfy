/** The control facade: an approval is audited before it takes effect, whatever else runs in between. */
module ControlApproval {
  import opened ApprovalLifecycle
  import opened ApprovalStore
  import opened AuthorizationRecords
  import opened JsText
  import opened Options
  import Lifecycle = ApprovalTheorems

  // ---- The audit log ----

  datatype AuditResult = Approved | Rejected | Failed

  datatype Reason =
    | BodyInvalid | UnknownPlan | NotPending | PlanHasExpired | AlreadyGranted | GrantRefused | ApplyFailed

  datatype Event = Event(session: Str, planId: Option<Str>, decisionId: Option<Str>, result: AuditResult, reason: Option<Reason>)

  type Log = seq<Event>

  predicate Writable(log: Log, maxEvents: nat, sinkOk: bool) { sinkOk && |log| < maxEvents }

  /** The bounded append-only store: a full log refuses, it never evicts. */
  class InMemoryControlApprovalAuditStore {
    var events: Log
    const maxEvents: nat

    constructor (maxEvents: nat)
      requires maxEvents > 0
      ensures events == [] && this.maxEvents == maxEvents
    {
      events := [];
      this.maxEvents := maxEvents;
    }

    method EnsureWritable() returns (ok: bool)
      ensures ok == Writable(events, maxEvents, true)
    {
      ok := |events| < maxEvents;
    }

    method Append(e: Event) returns (ok: bool)
      modifies this
      ensures ok == Writable(old(events), maxEvents, true)
      ensures events == if ok then old(events) + [e] else old(events)
    {
      ok := EnsureWritable();
      if ok { events := events + [e]; }
    }
  }

  // ---- One call of approve, between its awaits ----

  /** Why a call of approve ends in an error. */
  datatype Failure = Refused(reason: Reason) | AuditUnavailable | NotApplied(error: Error)

  /** What a suspended call does next. */
  datatype Phase =
    | Reporting(event: Event, failure: Failure)
    | Probing(session: Str, planId: Str, decisionId: Str)
    | Granting(session: Str, planId: Str, decisionId: Str)
    | Approving(session: Str, planId: Str, decisionId: Str, reference: Reference)
    | Applying(session: Str, planId: Str, decisionId: Str, reference: Reference)
    | Verifying(session: Str, planId: Str, decisionId: Str, reference: Reference, read: Record, now: int)

  datatype Native = Declined(duplicate: bool) | Issued(reference: Reference)

  /** A request, with the three readings of the clock that the expiry check makes. */
  datatype Call = Call(session: Str, body: Option<Str>, first: int, second: int, third: int)

  /** The answers of the outside world to one continuation. `sinkOk` is false when the audit sink fails by itself. */
  datatype Answer = Answer(sinkOk: bool, native: Native, verdict: Verdict, now: int, accepted: bool)

  datatype Next = Goto(phase: Phase) | Succeed | Fail(failure: Failure)

  datatype Moved = Moved(records: Records, log: Log, next: Next)

  const GRANT_LIFETIME_MS := 5 * 60_000

  function Min(a: int, b: int): int { if a < b then a else b }

  function Report(session: Str, planId: Option<Str>, decisionId: Option<Str>, result: AuditResult, reason: Reason, failure: Failure): Phase {
    Reporting(Event(session, planId, decisionId, result, Some(reason)), failure)
  }

  function Rejection(session: Str, planId: Option<Str>, decisionId: Option<Str>, reason: Reason): Phase {
    Report(session, planId, decisionId, Rejected, reason, Refused(reason))
  }

  /** Up to the first await, with or without an authorization runtime. */
  function Begin(runtime: bool, m: Records, c: Call): Phase {
    if c.body.None? then Rejection(c.session, None, None, BodyInvalid)
    else
      var id := c.body.value;
      if !runtime || id !in m then Rejection(c.session, c.body, None, UnknownPlan)
      else
        var r := m[id];
        var planId, decisionId := PlanId(r), r.plan.terms.decisionId;
        if r.plan.state != Awaiting || r.request.None? || r.request.value.status != Pending then
          Rejection(c.session, Some(planId), Some(decisionId), NotPending)
        else
          var bound := if r.plan.terms.expiresAt.Some? then r.plan.terms.expiresAt.value else c.first + GRANT_LIFETIME_MS;
          if Min(bound, c.second + GRANT_LIFETIME_MS) <= c.third then
            Rejection(c.session, Some(planId), Some(decisionId), PlanHasExpired)
          else Probing(c.session, planId, decisionId)
  }

  /** From one await to the next. The record that an apply has read is committed after the verifier's answer, without
      being read again. */
  function Continue(env: Env, maxEvents: nat, m: Records, log: Log, p: Phase, a: Answer): Moved {
    match p
    case Reporting(e, failure) =>
      if Writable(log, maxEvents, a.sinkOk) then Moved(m, log + [e], Fail(failure)) else Moved(m, log, Fail(AuditUnavailable))
    case Probing(session, planId, decisionId) =>
      Moved(m, log, if Writable(log, maxEvents, a.sinkOk) then Goto(Granting(session, planId, decisionId)) else Fail(AuditUnavailable))
    case Granting(session, planId, decisionId) =>
      Moved(m, log, Goto(
        match a.native
        case Issued(reference) => Approving(session, planId, decisionId, reference)
        case Declined(duplicate) =>
          if duplicate then Rejection(session, Some(planId), Some(decisionId), AlreadyGranted)
          else Report(session, Some(planId), Some(decisionId), Failed, GrantRefused, Refused(GrantRefused))))
    case Approving(session, planId, decisionId, reference) =>
      if Writable(log, maxEvents, a.sinkOk) then
        Moved(m, log + [Event(session, Some(planId), Some(decisionId), Approved, None)],
              Goto(Applying(session, planId, decisionId, reference)))
      else Moved(m, log, Fail(AuditUnavailable))
    case Applying(session, planId, decisionId, reference) =>
      var unready := if planId in m then CheckApply(env, m[planId], Some(reference), a.now) else Some(PlanNotFound);
      Moved(m, log, Goto(
        if unready.Some? then Report(session, Some(planId), Some(decisionId), Failed, ApplyFailed, NotApplied(unready.value))
        else Verifying(session, planId, decisionId, reference, m[planId], a.now)))
    case Verifying(session, planId, decisionId, reference, read, now) =>
      match Lifecycle.LateCommit(env, m, read, Some(reference), a.verdict, now, a.accepted)
      case Ok(n) => Moved(n, log, Succeed)
      case Err(e) => Moved(m, log, Goto(Report(session, Some(planId), Some(decisionId), Failed, ApplyFailed, NotApplied(e))))
  }

  function Remaining(p: Phase): nat {
    match p case Reporting(_, _) => 0 case Verifying(_, _, _, _, _, _) => 1 case Applying(_, _, _, _) => 2
            case Approving(_, _, _, _) => 3 case Granting(_, _, _) => 4 case Probing(_, _, _) => 5
  }

  /** The outside world's answers to the continuations of one call, by what remains of it. */
  type Answers = nat -> Answer

  /** A call that nothing interrupts. */
  function Finish(env: Env, maxEvents: nat, m: Records, log: Log, p: Phase, a: Answers): (end: Moved)
    ensures !end.next.Goto?
    decreases Remaining(p)
  {
    var moved := Continue(env, maxEvents, m, log, p, a(Remaining(p)));
    if moved.next.Goto? then Finish(env, maxEvents, moved.records, moved.log, moved.next.phase, a) else moved
  }

  /** Uninterrupted, the late commit is the apply of the service. */
  lemma ApplyFinishes(env: Env, maxEvents: nat, m: Records, log: Log, p: Phase, a: Answers)
    requires p.Applying? && Keyed(m)
    ensures var applied := Applied(env, m, p.planId, Some(p.reference), a(1).verdict, a(2).now, a(1).accepted);
      Finish(env, maxEvents, m, log, p, a)
      == if applied.Ok? then Moved(applied.value, log, Succeed)
         else Finish(env, maxEvents, m, log,
                     Report(p.session, Some(p.planId), Some(p.decisionId), Failed, ApplyFailed, NotApplied(applied.error)), a)
  {
    var first := Continue(env, maxEvents, m, log, p, a(2));
    assert Finish(env, maxEvents, m, log, p, a) == Finish(env, maxEvents, m, log, first.next.phase, a);
  }

  class ControlApprovalFacade {
    const runtime: AuthorizationService?
    const audit: InMemoryControlApprovalAuditStore

    constructor (runtime: AuthorizationService?, audit: InMemoryControlApprovalAuditStore)
      ensures this.runtime == runtime && this.audit == audit
    {
      this.runtime := runtime;
      this.audit := audit;
    }

    ghost predicate Ready()
      reads this, Objects()
    {
      runtime != null ==> runtime.Valid()
    }

    /** What an approval may change besides the log. */
    ghost function Objects(): set<object>
      reads this
    {
      if runtime == null then {} else {runtime, runtime.store}
    }

    ghost function Records(): Records
      reads this, Objects()
    {
      if runtime == null then map[] else runtime.store.records
    }

    /** The state in which a call ends when it runs uninterrupted from phase `p`. */
    ghost predicate End(m: Records, log: Log, p: Phase, a: Answers, next: Next)
      reads this, Objects(), audit
    {
      && Ready()
      && forall env | runtime != null ==> env == runtime.env ::
        Moved(Records(), audit.events, next) == Finish(env, audit.maxEvents, m, log, p, a)
    }

    /** A durable sink may fail before it reaches the log. */
    method Append(e: Event, sinkOk: bool) returns (ok: bool)
      modifies audit
      ensures ok == Writable(old(audit.events), audit.maxEvents, sinkOk)
      ensures audit.events == if ok then old(audit.events) + [e] else old(audit.events)
    {
      if !sinkOk { return false; }
      ok := audit.Append(e);
    }

    method RecordAndFail(p: Phase, a: Answers) returns (next: Next)
      requires p.Reporting? && Ready()
      modifies audit
      ensures End(old(Records()), old(audit.events), p, a, next)
    {
      var ok := Append(p.event, a(0).sinkOk);
      next := Fail(if ok then p.failure else AuditUnavailable);
    }

    method Apply(p: Phase, a: Answers) returns (next: Next)
      requires p.Applying? && runtime != null && Ready()
      modifies audit, runtime.store
      ensures End(old(Records()), old(audit.events), p, a, next)
    {
      ApplyFinishes(runtime.env, audit.maxEvents, runtime.store.records, audit.events, p, a);
      var applied := runtime.ApplyApproval(p.planId, Some(p.reference), a(1).verdict, a(2).now, a(1).accepted);
      if applied.Ok? { return Succeed; }
      next := RecordAndFail(
        Report(p.session, Some(p.planId), Some(p.decisionId), Failed, ApplyFailed, NotApplied(applied.error)), a);
    }

    /** The approval is written down before it is applied. */
    method RecordApproval(p: Phase, a: Answers) returns (next: Next)
      requires p.Approving? && runtime != null && Ready()
      modifies audit, runtime.store
      ensures End(old(Records()), old(audit.events), p, a, next)
    {
      var ok := Append(Event(p.session, Some(p.planId), Some(p.decisionId), Approved, None), a(3).sinkOk);
      if !ok { return Fail(AuditUnavailable); }
      next := Apply(Applying(p.session, p.planId, p.decisionId, p.reference), a);
    }

    method Grant(p: Phase, a: Answers) returns (next: Next)
      requires p.Granting? && runtime != null && Ready()
      modifies audit, runtime.store
      ensures End(old(Records()), old(audit.events), p, a, next)
    {
      var native := a(4).native;
      if native.Declined? {
        var refusal :=
          if native.duplicate then Rejection(p.session, Some(p.planId), Some(p.decisionId), AlreadyGranted)
          else Report(p.session, Some(p.planId), Some(p.decisionId), Failed, GrantRefused, Refused(GrantRefused));
        next := RecordAndFail(refusal, a);
        return;
      }
      next := RecordApproval(Approving(p.session, p.planId, p.decisionId, native.reference), a);
    }

    method Approve(c: Call, a: Answers) returns (next: Next)
      requires Ready()
      modifies audit, Objects()
      ensures End(old(Records()), old(audit.events), Begin(runtime != null, old(Records()), c), a, next)
    {
      if runtime == null {
        next := RecordAndFail(Begin(false, map[], c), a);
        return;
      }
      var p := Begin(true, runtime.store.records, c);
      if p.Reporting? {
        next := RecordAndFail(p, a);
        return;
      }
      var writable := audit.EnsureWritable();
      if !writable || !a(5).sinkOk { return Fail(AuditUnavailable); }
      next := Grant(Granting(p.session, p.planId, p.decisionId), a);
      assert Finish(runtime.env, audit.maxEvents, old(Records()), old(audit.events), p, a)
          == Finish(runtime.env, audit.maxEvents, old(Records()), old(audit.events), Granting(p.session, p.planId, p.decisionId), a);
    }
  }

  // ---- Many calls at once ----

  /** The store, the log and the suspended calls. */
  datatype World = World(records: Records, log: Log, calls: map<nat, Phase>)

  datatype Step =
    | Arrive(id: nat, runtime: bool, call: Call)
    | Resume(id: nat, answer: Answer)
    | Other(step: Lifecycle.Step)

  /** Plans are applied through the facade only; every other service operation may run at any time. */
  function After(env: Env, maxEvents: nat, w: World, s: Step): World {
    match s
    case Arrive(id, runtime, c) => if id in w.calls then w else w.(calls := w.calls[id := Begin(runtime, w.records, c)])
    case Resume(id, a) =>
      if id !in w.calls then w
      else
        var moved := Continue(env, maxEvents, w.records, w.log, w.calls[id], a);
        World(moved.records, moved.log, if moved.next.Goto? then w.calls[id := moved.next.phase] else w.calls - {id})
    case Other(step) => if step.ApplyApproval? then w else w.(records := Lifecycle.After(env, w.records, step))
  }

  function Exec(env: Env, maxEvents: nat, w: World, steps: seq<Step>): World
    decreases |steps|
  {
    if steps == [] then w else Exec(env, maxEvents, After(env, maxEvents, w, steps[0]), steps[1..])
  }

  predicate IsApproval(e: Event, planId: Str) { e.result == Approved && e.planId == Some(planId) }

  ghost predicate Recorded(log: Log, planId: Str) { exists e :: e in log && IsApproval(e, planId) }

  predicate HoldsGrant(m: Records, id: Str) { id in m && m[id].grant.Some? }

  /** A call that is applying its grant, before or after it asked the verifier. */
  predicate Commits(p: Phase) { p.Applying? || p.Verifying? }

  /** Every grant, and every call that applies one, has its approval in the log. */
  ghost predicate Audited(w: World) {
    && (forall id :: HoldsGrant(w.records, id) ==> Recorded(w.log, id))
    && (forall c :: c in w.calls && Commits(w.calls[c]) ==> Recorded(w.log, w.calls[c].planId))
    && (forall c :: c in w.calls && w.calls[c].Verifying? ==> PlanId(w.calls[c].read) == w.calls[c].planId)
  }

  lemma RecordedStays(log: Log, longer: Log, planId: Str)
    requires log <= longer && Recorded(log, planId)
    ensures Recorded(longer, planId)
  {
    var e :| e in log && IsApproval(e, planId);
    var i :| 0 <= i < |log| && log[i] == e;
    assert longer[i] == e;
  }

  /** No service operation but apply brings a grant. */
  lemma GrantsFromApply(env: Env, m: Records, s: Lifecycle.Step, id: Str)
    requires !s.ApplyApproval? && HoldsGrant(Lifecycle.After(env, m, s), id) && Keyed(m)
    ensures HoldsGrant(m, id)
  {
  }

  lemma StepKeepsKeyed(env: Env, m: Records, s: Lifecycle.Step)
    requires Keyed(m)
    ensures Keyed(Lifecycle.After(env, m, s))
  {
  }

  /** The log only grows, at its end and within its bound. */
  lemma StepGrowsLog(env: Env, maxEvents: nat, w: World, s: Step)
    requires |w.log| <= maxEvents
    ensures var n := After(env, maxEvents, w, s); w.log <= n.log && |n.log| <= maxEvents
  {
  }

  /** A continuation brings a grant only to the plan whose apply it commits. */
  lemma ContinueGrants(env: Env, maxEvents: nat, w: World, id: nat, a: Answer, x: Str)
    requires Keyed(w.records) && Audited(w) && id in w.calls
    ensures var n := After(env, maxEvents, w, Resume(id, a));
      Keyed(n.records) && w.log <= n.log && (HoldsGrant(n.records, x) ==> Recorded(n.log, x))
  {
    var n := After(env, maxEvents, w, Resume(id, a));
    var p := w.calls[id];
    if HoldsGrant(n.records, x) {
      assert HoldsGrant(w.records, x) || (p.Verifying? && p.planId == x);
      RecordedStays(w.log, n.log, x);
    }
  }

  lemma ContinueCalls(env: Env, maxEvents: nat, w: World, id: nat, a: Answer, c: nat)
    requires Keyed(w.records) && Audited(w) && id in w.calls
    requires c in After(env, maxEvents, w, Resume(id, a)).calls
    ensures var n := After(env, maxEvents, w, Resume(id, a));
      && (Commits(n.calls[c]) ==> Recorded(n.log, n.calls[c].planId))
      && (n.calls[c].Verifying? ==> PlanId(n.calls[c].read) == n.calls[c].planId)
  {
    var n := After(env, maxEvents, w, Resume(id, a));
    var p := w.calls[id];
    if Commits(n.calls[c]) {
      if c == id && p.Approving? {
        assert IsApproval(n.log[|w.log|], p.planId);
      } else {
        RecordedStays(w.log, n.log, n.calls[c].planId);
      }
    }
  }

  lemma ContinueAudits(env: Env, maxEvents: nat, w: World, id: nat, a: Answer)
    requires Keyed(w.records) && Audited(w) && id in w.calls
    ensures Keyed(After(env, maxEvents, w, Resume(id, a)).records) && Audited(After(env, maxEvents, w, Resume(id, a)))
  {
    var n := After(env, maxEvents, w, Resume(id, a));
    ContinueGrants(env, maxEvents, w, id, a, []);
    forall x | HoldsGrant(n.records, x) ensures Recorded(n.log, x) { ContinueGrants(env, maxEvents, w, id, a, x); }
    forall c | c in n.calls
      ensures Commits(n.calls[c]) ==> Recorded(n.log, n.calls[c].planId)
      ensures n.calls[c].Verifying? ==> PlanId(n.calls[c].read) == n.calls[c].planId
    {
      ContinueCalls(env, maxEvents, w, id, a, c);
    }
  }

  lemma StepAudits(env: Env, maxEvents: nat, w: World, s: Step)
    requires Keyed(w.records) && Audited(w)
    ensures Keyed(After(env, maxEvents, w, s).records) && Audited(After(env, maxEvents, w, s))
  {
    match s
    case Arrive(_, _, _) =>
    case Resume(id, a) => if id in w.calls { ContinueAudits(env, maxEvents, w, id, a); }
    case Other(step) =>
      if !step.ApplyApproval? {
        StepKeepsKeyed(env, w.records, step);
        var m := Lifecycle.After(env, w.records, step);
        forall x | HoldsGrant(m, x) ensures Recorded(w.log, x) { GrantsFromApply(env, w.records, step, x); }
      }
  }

  /** In every reachable world, whatever calls interleave and whichever audit writes fail, each granted plan has an
      approval in the log, which only grows at its end and never past its bound. */
  lemma {:induction false} AuditPrecedesAuthority(env: Env, maxEvents: nat, w: World, steps: seq<Step>)
    requires Keyed(w.records) && Audited(w) && |w.log| <= maxEvents
    ensures var n := Exec(env, maxEvents, w, steps);
            Audited(n) && Keyed(n.records) && w.log <= n.log && |n.log| <= maxEvents
    decreases |steps|
  {
    if steps != [] {
      var next := After(env, maxEvents, w, steps[0]);
      StepAudits(env, maxEvents, w, steps[0]);
      StepGrowsLog(env, maxEvents, w, steps[0]);
      AuditPrecedesAuthority(env, maxEvents, next, steps[1..]);
    }
  }

  /** The step that grants a plan finds its approval already in the log. */
  lemma ApprovedBefore(env: Env, maxEvents: nat, w: World, s: Step, id: Str)
    requires Keyed(w.records) && Audited(w)
    requires !HoldsGrant(w.records, id) && HoldsGrant(After(env, maxEvents, w, s).records, id)
    ensures Recorded(w.log, id)
  {
    match s
    case Arrive(_, _, _) =>
    case Resume(c, a) => assert w.calls[c].Verifying? && w.calls[c].planId == id;
    case Other(step) => if !step.ApplyApproval? { GrantsFromApply(env, w.records, step, id); }
  }

  /** An audit failure ends the call and leaves every plan as it was. */
  lemma AuditFailureChangesNothing(env: Env, maxEvents: nat, w: World, id: nat, a: Answer)
    requires id in w.calls && (w.calls[id].Approving? || w.calls[id].Probing?) && !Writable(w.log, maxEvents, a.sinkOk)
    ensures After(env, maxEvents, w, Resume(id, a)) == w.(calls := w.calls - {id})
  {
  }

  ghost predicate NobodyApplying(w: World) { forall c :: c in w.calls ==> !Commits(w.calls[c]) }

  /** Once the log is full and no recorded approval is left to apply, no plan is granted any more. */
  lemma {:induction false} FullLogGrantsNothing(env: Env, maxEvents: nat, w: World, steps: seq<Step>, id: Str)
    requires Keyed(w.records) && |w.log| == maxEvents && NobodyApplying(w) && !HoldsGrant(w.records, id)
    ensures !HoldsGrant(Exec(env, maxEvents, w, steps).records, id)
    decreases |steps|
  {
    if steps != [] {
      var s := steps[0];
      var next := After(env, maxEvents, w, s);
      if s.Other? && !s.step.ApplyApproval? {
        StepKeepsKeyed(env, w.records, s.step);
        if HoldsGrant(next.records, id) { GrantsFromApply(env, w.records, s.step, id); }
      }
      FullLogGrantsNothing(env, maxEvents, next, steps[1..], id);
    }
  }

  // ---- What is written down of a call ----

  /** Nothing is suspended past the native answer, and no approval written, for a plan that was not issued a grant. */
  ghost predicate OnlyIssued(w: World, before: Log, issued: set<Str>) {
    && before <= w.log
    && (forall i :: |before| <= i < |w.log| && w.log[i].result == Approved ==> w.log[i].planId.Some? && w.log[i].planId.value in issued)
    && (forall c :: c in w.calls && (w.calls[c].Approving? || w.calls[c].Applying? || w.calls[c].Verifying?) ==> w.calls[c].planId in issued)
    && (forall c :: c in w.calls && w.calls[c].Reporting? ==> w.calls[c].event.result in {Rejected, Failed})
  }

  /** The plans for which the native side has issued a grant to a call. */
  function IssuedBy(w: World, s: Step): set<Str> {
    if s.Resume? && s.id in w.calls && w.calls[s.id].Granting? && s.answer.native.Issued? then {w.calls[s.id].planId} else {}
  }

  function Issues(env: Env, maxEvents: nat, w: World, steps: seq<Step>): set<Str>
    decreases |steps|
  {
    if steps == [] then {} else IssuedBy(w, steps[0]) + Issues(env, maxEvents, After(env, maxEvents, w, steps[0]), steps[1..])
  }

  lemma StepOnlyIssued(env: Env, maxEvents: nat, w: World, s: Step, before: Log, issued: set<Str>)
    requires OnlyIssued(w, before, issued)
    ensures OnlyIssued(After(env, maxEvents, w, s), before, issued + IssuedBy(w, s))
  {
  }

  lemma {:induction false} RunOnlyIssued(env: Env, maxEvents: nat, w: World, steps: seq<Step>, before: Log, issued: set<Str>)
    requires OnlyIssued(w, before, issued)
    ensures OnlyIssued(Exec(env, maxEvents, w, steps), before, issued + Issues(env, maxEvents, w, steps))
    decreases |steps|
  {
    if steps == [] {
      assert issued + {} == issued;
    } else {
      var now := IssuedBy(w, steps[0]);
      StepOnlyIssued(env, maxEvents, w, steps[0], before, issued);
      RunOnlyIssued(env, maxEvents, After(env, maxEvents, w, steps[0]), steps[1..], before, issued + now);
      assert issued + now + Issues(env, maxEvents, After(env, maxEvents, w, steps[0]), steps[1..])
          == issued + Issues(env, maxEvents, w, steps);
    }
  }

  /** In every run, whatever calls interleave, an approval is written only for a plan whose grant the native side has
      issued in that run. */
  lemma ApprovedOnlyIssued(env: Env, maxEvents: nat, m: Records, log: Log, steps: seq<Step>, e: Event)
    requires var n := Exec(env, maxEvents, World(m, log, map[]), steps); |log| <= |n.log| && e in n.log[|log|..] && e.result == Approved
    ensures e.planId.Some? && e.planId.value in Issues(env, maxEvents, World(m, log, map[]), steps)
  {
    var w := World(m, log, map[]);
    RunOnlyIssued(env, maxEvents, w, steps, log, {});
    var n := Exec(env, maxEvents, w, steps);
    var i :| 0 <= i < |n.log[|log|..]| && n.log[|log|..][i] == e;
    assert n.log[|log| + i] == e;
  }

  /** The audit takes every write of the call. */
  predicate AuditWorks(maxEvents: nat, log: Log, a: Answers) {
    |log| + 2 <= maxEvents && a(0).sinkOk && a(3).sinkOk && a(5).sinkOk
  }

  lemma ReportFinishes(env: Env, maxEvents: nat, m: Records, log: Log, p: Phase, a: Answers)
    requires p.Reporting? && |log| < maxEvents && a(0).sinkOk
    ensures Finish(env, maxEvents, m, log, p, a) == Moved(m, log + [p.event], Fail(p.failure))
  {
  }

  lemma ProbeFinishes(env: Env, maxEvents: nat, m: Records, log: Log, p: Phase, a: Answers)
    requires p.Probing? && AuditWorks(maxEvents, log, a)
    ensures var end, native := Finish(env, maxEvents, m, log, p, a), a(4).native;
      if native.Issued? then end == Finish(env, maxEvents, m, log, Approving(p.session, p.planId, p.decisionId, native.reference), a)
      else
        var reason := if native.duplicate then AlreadyGranted else GrantRefused;
        end == Moved(
          m, log + [Event(p.session, Some(p.planId), Some(p.decisionId), if native.duplicate then Rejected else Failed, Some(reason))],
          Fail(Refused(reason)))
  {
    var granting := Granting(p.session, p.planId, p.decisionId);
    assert Finish(env, maxEvents, m, log, p, a) == Finish(env, maxEvents, m, log, granting, a);
    var next := Continue(env, maxEvents, m, log, granting, a(4)).next.phase;
    assert Finish(env, maxEvents, m, log, granting, a) == Finish(env, maxEvents, m, log, next, a);
    if next.Reporting? { ReportFinishes(env, maxEvents, m, log, next, a); }
  }

  lemma ApprovalFinishes(env: Env, maxEvents: nat, m: Records, log: Log, p: Phase, a: Answers)
    requires p.Approving? && AuditWorks(maxEvents, log, a) && Keyed(m)
    ensures var applied := Applied(env, m, p.planId, Some(p.reference), a(1).verdict, a(2).now, a(1).accepted);
      var approved := log + [Event(p.session, Some(p.planId), Some(p.decisionId), Approved, None)];
      Finish(env, maxEvents, m, log, p, a) ==
        if applied.Ok? then Moved(applied.value, approved, Succeed)
        else Moved(m, approved + [Event(p.session, Some(p.planId), Some(p.decisionId), Failed, Some(ApplyFailed))], Fail(NotApplied(applied.error)))
  {
    var approved := log + [Event(p.session, Some(p.planId), Some(p.decisionId), Approved, None)];
    var applying := Applying(p.session, p.planId, p.decisionId, p.reference);
    var applied := Applied(env, m, p.planId, Some(p.reference), a(1).verdict, a(2).now, a(1).accepted);
    assert Finish(env, maxEvents, m, log, p, a) == Finish(env, maxEvents, m, approved, applying, a);
    ApplyFinishes(env, maxEvents, m, approved, applying, a);
    if applied.Err? {
      ReportFinishes(env, maxEvents, m, approved,
        Report(p.session, Some(p.planId), Some(p.decisionId), Failed, ApplyFailed, NotApplied(applied.error)), a);
    }
  }

  /** A call that is refused before the native side is asked: what it is told, and what is written down. */
  lemma RefusedCalls(env: Env, maxEvents: nat, m: Records, log: Log, runtime: bool, c: Call, a: Answers)
    requires Lifecycle.RecordsOk(env, m) && AuditWorks(maxEvents, log, a)
    requires c.body.Some? && runtime && c.body.value in m && m[c.body.value].plan.state == Awaiting ==>
      m[c.body.value].plan.terms.expiresAt.value <= c.third || c.second + 300_000 <= c.third
    ensures var id := if c.body.Some? then c.body.value else [];
      var reason := if c.body.None? then BodyInvalid else if !runtime || id !in m then UnknownPlan
                    else if m[id].plan.state != Awaiting then NotPending else PlanHasExpired;
      Finish(env, maxEvents, m, log, Begin(runtime, m, c), a) ==
        Moved(m, log + [Event(c.session, c.body, if reason in {BodyInvalid, UnknownPlan} then None else Some(m[id].plan.terms.decisionId),
                              Rejected, Some(reason))], Fail(Refused(reason)))
  {
    if c.body.Some? && runtime && c.body.value in m { assert Lifecycle.RecordOk(env, c.body.value, m[c.body.value]); }
    ReportFinishes(env, maxEvents, m, log, Begin(runtime, m, c), a);
  }

  /** A call for a plan that awaits approval and is not late: a declined grant is written down as rejected or failed, and
      leaves the plan as it was; an issued one is written down as approved, then applied, and a failure to apply it is
      written down after that. */
  lemma AnsweredCalls(env: Env, maxEvents: nat, m: Records, log: Log, c: Call, a: Answers)
    requires Lifecycle.RecordsOk(env, m) && Keyed(m) && AuditWorks(maxEvents, log, a)
    requires c.body.Some? && c.body.value in m && m[c.body.value].plan.state == Awaiting
    requires c.third < m[c.body.value].plan.terms.expiresAt.value && c.third < c.second + 300_000
    ensures var id, decisionId := c.body.value, Some(m[c.body.value].plan.terms.decisionId);
      var end := Finish(env, maxEvents, m, log, Begin(true, m, c), a);
      var approved := log + [Event(c.session, Some(id), decisionId, Approved, None)];
      if a(4).native == Declined(true) then
        end == Moved(m, log + [Event(c.session, Some(id), decisionId, Rejected, Some(AlreadyGranted))], Fail(Refused(AlreadyGranted)))
      else if a(4).native == Declined(false) then
        end == Moved(m, log + [Event(c.session, Some(id), decisionId, Failed, Some(GrantRefused))], Fail(Refused(GrantRefused)))
      else
        var applied := Applied(env, m, id, Some(a(4).native.reference), a(1).verdict, a(2).now, a(1).accepted);
        if applied.Ok? then end == Moved(applied.value, approved, Succeed)
        else end == Moved(m, approved + [Event(c.session, Some(id), decisionId, Failed, Some(ApplyFailed))], Fail(NotApplied(applied.error)))
  {
    var id := c.body.value;
    assert Lifecycle.RecordOk(env, id, m[id]);
    var p := Begin(true, m, c);
    assert p == Probing(c.session, id, m[id].plan.terms.decisionId);
    ProbeFinishes(env, maxEvents, m, log, p, a);
    if a(4).native.Issued? {
      ApprovalFinishes(env, maxEvents, m, log, Approving(p.session, p.planId, p.decisionId, a(4).native.reference), a);
    }
  }
}
