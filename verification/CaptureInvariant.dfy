/** The invariant of the stores and the submissions of the capture protocol. */
module CaptureInvariant {
  import opened CaptureAudits
  import opened CaptureProtocol
  import opened Options
  import opened Sorting

  // ---- The audit list ----

  lemma {:induction false} FindId(audits: seq<Audit>, x: Id)
    ensures Find(audits, x).Some? ==> Find(audits, x).value.id == x
  {
    if audits != [] { FindId(audits[1..], x); }
  }

  lemma {:induction false} FindStore(audits: seq<Audit>, id: Id, a: Audit, x: Id)
    requires a.id == id
    ensures Find(Store(audits, id, a), x) == if x == id && Find(audits, id).Some? then Some(a) else Find(audits, x)
  {
    if audits != [] { FindStore(audits[1..], id, a, x); }
  }

  lemma {:induction false} FindPrefix(audits: seq<Audit>, k: nat, x: Id)
    requires k <= |audits|
    ensures Find(audits[..k], x).None? || Find(audits[..k], x) == Find(audits, x)
  {
    if k > 0 {
      assert audits[..k][1..] == audits[1..][..k-1];
      FindPrefix(audits[1..], k - 1, x);
    }
  }

  lemma FindPrepend(audits: seq<Audit>, a: Audit, x: Id)
    ensures var n := Find(Prepend(audits, a), x);
            if x == a.id then n == Some(a) else n.None? || n == Find(audits, x)
  {
    var all := [a] + audits;
    assert all[1..] == audits;
    FindPrefix(all, if |all| > MAX_AUDITS then MAX_AUDITS else |all|, x);
    assert all[..|all|] == all;
  }

  predicate UniqueIds(audits: seq<Audit>) {
    audits == [] || (Find(audits[1..], audits[0].id).None? && UniqueIds(audits[1..]))
  }

  lemma {:induction false} UniqueAt(audits: seq<Audit>, i: nat)
    requires UniqueIds(audits) && i < |audits|
    ensures Find(audits, audits[i].id) == Some(audits[i])
  {
    if i > 0 {
      UniqueAt(audits[1..], i - 1);
      assert audits[1..][i-1] == audits[i];
    }
  }

  lemma {:induction false} UniqueStore(audits: seq<Audit>, id: Id, a: Audit)
    requires UniqueIds(audits) && a.id == id
    ensures UniqueIds(Store(audits, id, a))
  {
    if audits != [] && audits[0].id != id {
      UniqueStore(audits[1..], id, a);
      FindStore(audits[1..], id, a, audits[0].id);
    }
  }

  lemma {:induction false} UniquePrefix(audits: seq<Audit>, k: nat)
    requires UniqueIds(audits) && k <= |audits|
    ensures UniqueIds(audits[..k])
  {
    if k > 0 {
      assert audits[..k][1..] == audits[1..][..k-1];
      UniquePrefix(audits[1..], k - 1);
      FindPrefix(audits[1..], k - 1, audits[0].id);
    }
  }

  lemma UniqueEdited(audits: seq<Audit>, e: Edit)
    requires UniqueIds(audits) && (e.Put? ==> e.a.id == e.id) && (e.Add? ==> Find(audits, e.added.id).None?)
    ensures UniqueIds(Edited(audits, e))
  {
    if e.Put? { UniqueStore(audits, e.id, e.a); }
    if e.Add? {
      var all := [e.added] + audits;
      assert all[1..] == audits;
      if |all| > MAX_AUDITS { UniquePrefix(all, MAX_AUDITS); }
    }
  }

  /** How one step leaves the audit stored under `x`. */
  ghost predicate Moves(s: State, step: Step, x: Id)
    requires Enabled(s, step)
  {
    var e, was, n := EditOf(s, step), Find(s.audits, x), Find(Taken(s, step).audits, x);
    match e
    case Keep => n == was
    case Add(a) => if a.id == x then n == Some(a) else n.None? || n == was
    case Put(id, a) => if id == x then Open(s.audits, x).Some? && n == Some(a) else n == was
  }

  lemma EditTarget(s: State, step: Step)
    requires Enabled(s, step)
    ensures var e := EditOf(s, step);
      && (e.Put? ==> e.a.id == e.id && Open(s.audits, e.id).Some?)
      && (e.Add? ==> (step.Capture? || step.Block?) && e.added.id == step.audit && e.added.id !in s.used)
  {
    match step
    case Settle(t, _) => if s.tasks[t].job in s.issued { FindId(s.audits, s.issued[s.tasks[t].job].auditId); }
    case Start(t) => FindId(s.audits, s.tasks[t].audit);
    case Register(t, _, _) => FindId(s.audits, s.tasks[t].audit);
    case Mark(t) => FindId(s.audits, s.tasks[t].audit);
    case Finish(t) => FindId(s.audits, s.tasks[t].audit);
    case Recover(_, _) => FindId(s.audits, s.recovery.left[0].id);
    case _ =>
  }

  lemma StepMoves(s: State, step: Step, x: Id)
    requires Enabled(s, step)
    ensures Moves(s, step, x)
  {
    EditTarget(s, step);
    var e := EditOf(s, step);
    if e.Add? { FindPrepend(s.audits, e.added, x); }
    if e.Put? { FindStore(s.audits, e.id, e.a, x); }
  }

  // ---- Which ids are known ----

  ghost predicate Known(s: State) {
    && (forall x :: Find(s.audits, x).Some? ==> x in s.used)
    && [] !in s.used
    && UniqueIds(s.audits)
  }

  lemma KnownKept(s: State, step: Step)
    requires Known(s) && Enabled(s, step)
    ensures Known(Taken(s, step)) && s.used <= Taken(s, step).used
  {
    var n := Taken(s, step);
    EditTarget(s, step);
    forall x | Find(n.audits, x).Some? ensures x in n.used { StepMoves(s, step, x); }
    UniqueEdited(s.audits, EditOf(s, step));
  }

  // ---- Terminal audits ----

  ghost predicate Ended(s: State, x: Id, a: Audit) { Find(s.audits, x) == Some(a) && IsTerminal(a.status) }

  /** Once terminal, an audit is never changed, by a poll, a submission or a recovery; it can only leave the list
      when two hundred newer ones have come. */
  lemma {:induction false} TerminalForever(s: State, steps: seq<Step>, x: Id, a: Audit)
    requires Known(s) && x in s.used && (Ended(s, x, a) || Find(s.audits, x).None?)
    ensures Find(Exec(s, steps).audits, x).None? || Find(Exec(s, steps).audits, x) == Some(a)
    decreases |steps|
  {
    if steps != [] {
      if Enabled(s, steps[0]) {
        KnownKept(s, steps[0]);
        StepMoves(s, steps[0], x);
        EditTarget(s, steps[0]);
      }
      TerminalForever(After(s, steps[0]), steps[1..], x, a);
    }
  }

  // ---- The books of one audit ----

  /** The settled jobs are the disjoint union of the completed, the partial and the failed ones, the counts are
      theirs, an uncertain submission has an unconfirmed chunk, and only a flawless, confirmed group succeeds. */
  ghost predicate Books(a: Audit) {
    && Distinct(a.settled)
    && multiset(a.settled) == multiset(a.completed) + multiset(a.partials) + multiset(a.failures)
    && a.completedChunks == |a.completed| && a.partialChunks == |a.partials| && a.failedChunks == |a.failures|
    && (a.submissionUncertain ==> a.uncertainChunks > 0)
    && (a.status == Success ==> Flawless(a))
  }

  predicate Flawless(a: Audit) {
    && a.partials == [] && a.failures == [] && a.uncertainChunks == 0
    && 0 < a.expected <= |a.settled|
  }

  lemma AppendMultiset(a: seq<Id>, x: Id)
    ensures multiset(a + [x]) == multiset(a) + multiset{x}
  {
  }

  /** The job goes to exactly one of the three lists. */
  lemma SettledPartition(a: Audit, job: Id, info: JobInfo, s: Settlement)
    requires multiset(a.settled) == multiset(a.completed) + multiset(a.partials) + multiset(a.failures)
    ensures var n := Settled(a, job, info, s);
      multiset(n.settled) == multiset(n.completed) + multiset(n.partials) + multiset(n.failures)
  {
    AppendMultiset(a.settled, job);
    AppendMultiset(a.completed, job);
    AppendMultiset(a.partials, job);
    AppendMultiset(a.failures, job);
  }

  lemma SettledBooks(a: Audit, job: Id, info: JobInfo, s: Settlement)
    requires Books(a) && !IsTerminal(a.status) && job !in a.settled && a.expected == info.totalChunks > 0
    ensures Books(Settled(a, job, info, s)) && Settled(a, job, info, s).settled == a.settled + [job]
  {
    SettledPartition(a, job, info, s);
  }

  /** What ties an audit to the jobs issued for its group. */
  ghost predicate Shape(issued: Pending, a: Audit) {
    forall j :: j in issued && issued[j].auditId == a.id ==> issued[j].totalChunks == a.expected && issued[j].signature == a.signature
  }

  ghost predicate Members(issued: Pending, a: Audit) {
    forall j :: j in a.settled ==> j in issued && issued[j].auditId == a.id
  }

  ghost predicate AuditOk(issued: Pending, a: Audit) { Books(a) && Shape(issued, a) && Members(issued, a) }

  ghost predicate AuditsOk(s: State) { forall x :: Find(s.audits, x).Some? ==> AuditOk(s.issued, Find(s.audits, x).value) }

  // ---- Jobs ----

  ghost predicate JobsOk(s: State) {
    && (forall j :: j in s.issued ==> s.issued[j].auditId in s.used && 1 <= s.issued[j].chunkIndex <= s.issued[j].totalChunks)
    && (forall j :: j in s.pending ==> j in s.issued && s.pending[j] == s.issued[j])
    && (forall j, k :: j in s.issued && k in s.issued && j != k && s.issued[j].auditId == s.issued[k].auditId ==>
          s.issued[j].chunkIndex != s.issued[k].chunkIndex)
  }

  // ---- Submissions ----

  predicate Submits(t: Task) { t.Opening? || t.Posting? || t.Tracking? || t.Registering? || t.Marking? || t.Finishing? }

  ghost predicate JobsUpTo(issued: Pending, audit: Id, k: nat, n: nat, signature: Option<Signature>) {
    forall j :: j in issued && issued[j].auditId == audit ==>
      issued[j].chunkIndex <= k && issued[j].totalChunks == n && issued[j].signature == signature
  }

  predicate Fits(s: State, audit: Id, n: nat, signature: Option<Signature>) {
    var found := Find(s.audits, audit);
    found.Some? ==> found.value.expected == n && found.value.signature == signature && !found.value.submissionUncertain
  }

  ghost predicate SubmitOk(s: State, t: Task)
    requires Submits(t)
  {
    && t.audit in s.used
    && match t
       case Opening(audit, n, signature) =>
         && (forall j :: j in s.issued ==> s.issued[j].auditId != audit)
         && (Find(s.audits, audit).None? || Find(s.audits, audit) == Some(NewAudit(audit, Submitting)))
       case Posting(audit, n, signature, jobs) =>
         |jobs| < n && JobsUpTo(s.issued, audit, |jobs|, n, signature) && Fits(s, audit, n, signature)
       case Tracking(audit, n, signature, jobs, job) =>
         && |jobs| < n && JobsUpTo(s.issued, audit, |jobs| + 1, n, signature) && Fits(s, audit, n, signature)
         && job in s.issued && s.issued[job].auditId == audit
       case Registering(audit, n, signature, jobs, job) =>
         && |jobs| < n && JobsUpTo(s.issued, audit, |jobs| + 1, n, signature) && Fits(s, audit, n, signature)
         && job in s.issued && s.issued[job].auditId == audit
       case Marking(audit, n, jobs) =>
         |jobs| < n &&
         (Find(s.audits, audit).Some? ==> Find(s.audits, audit).value.expected == n && !Find(s.audits, audit).value.submissionUncertain)
       case _ => Find(s.audits, t.audit).Some? ==> !Find(s.audits, t.audit).value.submissionUncertain
  }

  ghost predicate Submissions(s: State) {
    && (forall t :: t in s.tasks && Submits(s.tasks[t]) ==> SubmitOk(s, s.tasks[t]) && s.recovery.Recovered?)
    && (forall t, u :: t in s.tasks && u in s.tasks && t != u && Submits(s.tasks[t]) && Submits(s.tasks[u]) ==>
          s.tasks[t].audit != s.tasks[u].audit)
  }

  /** An audit that recovery has read and not treated yet: what it goes by is still so in the store. */
  ghost predicate StillCurrent(s: State, read: Audit) {
    var found := Find(s.audits, read.id);
    && Shape(s.issued, read)
    && (found.Some? ==> found.value.expected == read.expected && found.value.submissionUncertain == read.submissionUncertain)
  }

  ghost predicate Snapshots(s: State) {
    s.recovery.Working? ==>
      UniqueIds(s.recovery.left) && forall i :: 0 <= i < |s.recovery.left| ==> StillCurrent(s, s.recovery.left[i])
  }

  /** The part of the invariant that concerns the stores and the submissions. */
  ghost predicate Sound(s: State) { Known(s) && JobsOk(s) && AuditsOk(s) && Submissions(s) && Snapshots(s) }

  // ---- One step on the audits ----

  lemma StartOk(s: State, t: nat)
    requires Sound(s) && t in s.tasks && s.tasks[t].Opening? && Open(s.audits, s.tasks[t].audit).Some?
    ensures EditOf(s, Start(t)).Put? && AuditOk(s.issued, EditOf(s, Start(t)).a)
  {
  }

  lemma SettleOk(s: State, t: nat, result: Settlement)
    requires Sound(s) && t in s.tasks && s.tasks[t].Polled? && EditOf(s, Settle(t, result)).Put?
    ensures AuditOk(s.issued, EditOf(s, Settle(t, result)).a)
  {
    var job := s.tasks[t].job;
    var info := s.issued[job];
    FindId(s.audits, info.auditId);
    SettledBooks(Open(s.audits, info.auditId).value, job, info, result);
  }

  lemma MarkOk(s: State, t: nat)
    requires Sound(s) && t in s.tasks && s.tasks[t].Marking? && Open(s.audits, s.tasks[t].audit).Some?
    ensures EditOf(s, Mark(t)).Put? && AuditOk(s.issued, EditOf(s, Mark(t)).a)
  {
    FindId(s.audits, s.tasks[t].audit);
  }

  lemma RegisterOk(s: State, step: Step)
    requires Sound(s) && Enabled(s, step) && (step.Register? || step.Finish?) && EditOf(s, step).Put?
    ensures AuditOk(s.issued, EditOf(s, step).a)
  {
    FindId(s.audits, s.tasks[step.t].audit);
  }

  lemma EnqueuedOk(issued: Pending, a: Audit, jobs: seq<Id>, submitted: nat)
    requires AuditOk(issued, a) && !IsTerminal(a.status)
    ensures AuditOk(issued, Enqueued(a, jobs, submitted))
  {
  }

  lemma MarkedOk(issued: Pending, a: Audit, jobs: seq<Id>, expected: nat, unconfirmed: seq<nat>)
    requires AuditOk(issued, a) && !IsTerminal(a.status) && unconfirmed != []
    requires forall j :: j in issued && issued[j].auditId == a.id ==> issued[j].totalChunks == expected
    ensures AuditOk(issued, Marked(a, jobs, expected, unconfirmed))
  {
  }

  lemma TreatedOk(s: State, a: Audit, read: Audit, accepted: seq<Id>)
    requires JobsOk(s) && AuditOk(s.issued, a) && !IsTerminal(a.status) && read.id == a.id && Shape(s.issued, read)
    ensures var e := Treated(a, PlanFor(read, accepted), accepted); e.Put? ==> AuditOk(s.issued, e.a)
  {
    match PlanFor(read, accepted)
    case Leave =>
    case Requeue(jobs, submitted) => EnqueuedOk(s.issued, a, jobs, submitted);
    case Doubt(expected, unconfirmed) => MarkedOk(s.issued, a, accepted, expected, unconfirmed);
  }

  lemma RecoverOk(s: State, step: Step)
    requires Sound(s) && Enabled(s, step) && step.Recover? && EditOf(s, step).Put?
    ensures AuditOk(s.issued, EditOf(s, step).a)
  {
    var read := s.recovery.left[0];
    FindId(s.audits, read.id);
    TreatedOk(s, Open(s.audits, read.id).value, read, step.accepted);
  }

  lemma EditOk(s: State, step: Step)
    requires Sound(s) && Enabled(s, step) && EditOf(s, step).Put?
    ensures AuditOk(s.issued, EditOf(s, step).a)
  {
    match step
    case Settle(t, result) => SettleOk(s, t, result);
    case Start(t) => StartOk(s, t);
    case Register(_, _, _) => RegisterOk(s, step);
    case Finish(_) => RegisterOk(s, step);
    case Mark(t) => MarkOk(s, t);
    case Recover(_, _) => RecoverOk(s, step);
    case _ =>
  }

  lemma AuditsKept(s: State, step: Step)
    requires Sound(s) && Enabled(s, step)
    ensures AuditsOk(Taken(s, step))
  {
    var n := Taken(s, step);
    EditTarget(s, step);
    forall x | Find(n.audits, x).Some? ensures AuditOk(n.issued, Find(n.audits, x).value) {
      StepMoves(s, step, x);
      FindId(s.audits, x);
      if EditOf(s, step).Put? { EditOk(s, step); }
    }
  }

  lemma JobsKept(s: State, step: Step)
    requires Sound(s) && Enabled(s, step)
    ensures JobsOk(Taken(s, step))
  {
    var n := Taken(s, step);
    if step.Post? && step.reply.Some? {
      assert SubmitOk(s, s.tasks[step.t]);
    } else {
      assert n.issued == s.issued && s.used <= n.used;
    }
  }

  // ---- One step on the submissions ----

  /** Is it a submission of the group itself that takes the step? */
  predicate Own(s: State, step: Step, x: Id) {
    HasTask(step) && step.t in s.tasks && Submits(s.tasks[step.t]) && s.tasks[step.t].audit == x
  }

  /** While submissions run, only a settlement changes the audit of another group. */
  lemma AuditFrame(s: State, step: Step, x: Id)
    requires Sound(s) && Enabled(s, step) && s.recovery.Recovered? && x in s.used && !Own(s, step, x)
    ensures var was, n := Find(s.audits, x), Find(Taken(s, step).audits, x);
      || n.None? || n == was
      || (&& step.Settle? && s.tasks[step.t].job in s.issued && s.issued[s.tasks[step.t].job].auditId == x
          && was.Some? && n.Some? && n.value.expected == was.value.expected && n.value.signature == was.value.signature
          && n.value.submissionUncertain == was.value.submissionUncertain)
  {
    EditTarget(s, step);
    StepMoves(s, step, x);
  }

  lemma SubmitFrame(s: State, step: Step, task: Task)
    requires Sound(s) && Enabled(s, step) && s.recovery.Recovered?
    requires Submits(task) && SubmitOk(s, task) && !Own(s, step, task.audit)
    ensures SubmitOk(Taken(s, step), task)
  {
    KnownKept(s, step);
    AuditFrame(s, step, task.audit);
    IssuedFrame(s, step, task.audit);
  }

  /** Only its own submission issues jobs for a group. */
  lemma IssuedFrame(s: State, step: Step, x: Id)
    requires Enabled(s, step) && !Own(s, step, x)
    ensures var n := Taken(s, step).issued;
      && (forall j :: j in s.issued ==> j in n && n[j] == s.issued[j])
      && (forall j :: j in n && n[j].auditId == x ==> j in s.issued)
  {
  }

  ghost predicate NextOk(s: State, step: Step)
    requires Enabled(s, step)
  {
    var next := Goes(s, step);
    next.Some? && Submits(next.value) ==>
      HasTask(step) && step.t in s.tasks && Submits(s.tasks[step.t]) && next.value.audit == s.tasks[step.t].audit &&
      SubmitOk(Taken(s, step), next.value)
  }

  lemma StartNext(s: State, step: Step)
    requires Sound(s) && Enabled(s, step) && step.Start?
    ensures NextOk(s, step)
  {
    var x := s.tasks[step.t].audit;
    assert SubmitOk(s, s.tasks[step.t]);
    StepMoves(s, step, x);
  }

  lemma PostNext(s: State, step: Step)
    requires Sound(s) && Enabled(s, step) && step.Post?
    ensures NextOk(s, step)
  {
    assert SubmitOk(s, s.tasks[step.t]);
  }

  lemma TrackNext(s: State, step: Step)
    requires Sound(s) && Enabled(s, step) && step.Track?
    ensures NextOk(s, step)
  {
    assert SubmitOk(s, s.tasks[step.t]);
  }

  lemma RegisterNext(s: State, step: Step)
    requires Sound(s) && Enabled(s, step) && step.Register?
    ensures NextOk(s, step)
  {
    var x := s.tasks[step.t].audit;
    assert SubmitOk(s, s.tasks[step.t]);
    StepMoves(s, step, x);
    FindId(s.audits, x);
  }

  lemma OwnNext(s: State, step: Step)
    requires Sound(s) && Enabled(s, step) && !step.Capture?
    ensures NextOk(s, step)
  {
    if step.Start? { StartNext(s, step); }
    else if step.Post? { PostNext(s, step); }
    else if step.Track? { TrackNext(s, step); }
    else if step.Register? { RegisterNext(s, step); }
  }

  lemma CaptureNext(s: State, step: Step)
    requires Sound(s) && Enabled(s, step) && step.Capture?
    ensures SubmitOk(Taken(s, step), Goes(s, step).value)
  {
    StepMoves(s, step, step.audit);
    EditTarget(s, step);
  }

  /** The tasks after a step are those before it, but for the one that takes it. */
  lemma TaskFrame(s: State, step: Step, t: nat)
    requires Enabled(s, step) && t in Taken(s, step).tasks
    ensures var n := Taken(s, step).tasks;
      if HasTask(step) && t == step.t then Goes(s, step) == Some(n[t]) else t in s.tasks && n[t] == s.tasks[t] && !step.Crash?
  {
  }

  lemma OwnKept(s: State, step: Step)
    requires Sound(s) && Enabled(s, step) && HasTask(step) && Goes(s, step).Some? && Submits(Goes(s, step).value)
    ensures SubmitOk(Taken(s, step), Goes(s, step).value) && Taken(s, step).recovery.Recovered?
  {
    if step.Capture? { CaptureNext(s, step); } else { OwnNext(s, step); }
  }

  lemma OtherKept(s: State, step: Step, t: nat)
    requires Sound(s) && Enabled(s, step) && !step.Crash? && t in s.tasks && Submits(s.tasks[t]) && !(HasTask(step) && step.t == t)
    ensures SubmitOk(Taken(s, step), s.tasks[t]) && Taken(s, step).recovery.Recovered?
  {
    assert SubmitOk(s, s.tasks[t]);
    assert !Own(s, step, s.tasks[t].audit);
    SubmitFrame(s, step, s.tasks[t]);
  }

  lemma SubmitKept(s: State, step: Step, t: nat)
    requires Sound(s) && Enabled(s, step) && t in Taken(s, step).tasks && Submits(Taken(s, step).tasks[t])
    ensures SubmitOk(Taken(s, step), Taken(s, step).tasks[t]) && Taken(s, step).recovery.Recovered?
  {
    TaskFrame(s, step, t);
    if HasTask(step) && t == step.t { OwnKept(s, step); } else { OtherKept(s, step, t); }
  }

  /** A submission after the step is one from before it, of the same group, or that of a new capture. */
  lemma Origin(s: State, step: Step, t: nat)
    requires Sound(s) && Enabled(s, step) && t in Taken(s, step).tasks && Submits(Taken(s, step).tasks[t])
    ensures var task := Taken(s, step).tasks[t];
      if step.Capture? && t == step.t then task.audit == step.audit
      else t in s.tasks && Submits(s.tasks[t]) && s.tasks[t].audit == task.audit && task.audit in s.used
  {
    TaskFrame(s, step, t);
    if !step.Capture? { OwnNext(s, step); }
    if !(step.Capture? && t == step.t) { assert SubmitOk(s, s.tasks[t]); }
  }

  lemma SubmissionsApart(s: State, step: Step, t: nat, u: nat)
    requires Sound(s) && Enabled(s, step) && t != u
    requires t in Taken(s, step).tasks && u in Taken(s, step).tasks
    requires Submits(Taken(s, step).tasks[t]) && Submits(Taken(s, step).tasks[u])
    ensures Taken(s, step).tasks[t].audit != Taken(s, step).tasks[u].audit
  {
    Origin(s, step, t);
    Origin(s, step, u);
  }

  lemma SubmissionsKept(s: State, step: Step)
    requires Sound(s) && Enabled(s, step)
    ensures Submissions(Taken(s, step))
  {
    var n := Taken(s, step);
    forall t | t in n.tasks && Submits(n.tasks[t]) ensures SubmitOk(n, n.tasks[t]) && n.recovery.Recovered? {
      SubmitKept(s, step, t);
    }
    forall t, u | t in n.tasks && u in n.tasks && t != u && Submits(n.tasks[t]) && Submits(n.tasks[u])
      ensures n.tasks[t].audit != n.tasks[u].audit
    {
      SubmissionsApart(s, step, t, u);
    }
  }

  /** While recovery works, an audit it has yet to treat changes only by settlements. */
  lemma SnapshotFrame(s: State, step: Step, i: nat)
    requires Sound(s) && Enabled(s, step) && s.recovery.Working? && i < |s.recovery.left| && (step.Recover? ==> i > 0)
    ensures Taken(s, step).recovery.Working? ==> StillCurrent(Taken(s, step), s.recovery.left[i])
  {
    var x := s.recovery.left[i].id;
    EditTarget(s, step);
    StepMoves(s, step, x);
    if step.Recover? {
      UniqueAt(s.recovery.left[1..], i - 1);
      FindId(s.audits, s.recovery.left[0].id);
    }
    forall t | t in s.tasks ensures !Submits(s.tasks[t]) {}
  }

  lemma SnapshotsKept(s: State, step: Step)
    requires Sound(s) && Enabled(s, step)
    ensures Snapshots(Taken(s, step))
  {
    var n := Taken(s, step);
    if step.ReadAudits? {
      forall i | 0 <= i < |s.audits| ensures StillCurrent(n, s.audits[i]) { UniqueAt(s.audits, i); }
    } else if s.recovery.Working? && n.recovery.Working? {
      forall i | 0 <= i < |n.recovery.left| ensures StillCurrent(n, n.recovery.left[i]) {
        SnapshotFrame(s, step, if step.Recover? then i + 1 else i);
      }
    }
  }

  lemma SoundKept(s: State, step: Step)
    requires Sound(s) && Enabled(s, step)
    ensures Sound(Taken(s, step))
  {
    KnownKept(s, step);
    JobsKept(s, step);
    AuditsKept(s, step);
    SubmissionsKept(s, step);
    SnapshotsKept(s, step);
  }

  // ---- The steps are the calls ----

  /** A settlement step writes and reports what the recording operation does. */
  lemma SettleIsRecord(s: State, t: nat, result: Settlement)
    requires Sound(s) && Enabled(s, Settle(t, result)) && s.tasks[t].job in s.issued
    ensures var job := s.tasks[t].job;
      var (audits, reported) := RecordOutcome(s.audits, job, s.issued[job], result);
      && audits == Taken(s, Settle(t, result)).audits
      && FinalOf(s, Settle(t, result)) == (if reported.Final? then Some((s.issued[job].auditId, reported.status)) else None)
      && (Goes(s, Settle(t, result)) == Some(Committing(job, false)) <==> reported.Replayed?)
  {
    assert s.issued[s.tasks[t].job].auditId in s.used;
  }

  /** A mark step writes and reports what the marking operation does with the chunks that were not confirmed. */
  lemma MarkIsMark(s: State, t: nat)
    requires Sound(s) && Enabled(s, Mark(t))
    ensures var task := s.tasks[t];
      |task.jobs| < task.chunks &&
      (var unconfirmed := seq(task.chunks - |task.jobs|, i => |task.jobs| + i + 1);
       var (audits, reported) := MarkUncertain(s.audits, task.audit, task.jobs, task.chunks, unconfirmed);
       && audits == Taken(s, Mark(t)).audits
       && FinalOf(s, Mark(t)) == if reported.Final? then Some((task.audit, reported.status)) else None)
  {
    assert SubmitOk(s, s.tasks[t]);
  }

  /** The other steps of a submission are updates of an open audit. */
  lemma SubmissionIsUpdate(s: State, step: Step)
    requires Sound(s) && Enabled(s, step) && (step.Start? || (step.Register? && step.stored) || step.Finish?)
    ensures var task := s.tasks[step.t];
      Taken(s, step).audits ==
        if step.Register? then Update(s.audits, task.audit, a => Registered(a, task.job, task.chunks))
        else if step.Finish? then Update(s.audits, task.audit, a => Enqueued(a, task.jobs, |task.jobs|))
        else if task.chunks == 0 then Update(s.audits, task.audit, a => FailedGroup(a, [], 0))
        else Update(s.audits, task.audit, a => Started(a, task.signature, task.chunks))
  {
    assert SubmitOk(s, s.tasks[step.t]);
  }

  /** Recovery requeues or marks by the same two operations. */
  lemma RecoverIsCall(s: State, step: Step)
    requires Sound(s) && Enabled(s, step) && step.Recover? && s.recovery.left[0].id != []
    ensures var read := s.recovery.left[0];
      Taken(s, step).audits ==
        match PlanFor(read, step.accepted)
        case Leave => s.audits
        case Requeue(jobs, submitted) => Update(s.audits, read.id, a => Enqueued(a, jobs, submitted))
        case Doubt(expected, unconfirmed) => MarkUncertain(s.audits, read.id, step.accepted, expected, unconfirmed).0
  {
    FindId(s.audits, s.recovery.left[0].id);
  }
}
