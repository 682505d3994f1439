/** What the submission of one capture group and its recoveries come to, whatever settles in between. */
module CaptureSubmission {
  import opened CaptureAudits
  import opened CaptureProtocol
  import opened Options
  import opened Sorting

  // ---- The submission by itself ----

  /** What the worker gets done for the submission of a group: its start, a receipt stored, a registration stored,
      the mark, the end, and recovery coming by. */
  datatype Milestone =
    | Began(chunks: nat, signature: Option<Signature>)
    | Receipt(job: Id)
    | Entry(job: Id)
    | GaveUp(jobs: seq<Id>)
    | Completed(jobs: seq<Id>)
    | Revisited

  /** The milestone of a step, if it is one for the group: no audit and no settlement is looked at. */
  function MilestoneOf(s: State, step: Step, x: Id): seq<Milestone>
    requires Enabled(s, step)
  {
    match step
    case Start(t) => if s.tasks[t].audit == x then [Began(s.tasks[t].chunks, s.tasks[t].signature)] else []
    case Track(t, stored) => if stored && s.tasks[t].audit == x then [Receipt(s.tasks[t].job)] else []
    case Register(t, stored, _) => if stored && s.tasks[t].audit == x then [Entry(s.tasks[t].job)] else []
    case Mark(t) => if s.tasks[t].audit == x then [GaveUp(s.tasks[t].jobs)] else []
    case Finish(t) => if s.tasks[t].audit == x then [Completed(s.tasks[t].jobs)] else []
    case Recover(_, _) => if s.recovery.left[0].id == x then [Revisited] else []
    case _ => []
  }

  /** The receipts stored, the jobs accepted, whether the group is queued, and how many chunks the mark leaves
      unconfirmed. */
  datatype Progress = Progress(
    chunks: nat, signature: Option<Signature>, receipts: set<Id>, accepted: set<Id>, queued: bool, mark: Option<nat>)

  function Advance(u: Progress, m: Milestone): Progress {
    match m
    case Began(chunks, signature) => Progress(chunks, signature, {}, {}, false, None)
    case Receipt(job) => u.(receipts := u.receipts + {job})
    case Entry(job) => u.(accepted := u.accepted + {job}, queued := true)
    case GaveUp(jobs) =>
      u.(accepted := u.accepted + Elements(jobs), mark := Some(if |jobs| < u.chunks then u.chunks - |jobs| else 0))
    case Completed(jobs) => u.(accepted := Elements(jobs), queued := true)
    case Revisited =>
      if u.mark.Some? then u
      else if |u.receipts| < u.chunks then u.(accepted := u.receipts, mark := Some(u.chunks - |u.receipts|))
      else if !u.queued then u.(accepted := u.receipts, queued := true)
      else u
  }

  function ProgressOf(log: seq<Milestone>): Progress {
    if log == [] then Progress(0, None, {}, {}, false, None) else Advance(ProgressOf(log[..|log|-1]), log[|log|-1])
  }

  lemma ProgressExtend(log: seq<Milestone>, m: Milestone)
    ensures ProgressOf(log + [m]) == Advance(ProgressOf(log), m)
  {
    assert (log + [m])[..|log|] == log;
  }

  // ---- What the stores hold of a group ----

  datatype View = View(audit: Option<Audit>, issued: set<Id>, pending: set<Id>, polled: set<Id>)

  function JobsIn(p: Pending, x: Id): set<Id> { set j | j in p && p[j].auditId == x }

  function ViewOf(s: State, x: Id): View {
    View(Find(s.audits, x), JobsIn(s.issued, x),
         set j | j in s.pending && j in s.issued && s.issued[j].auditId == x,
         set j | j in s.polled && j in s.issued && s.issued[j].auditId == x)
  }

  /** The group is stored and its submission has started. */
  predicate Live(v: View) { v.audit.Some? && v.audit.value.expected > 0 }

  predicate IsOpen(a: Audit) { !IsTerminal(a.status) }

  /** Nothing more is to come of the job's receipt. */
  predicate Free(a: Audit, job: Id) { IsTerminal(a.status) || job in a.settled }

  ghost predicate Receipts(v: View, u: Progress)
    requires v.audit.Some?
  {
    && v.polled <= u.receipts <= v.issued && v.pending <= u.receipts
    && Elements(v.audit.value.settled) <= v.polled
    && u.accepted <= u.receipts && |u.receipts| <= |u.accepted| + 1
    && forall j :: j in u.receipts ==> j in v.pending || Free(v.audit.value, j)
  }

  /** The stored audit is what the progress says, as far as settlements do not matter. */
  ghost predicate Agrees(a: Audit, u: Progress) {
    && a.expected == u.chunks && a.signature == u.signature
    && a.submissionUncertain == u.mark.Some? && a.uncertainChunks == (if u.mark.Some? then u.mark.value else 0)
    && (u.mark.Some? ==> u.mark.value > 0)
    && (u.mark.None? && u.accepted != {} ==> u.queued)
    && (IsOpen(a) || u.mark.Some? ==> Distinct(a.jobIds) && Elements(a.jobIds) == u.accepted)
    && (IsOpen(a) ==> a.submitted == |a.jobIds|)
    && (IsOpen(a) && u.mark.None? ==> a.status == if u.queued then Queued else Submitting)
  }

  /** When a group is open: unmarked, fewer jobs have settled than there are chunks; marked, fewer than are accepted. */
  ghost predicate EndsInTime(a: Audit) {
    IsOpen(a) <==> |a.settled| < if a.submissionUncertain then |a.jobIds| else a.expected
  }

  /** A job settles once it is accepted, unless it is the last of all chunks. */
  ghost predicate Prompt(a: Audit, u: Progress) {
    IsOpen(a) || u.mark.Some? ==> Elements(a.settled) <= u.accepted
  }

  /** A job that is not accepted has a poller only if recovery has nothing more to do for its group. */
  ghost predicate PollersInOrder(v: View, u: Progress) {
    u.mark.None? && |u.receipts| < u.chunks ==> v.polled <= u.accepted
  }

  ghost predicate Core(v: View, u: Progress)
    requires v.audit.Some?
  {
    && Receipts(v, u) && Agrees(v.audit.value, u) && EndsInTime(v.audit.value) && Prompt(v.audit.value, u)
    && PollersInOrder(v, u) && Distinct(v.audit.value.settled)
  }

  /** A submission under way. */
  ghost predicate TaskFits(task: Task, v: View, u: Progress) {
    match task
    case Posting(_, _, _, jobs) => Underway(jobs, v, u) && Elements(jobs) == u.accepted == u.receipts
    case Tracking(_, _, _, jobs, job) => Underway(jobs, v, u) && Elements(jobs) == u.accepted == u.receipts && job !in u.receipts
    case Registering(_, _, _, jobs, job) =>
      Underway(jobs, v, u) && Elements(jobs) == u.accepted && u.receipts == u.accepted + {job} && job !in u.accepted
    case Marking(_, _, jobs) => Underway(jobs, v, u) && Elements(jobs) <= u.accepted
    case Finishing(_, jobs) => Underway(jobs, v, u) && Elements(jobs) == u.accepted == u.receipts
    case _ => true
  }

  /** Only jobs whose registration has returned are polled while the submission goes on. */
  ghost predicate Underway(jobs: seq<Id>, v: View, u: Progress) {
    u.mark.None? && Distinct(jobs) && v.polled <= Elements(jobs)
  }

  /** The receipts that recovery has read. */
  ghost predicate Snapshot(p: Pending, x: Id, v: View, u: Progress)
    requires v.audit.Some?
  {
    && v.pending <= JobsIn(p, x) <= u.receipts
    && forall j :: j in u.receipts ==> j in JobsIn(p, x) || Free(v.audit.value, j)
  }

  predicate StillSo(read: Audit, a: Audit) {
    && read.expected == a.expected && read.submissionUncertain == a.submissionUncertain
    && (IsOpen(a) ==> read.status == a.status && read.jobIds == a.jobIds && read.submitted == a.submitted)
  }

  predicate Listed(left: seq<Audit>, x: Id) { exists i :: 0 <= i < |left| && left[i].id == x }

  ghost predicate RecoveryFits(r: Recovery, x: Id, v: View, u: Progress)
    requires v.audit.Some?
  {
    match r
    case HasJobs(p) => Snapshot(p, x, v, u)
    case Working(p, left) =>
      && Snapshot(p, x, v, u)
      && (forall i :: 0 <= i < |left| && left[i].id == x ==> StillSo(left[i], v.audit.value))
      && (!Listed(left, x) ==> u.mark.Some? || |u.receipts| >= u.chunks)
    case _ => true
  }

  // ---- Sets and lists ----

  lemma SizeOf(ids: seq<Id>, all: set<Id>)
    requires Distinct(ids) && Elements(ids) == all
    ensures |ids| == |all|
  {
    ElementsSize(ids);
  }

  lemma AppendElements(ids: seq<Id>, id: Id)
    ensures Elements(ids + [id]) == Elements(ids) + {id}
    ensures Distinct(ids) && id !in ids ==> Distinct(ids + [id])
  {
    assert forall x :: x in ids + [id] <==> x in ids || x == id;
  }

  lemma FewerSettled(ids: seq<Id>, all: set<Id>)
    requires Distinct(ids) && Elements(ids) <= all
    ensures |ids| <= |all|
  {
    ElementsSize(ids);
    SubsetSize(Elements(ids), all);
  }

  lemma {:induction false} DedupeIs(a: seq<Id>)
    ensures Distinct(Dedupe(a)) && Elements(Dedupe(a)) == Elements(a)
  {
    if a != [] {
      var init, last := a[..|a|-1], a[|a|-1];
      DedupeIs(init);
      assert a == init + [last];
      assert last in Dedupe(init) <==> last in Elements(Dedupe(init));
      AppendElements(init, last);
      AppendElements(Dedupe(init), last);
    }
  }

  lemma {:induction false} UnionIs(a: seq<Id>, b: seq<Id>)
    ensures Distinct(Union(a, b)) && Elements(Union(a, b)) == Elements(a) + Elements(b)
  {
    if b == [] {
      DedupeIs(a);
      assert Elements(b) == {};
    } else {
      var init, last := b[..|b|-1], b[|b|-1];
      UnionIs(a, init);
      assert b == init + [last];
      AppendElements(init, last);
      AppendElements(Union(a, init), last);
      assert last in Union(a, init) <==> last in Elements(Union(a, init));
    }
  }

  // ---- What each step does to a view ----

  lemma ViewSettles(v: View, u: Progress, job: Id, info: JobInfo, r: Settlement)
    requires Live(v) && Core(v, u) && IsOpen(v.audit.value) && job in v.polled && job !in v.audit.value.settled
    requires var a := v.audit.value; job in a.jobIds || (!a.submissionUncertain && |a.settled| + 1 >= a.expected)
    ensures Core(v.(audit := Some(Settled(v.audit.value, job, info, r))), u)
  {
    var a := v.audit.value;
    var n := Settled(a, job, info, r);
    AppendElements(a.settled, job);
    assert job in a.jobIds <==> job in Elements(a.jobIds);
    assert Receipts(v.(audit := Some(n)), u);
    assert Agrees(n, u);
    assert EndsInTime(n);
  }

  lemma ViewSettlesInRecovery(v: View, u: Progress, job: Id, info: JobInfo, s: Settlement, r: Recovery, x: Id)
    requires Live(v) && IsOpen(v.audit.value) && RecoveryFits(r, x, v, u)
    ensures RecoveryFits(r, x, v.(audit := Some(Settled(v.audit.value, job, info, s))), u)
  {
  }

  lemma ViewUntracks(v: View, u: Progress, job: Id, r: Recovery, x: Id)
    requires Live(v) && Core(v, u) && Free(v.audit.value, job) && RecoveryFits(r, x, v, u)
    ensures Core(v.(pending := v.pending - {job}), u) && RecoveryFits(r, x, v.(pending := v.pending - {job}), u)
  {
  }

  lemma ViewReceives(v: View, u: Progress, task: Task)
    requires Live(v) && Core(v, u) && task.Tracking? && TaskFits(task, v, u) && task.job in v.issued
    ensures var n, w := v.(pending := v.pending + {task.job}), Advance(u, Receipt(task.job));
      Core(n, w) && TaskFits(Registering(task.audit, task.chunks, task.signature, task.jobs, task.job), n, w)
      && TaskFits(Marking(task.audit, task.chunks, task.jobs), n, w)
  {
  }

  /** While a submission goes on its group is open: not all of its chunks have a poller. */
  lemma UnderwayIsOpen(v: View, u: Progress, jobs: seq<Id>)
    requires Live(v) && Core(v, u) && Underway(jobs, v, u) && |jobs| < u.chunks
    ensures IsOpen(v.audit.value) && |v.audit.value.settled| <= |jobs|
  {
    FewerSettled(v.audit.value.settled, Elements(jobs));
    ElementsSize(jobs);
  }

  /** The poller comes when the registration has returned undisturbed. */
  function PolledBy(v: View, job: Id, threw: bool): View { if threw then v else v.(polled := v.polled + {job}) }

  lemma ViewRegisters(v: View, u: Progress, task: Task, threw: bool)
    requires Live(v) && Core(v, u) && task.Registering? && TaskFits(task, v, u) && |task.jobs| < u.chunks
    ensures IsOpen(v.audit.value)
    ensures var n, w := PolledBy(v.(audit := Some(Registered(v.audit.value, task.job, task.chunks))), task.job, threw), Advance(u, Entry(task.job));
      Core(n, w)
      && (!threw ==> TaskFits(Posting(task.audit, task.chunks, task.signature, task.jobs + [task.job]), n, w))
      && (!threw ==> TaskFits(Finishing(task.audit, task.jobs + [task.job]), n, w))
      && (threw ==> TaskFits(Marking(task.audit, task.chunks, task.jobs), n, w))
  {
    UnderwayIsOpen(v, u, task.jobs);
    var a := v.audit.value;
    AppendElements(task.jobs, task.job);
    AppendElements(a.jobIds, task.job);
    assert task.job in a.jobIds <==> task.job in Elements(a.jobIds);
    assert task.job in task.jobs <==> task.job in Elements(task.jobs);
  }

  lemma ViewGivesUp(v: View, u: Progress, task: Task)
    requires Live(v) && Core(v, u) && task.Marking? && TaskFits(task, v, u) && |task.jobs| < u.chunks == task.chunks
    ensures IsOpen(v.audit.value)
    ensures var a := v.audit.value;
      var n := Marked(a, task.jobs, task.chunks, seq(task.chunks - |task.jobs|, i => |task.jobs| + i + 1));
      Core(v.(audit := Some(n)), Advance(u, GaveUp(task.jobs)))
  {
    UnderwayIsOpen(v, u, task.jobs);
    UnionIs(v.audit.value.jobIds, task.jobs);
  }

  lemma ViewCompletes(v: View, u: Progress, task: Task)
    requires Live(v) && Core(v, u) && task.Finishing? && TaskFits(task, v, u)
    ensures var a := v.audit.value;
      Core(v.(audit := Some(if IsOpen(a) then Enqueued(a, task.jobs, |task.jobs|) else a)), Advance(u, Completed(task.jobs)))
  {
  }

  /** The receipts that recovery read, with the accepted jobs, are all receipts of an open group. */
  lemma AllReceipts(v: View, u: Progress, p: Pending, x: Id, accepted: seq<Id>)
    requires Live(v) && Core(v, u) && IsOpen(v.audit.value) && Snapshot(p, x, v, u) && Elements(accepted) == JobsIn(p, x)
    ensures Elements(Union(v.audit.value.jobIds, accepted)) == u.receipts
    ensures Distinct(Union(v.audit.value.jobIds, accepted)) && |Union(v.audit.value.jobIds, accepted)| == |u.receipts|
    ensures |v.audit.value.jobIds| <= |u.receipts|
  {
    var a := v.audit.value;
    UnionIs(a.jobIds, accepted);
    forall j | j in u.receipts ensures j in Elements(a.jobIds) + Elements(accepted) {
      if j !in JobsIn(p, x) { assert j in Elements(a.settled); }
    }
    SizeOf(Union(a.jobIds, accepted), u.receipts);
    FewerSettled(a.jobIds, u.receipts);
  }

  /** What recovery makes of the audit. */
  function TreatedAudit(a: Audit, read: Audit, accepted: seq<Id>): Audit {
    var e := Treated(a, PlanFor(read, accepted), accepted);
    if IsOpen(a) && e.Put? then e.a else a
  }

  lemma PlanByReceipts(v: View, u: Progress, p: Pending, x: Id, read: Audit, accepted: seq<Id>)
    requires Live(v) && Core(v, u) && IsOpen(v.audit.value) && Snapshot(p, x, v, u) && Elements(accepted) == JobsIn(p, x)
    requires StillSo(read, v.audit.value) && u.mark.None?
    ensures var jobs, n := Union(v.audit.value.jobIds, accepted), |u.receipts|;
      PlanFor(read, accepted) ==
        if n < u.chunks then Doubt(u.chunks, seq(u.chunks - n, i => n + i + 1))
        else if u.queued then Leave else Requeue(jobs, n)
  {
    AllReceipts(v, u, p, x, accepted);
  }

  lemma RevisitsOpen(v: View, u: Progress, p: Pending, x: Id, read: Audit, accepted: seq<Id>)
    requires Live(v) && Core(v, u) && IsOpen(v.audit.value) && Snapshot(p, x, v, u) && Elements(accepted) == JobsIn(p, x)
    requires StillSo(read, v.audit.value) && u.mark.None?
    ensures Core(v.(audit := Some(TreatedAudit(v.audit.value, read, accepted))), Advance(u, Revisited))
  {
    PlanByReceipts(v, u, p, x, read, accepted);
    AllReceipts(v, u, p, x, accepted);
    FewerSettled(v.audit.value.settled, u.receipts);
  }

  lemma RevisitsEnded(v: View, u: Progress, read: Audit, accepted: seq<Id>)
    requires Live(v) && Core(v, u) && StillSo(read, v.audit.value) && (!IsOpen(v.audit.value) || u.mark.Some?)
    ensures TreatedAudit(v.audit.value, read, accepted) == v.audit.value
    ensures Core(v, Advance(u, Revisited)) && (u.mark.None? ==> |u.receipts| >= u.chunks)
  {
    FewerSettled(v.audit.value.settled, u.receipts);
  }

  /** Recovery marks a group that lacks a receipt, and registers the receipts of one that was not queued yet. */
  lemma ViewRevisits(v: View, u: Progress, p: Pending, x: Id, left: seq<Audit>, accepted: seq<Id>)
    requires Live(v) && Core(v, u) && left != [] && left[0].id == x && !Listed(left[1..], x)
    requires RecoveryFits(Working(p, left), x, v, u) && Elements(accepted) == JobsIn(p, x)
    ensures var n, w := v.(audit := Some(TreatedAudit(v.audit.value, left[0], accepted))), Advance(u, Revisited);
      Core(n, w) && RecoveryFits(Working(p, left[1..]), x, n, w)
  {
    var read := left[0];
    assert StillSo(read, v.audit.value);
    if IsOpen(v.audit.value) && u.mark.None? {
      RevisitsOpen(v, u, p, x, read, accepted);
    } else {
      RevisitsEnded(v, u, read, accepted);
    }
  }

  /** Once recovery has come by every group, each receipt that it read gets a poller. */
  lemma ViewPolls(v: View, u: Progress, p: Pending, x: Id)
    requires Live(v) && Core(v, u) && RecoveryFits(Working(p, []), x, v, u)
    ensures Core(v.(polled := v.polled + JobsIn(p, x)), u)
  {
    assert !Listed([], x);
  }

  lemma ViewStarts(a: Audit, chunks: nat, signature: Option<Signature>, x: Id)
    requires chunks > 0 && !a.submissionUncertain
    ensures var v, u := View(Some(Started(a, signature, chunks)), {}, {}, {}), Progress(chunks, signature, {}, {}, false, None);
      Core(v, u) && TaskFits(Posting(x, chunks, signature, []), v, u)
  {
    assert Elements<Id>([]) == {};
  }
}
