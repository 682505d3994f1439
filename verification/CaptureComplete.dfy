/** A capture that nothing disturbs, from the text to the outcome shown, and a submission that breaks off. */
module CaptureComplete {
  import opened CaptureAudits
  import opened CaptureProtocol
  import opened CaptureRestart
  import opened CaptureSubmission
  import opened CaptureTheorems
  import opened CaptureUndisturbed
  import opened Options
  import opened Sorting
  import S = CaptureSettlement

  // ---- The submission ----

  /** One chunk accepted: the reply, its receipt and its registration. */
  function ChunkOf(job: Id): seq<Step> { [Post(0, Some(job))] + [Track(0, true)] + [Register(0, true, false)] }

  function ChunksOf(jobs: seq<Id>): seq<Step> {
    if jobs == [] then [] else ChunksOf(jobs[..|jobs|-1]) + ChunkOf(jobs[|jobs|-1])
  }

  function Submission(x: Id, signature: Option<Signature>, jobs: seq<Id>): seq<Step> {
    [Capture(0, x, |jobs|, signature)] + [Start(0)] + ChunksOf(jobs) + [Finish(0)]
  }

  /** The receipts of the first chunks, in order. */
  function ReceiptsOf(x: Id, signature: Option<Signature>, n: nat, jobs: seq<Id>): Pending {
    if jobs == [] then map[]
    else ReceiptsOf(x, signature, n, jobs[..|jobs|-1])[jobs[|jobs|-1] := JobInfo(x, |jobs|, n, signature)]
  }

  function GroupOf(x: Id, status: Status, signature: Option<Signature>, n: nat, jobs: seq<Id>): Audit {
    Audit(x, status, signature, n, |jobs|, jobs, [], [], [], [], 0, 0, 0, 0, false, [], false, 0, 0)
  }

  /** What the submission has come to after some chunks. */
  function Submitted(s: State, x: Id, signature: Option<Signature>, n: nat, jobs: seq<Id>, tasks: Tasks): State {
    var receipts := ReceiptsOf(x, signature, n, jobs);
    s.(audits := Prepend(s.audits, GroupOf(x, if jobs == [] then Submitting else Queued, signature, n, jobs)),
       pending := s.pending + receipts, issued := s.issued + receipts, polled := s.polled + Elements(jobs),
       used := s.used + {x}, tasks := tasks)
  }

  lemma StorePrepend(audits: seq<Audit>, a: Audit, b: Audit)
    requires a.id == b.id
    ensures Find(Prepend(audits, a), a.id) == Some(a) && Store(Prepend(audits, a), a.id, b) == Prepend(audits, b)
  {
  }

  /** The list holds two hundred audits: a new one puts out the oldest when it is full. */
  lemma PrependExactly(audits: seq<Audit>, a: Audit)
    ensures Prepend(audits, a) == [a] + if |audits| < 200 then audits else audits[..199]
  {
  }

  lemma PostTakes(s: State, x: Id, n: nat, signature: Option<Signature>, jobs: seq<Id>, job: Id)
    requires s.tasks == map[0 := Posting(x, n, signature, jobs)] && job !in s.issued
    ensures After(s, Post(0, Some(job))) == s.(issued := s.issued[job := JobInfo(x, |jobs| + 1, n, signature)],
      tasks := map[0 := Tracking(x, n, signature, jobs, job)])
  {
  }

  lemma TrackTakes(s: State, x: Id, n: nat, signature: Option<Signature>, jobs: seq<Id>, job: Id)
    requires s.tasks == map[0 := Tracking(x, n, signature, jobs, job)] && job in s.issued
    ensures After(s, Track(0, true)) == s.(pending := s.pending[job := s.issued[job]],
      tasks := map[0 := Registering(x, n, signature, jobs, job)])
  {
  }

  lemma RegisterTakes(s: State, x: Id, n: nat, signature: Option<Signature>, jobs: seq<Id>, job: Id, a: Audit)
    requires s.tasks == map[0 := Registering(x, n, signature, jobs, job)]
    requires Find(s.audits, x) == Some(a) && !IsTerminal(a.status) && a.jobIds == jobs && a.expected == n > 0 && job !in jobs
    ensures After(s, Register(0, true, false)) == s.(polled := s.polled + {job},
      audits := Store(s.audits, x, a.(status := Queued, submitted := |jobs| + 1, jobIds := jobs + [job])),
      tasks := map[0 := if |jobs| + 1 < n then Posting(x, n, signature, jobs + [job]) else Finishing(x, jobs + [job])])
  {
  }

  lemma ReceiptsMore(p: Pending, x: Id, signature: Option<Signature>, n: nat, jobs: seq<Id>, job: Id)
    ensures p + ReceiptsOf(x, signature, n, jobs + [job]) == (p + ReceiptsOf(x, signature, n, jobs))[job := JobInfo(x, |jobs| + 1, n, signature)]
  {
    assert (jobs + [job])[..|jobs|] == jobs;
  }

  lemma {:induction false} ReceiptsKeys(x: Id, signature: Option<Signature>, n: nat, jobs: seq<Id>)
    ensures ReceiptsOf(x, signature, n, jobs).Keys == Elements(jobs)
    ensures forall j :: j in ReceiptsOf(x, signature, n, jobs) ==>
      var info := ReceiptsOf(x, signature, n, jobs)[j]; info.auditId == x && info.signature == signature
  {
    if jobs != [] {
      ReceiptsKeys(x, signature, n, jobs[..|jobs|-1]);
      AppendElements(jobs[..|jobs|-1], jobs[|jobs|-1]);
      assert jobs == jobs[..|jobs|-1] + [jobs[|jobs|-1]];
    }
  }

  /** Where the submission stands after some chunks. */
  function TaskAfter(x: Id, n: nat, signature: Option<Signature>, jobs: seq<Id>): Task {
    if |jobs| < n then Posting(x, n, signature, jobs) else Finishing(x, jobs)
  }

  /** One more chunk, from any state in which the next one is to be posted. */
  lemma ChunkTakes(m: State, x: Id, n: nat, signature: Option<Signature>, jobs: seq<Id>, job: Id, a: Audit)
    requires m.tasks == map[0 := Posting(x, n, signature, jobs)] && job !in m.issued && job !in jobs
    requires Find(m.audits, x) == Some(a) && !IsTerminal(a.status) && a.jobIds == jobs && a.expected == n > 0
    ensures var info := JobInfo(x, |jobs| + 1, n, signature);
      Via(m, ChunkOf(job), m.(pending := m.pending[job := info], issued := m.issued[job := info], polled := m.polled + {job},
        audits := Store(m.audits, x, a.(status := Queued, submitted := |jobs| + 1, jobIds := jobs + [job])),
        tasks := map[0 := TaskAfter(x, n, signature, jobs + [job])]))
  {
    var p := After(m, Post(0, Some(job)));
    var q := After(p, Track(0, true));
    var end := After(q, Register(0, true, false));
    PostTakes(m, x, n, signature, jobs, job);
    TrackTakes(p, x, n, signature, jobs, job);
    RegisterTakes(q, x, n, signature, jobs, job, a);
    One(m, Post(0, Some(job)), p);
    One(p, Track(0, true), q);
    One(q, Register(0, true, false), end);
    Both(m, [Post(0, Some(job))], p, [Track(0, true)], q);
    Both(m, [Post(0, Some(job))] + [Track(0, true)], q, [Register(0, true, false)], end);
  }

  lemma SubmittedMore(s: State, x: Id, signature: Option<Signature>, n: nat, jobs: seq<Id>, job: Id, before: Tasks, tasks: Tasks)
    ensures var m, info := Submitted(s, x, signature, n, jobs, before), JobInfo(x, |jobs| + 1, n, signature);
      Submitted(s, x, signature, n, jobs + [job], tasks) ==
      m.(pending := m.pending[job := info], issued := m.issued[job := info], polled := m.polled + {job},
         audits := Store(m.audits, x, GroupOf(x, Queued, signature, n, jobs + [job])), tasks := tasks)
  {
    StorePrepend(s.audits, GroupOf(x, if jobs == [] then Submitting else Queued, signature, n, jobs),
                 GroupOf(x, Queued, signature, n, jobs + [job]));
    ReceiptsMore(s.pending, x, signature, n, jobs, job);
    ReceiptsMore(s.issued, x, signature, n, jobs, job);
    AppendElements(jobs, job);
    assert s.polled + Elements(jobs) + {job} == s.polled + Elements(jobs + [job]);
  }

  lemma SubmittedReady(s: State, x: Id, signature: Option<Signature>, n: nat, jobs: seq<Id>, job: Id, tasks: Tasks)
    requires job !in s.issued && job !in jobs
    ensures var m := Submitted(s, x, signature, n, jobs, tasks);
      job !in m.issued && Find(m.audits, x) == Some(GroupOf(x, if jobs == [] then Submitting else Queued, signature, n, jobs))
  {
    var group := GroupOf(x, if jobs == [] then Submitting else Queued, signature, n, jobs);
    ReceiptsKeys(x, signature, n, jobs);
    StorePrepend(s.audits, group, group);
  }

  lemma OneChunk(s: State, x: Id, signature: Option<Signature>, n: nat, jobs: seq<Id>, job: Id)
    requires |jobs| < n && job !in s.issued && job !in jobs
    ensures Via(Submitted(s, x, signature, n, jobs, map[0 := TaskAfter(x, n, signature, jobs)]), ChunkOf(job),
                Submitted(s, x, signature, n, jobs + [job], map[0 := TaskAfter(x, n, signature, jobs + [job])]))
  {
    var before, after := map[0 := TaskAfter(x, n, signature, jobs)], map[0 := TaskAfter(x, n, signature, jobs + [job])];
    SubmittedReady(s, x, signature, n, jobs, job, before);
    ChunkTakes(Submitted(s, x, signature, n, jobs, before), x, n, signature, jobs, job,
               GroupOf(x, if jobs == [] then Submitting else Queued, signature, n, jobs));
    SubmittedMore(s, x, signature, n, jobs, job, before, after);
  }

  lemma {:induction false} ChunksLead(s: State, x: Id, signature: Option<Signature>, n: nat, jobs: seq<Id>)
    requires |jobs| <= n && Distinct(jobs) && n > 0 && forall j :: j in jobs ==> j !in s.issued
    ensures Via(Submitted(s, x, signature, n, [], map[0 := Posting(x, n, signature, [])]), ChunksOf(jobs),
                Submitted(s, x, signature, n, jobs, map[0 := TaskAfter(x, n, signature, jobs)]))
    decreases |jobs|
  {
    var start := Submitted(s, x, signature, n, [], map[0 := Posting(x, n, signature, [])]);
    if jobs != [] {
      var init, last := jobs[..|jobs|-1], jobs[|jobs|-1];
      assert jobs == init + [last];
      ChunksLead(s, x, signature, n, init);
      OneChunk(s, x, signature, n, init, last);
      Both(start, ChunksOf(init), Submitted(s, x, signature, n, init, map[0 := TaskAfter(x, n, signature, init)]),
           ChunkOf(last), Submitted(s, x, signature, n, jobs, map[0 := TaskAfter(x, n, signature, jobs)]));
    }
  }

  /** A new capture, before its submission has started. */
  function Opened(s: State, x: Id, signature: Option<Signature>, n: nat): State {
    s.(audits := Prepend(s.audits, NewAudit(x, Submitting)), used := s.used + {x}, tasks := map[0 := Opening(x, n, signature)])
  }

  lemma CaptureTakes(s: State, x: Id, signature: Option<Signature>, n: nat)
    requires Idle(s) && x !in s.used && x != []
    ensures After(s, Capture(0, x, n, signature)) == Opened(s, x, signature, n)
  {
  }

  lemma NothingSubmitted(s: State, x: Id, signature: Option<Signature>, n: nat, tasks: Tasks)
    ensures Submitted(s, x, signature, n, [], tasks) ==
      s.(audits := Prepend(s.audits, NewAudit(x, Submitting).(signature := signature, expected := n)), used := s.used + {x}, tasks := tasks)
  {
    assert s.pending + map[] == s.pending && s.issued + map[] == s.issued && s.polled + Elements<Id>([]) == s.polled;
  }

  lemma StartTakes(s: State, x: Id, signature: Option<Signature>, n: nat)
    requires n > 0
    ensures After(Opened(s, x, signature, n), Start(0)) ==
      Submitted(s, x, signature, n, [], map[0 := Posting(x, n, signature, [])])
  {
    StorePrepend(s.audits, NewAudit(x, Submitting), GroupOf(x, Submitting, signature, n, []));
    NothingSubmitted(s, x, signature, n, map[0 := Posting(x, n, signature, [])]);
  }

  lemma SubmissionStarts(s: State, x: Id, signature: Option<Signature>, n: nat)
    requires Idle(s) && x !in s.used && x != [] && n > 0
    ensures Via(s, [Capture(0, x, n, signature)] + [Start(0)],
                Submitted(s, x, signature, n, [], map[0 := Posting(x, n, signature, [])]))
  {
    var m := Opened(s, x, signature, n);
    var end := Submitted(s, x, signature, n, [], map[0 := Posting(x, n, signature, [])]);
    CaptureTakes(s, x, signature, n);
    StartTakes(s, x, signature, n);
    One(s, Capture(0, x, n, signature), m);
    One(m, Start(0), end);
    Both(s, [Capture(0, x, n, signature)], m, [Start(0)], end);
  }

  lemma FinishTakes(s: State, x: Id, signature: Option<Signature>, jobs: seq<Id>)
    requires jobs != []
    ensures After(Submitted(s, x, signature, |jobs|, jobs, map[0 := Finishing(x, jobs)]), Finish(0)) ==
      Submitted(s, x, signature, |jobs|, jobs, map[])
  {
    var group := GroupOf(x, Queued, signature, |jobs|, jobs);
    StorePrepend(s.audits, group, group);
  }

  /** A capture whose chunks are all accepted leaves its audit queued with every job, and each job with its receipt
      and its poller. */
  lemma SubmissionComesTo(s: State, x: Id, signature: Option<Signature>, jobs: seq<Id>)
    requires Idle(s) && x !in s.used && x != [] && jobs != [] && Distinct(jobs) && forall j :: j in jobs ==> j !in s.issued
    ensures Exec(s, Submission(x, signature, jobs)) == Submitted(s, x, signature, |jobs|, jobs, map[])
  {
    var n := |jobs|;
    var start := Submitted(s, x, signature, n, [], map[0 := Posting(x, n, signature, [])]);
    var last := Submitted(s, x, signature, n, jobs, map[0 := Finishing(x, jobs)]);
    var end := Submitted(s, x, signature, n, jobs, map[]);
    SubmissionStarts(s, x, signature, n);
    ChunksLead(s, x, signature, n, jobs);
    FinishTakes(s, x, signature, jobs);
    One(last, Finish(0), end);
    Both(s, [Capture(0, x, n, signature)] + [Start(0)], start, ChunksOf(jobs), last);
    Both(s, [Capture(0, x, n, signature)] + [Start(0)] + ChunksOf(jobs), last, [Finish(0)], end);
  }

  /** A capture without text fails at once; nothing is reported or shown. */
  lemma EmptyCapture(s: State, x: Id, signature: Option<Signature>)
    requires Idle(s) && x !in s.used && x != []
    ensures Exec(s, [Capture(0, x, 0, signature)] + [Start(0)]) ==
      s.(audits := Prepend(s.audits, NewAudit(x, Failed)), used := s.used + {x})
  {
    var m := Opened(s, x, signature, 0);
    var end := s.(audits := Prepend(s.audits, NewAudit(x, Failed)), used := s.used + {x});
    CaptureTakes(s, x, signature, 0);
    StorePrepend(s.audits, NewAudit(x, Submitting), NewAudit(x, Failed));
    assert After(m, Start(0)) == end;
    One(s, Capture(0, x, 0, signature), m);
    One(m, Start(0), end);
    Both(s, [Capture(0, x, 0, signature)], m, [Start(0)], end);
  }

  /** A capture that is refused is only recorded; a task may be lost at any time, and all of them in a crash, which no store
      and no poller notices. */
  lemma RefusedOrLost(s: State, x: Id, t: nat)
    ensures s.recovery.Recovered? && x !in s.used && x != [] ==>
      After(s, Block(x)) == s.(audits := Prepend(s.audits, NewAudit(x, Blocked)), used := s.used + {x})
    ensures t in s.tasks ==> After(s, Drop(t)) == s.(tasks := s.tasks - {t})
    ensures After(s, Crash) == s.(tasks := map[], recovery := Waiting)
  {
  }

  // ---- A submission that breaks off ----

  /** The next chunk gets no reply, or its receipt is not stored, or its registration fails or throws. */
  predicate BreaksOff(step: Step, task: Task) {
    || (step == Post(0, None) && task.Posting?)
    || (step == Track(0, false) && task.Tracking?)
    || (step.Register? && step.t == 0 && !step.stored && task.Registering?)
    || (step == Register(0, true, true) && task.Registering?)
  }

  function TotalOf(task: Task): nat { if task.Posting? || task.Tracking? || task.Registering? then task.chunks else 0 }

  function JobsOf(task: Task): seq<Id> { if task.Posting? || task.Tracking? || task.Registering? then task.jobs else [] }

  function GroupId(task: Task): Id { if task.Posting? || task.Tracking? || task.Registering? then task.audit else [] }

  lemma BreakTakes(s: State, step: Step, task: Task)
    requires s.tasks == map[0 := task] && BreaksOff(step, task)
    ensures Enabled(s, step) && After(s, step).tasks == map[0 := Marking(GroupId(task), TotalOf(task), JobsOf(task))]
    ensures var n := After(s, step);
      && n.finals == s.finals && n.notes == s.notes && n.pending == s.pending && n.issued == s.issued && n.polled == s.polled
      && (!(step.Register? && step.stored) ==> n.audits == s.audits)
  {
  }

  lemma MarkTakes(s: State, x: Id, n: nat, jobs: seq<Id>, a: Audit)
    requires s.tasks == map[0 := Marking(x, n, jobs)] && Find(s.audits, x) == Some(a) && !IsTerminal(a.status) && |jobs| <= n
    ensures var accepted := Union(a.jobIds, jobs);
      var ends := |a.settled| >= |accepted|;
      After(s, Mark(0)) == s.(audits := Store(s.audits, x, a.(status := if ends then Uncertain else Queued,
          submissionUncertain := true, submitted := |accepted|, expected := n, jobIds := accepted,
          uncertainChunks := n - |jobs|, unconfirmed := seq(n - |jobs|, i => |jobs| + i + 1),
          partial := |a.completed| > 0 && |a.failures| > 0)),
        finals := if ends then s.finals + [(x, Uncertain)] else s.finals,
        tasks := if ends then map[0 := Notifying(x, None)] else map[])
  {
    assert |seq(n - |jobs|, i => |jobs| + i + 1)| == n - |jobs|;
  }

  lemma NotifyEnds(s: State, x: Id)
    requires s.tasks == map[0 := Notifying(x, None)]
    ensures After(s, Notify(0)) == s.(tasks := map[], notes := s.notes + [x])
  {
  }

  /** A submission that breaks off marks its group, with the chunks after those accepted unconfirmed. If every accepted
      job has settled, the group ends uncertain, which is reported and shown; otherwise it waits for the others. */
  lemma BrokenOff(s: State, step: Step, task: Task, a: Audit)
    requires s.tasks == map[0 := task] && BreaksOff(step, task) && |JobsOf(task)| <= TotalOf(task)
    requires Find(After(s, step).audits, GroupId(task)) == Some(a) && a.status in {Submitting, Queued}
    ensures var x, jobs, n := GroupId(task), JobsOf(task), TotalOf(task);
      var accepted := Union(a.jobIds, jobs);
      var ends := |a.settled| >= |accepted|;
      var end := Exec(s, [step] + [Mark(0)] + [Notify(0)]);
      && end.audits == Store(After(s, step).audits, x, a.(status := if ends then Uncertain else Queued,
           submissionUncertain := true, submitted := |accepted|, expected := n, jobIds := accepted,
           uncertainChunks := n - |jobs|, unconfirmed := seq(n - |jobs|, i => |jobs| + i + 1),
           partial := |a.completed| > 0 && |a.failures| > 0))
      && end.tasks == map[] && end.pending == s.pending
      && end.finals == s.finals + (if ends then [(x, Uncertain)] else [])
      && end.notes == s.notes + (if ends then [x] else [])
  {
    var x, jobs, n := GroupId(task), JobsOf(task), TotalOf(task);
    var p := After(s, step);
    var q := After(p, Mark(0));
    var end := After(q, Notify(0));
    BreakTakes(s, step, task);
    MarkTakes(p, x, n, jobs, a);
    if q.tasks == map[] { assert end == q; } else { NotifyEnds(q, x); }
    One(s, step, p);
    One(p, Mark(0), q);
    One(q, Notify(0), end);
    Both(s, [step], p, [Mark(0)], q);
    Both(s, [step] + [Mark(0)], q, [Notify(0)], end);
  }

  // ---- A recovery ----

  /** The jobs that recovery finds accepted are counted by the list and by the number stored, whichever is more. */
  function FoundAccepted(a: Audit, accepted: seq<Id>): nat {
    var jobs := |Union(a.jobIds, accepted)|;
    if jobs < a.submitted then a.submitted else jobs
  }

  lemma RecoverTakes(s: State, p: Pending, left: seq<Audit>, accepted: seq<Id>)
    requires s.tasks == map[] && s.recovery == Working(p, left) && left != [] && ListsJobs(p, left[0].id, accepted)
    requires Find(s.audits, left[0].id) == Some(left[0]) && left[0].status in {Submitting, Queued} && !left[0].submissionUncertain
    requires left[0].expected > FoundAccepted(left[0], accepted)
    ensures var x, a := left[0].id, left[0];
      var jobs, count := Union(a.jobIds, accepted), FoundAccepted(a, accepted);
      var ends := |a.settled| >= |jobs|;
      After(s, Recover(0, accepted)) == s.(recovery := Working(p, left[1..]),
        audits := Store(s.audits, x, a.(status := if ends then Uncertain else Queued,
          submissionUncertain := true, submitted := |jobs|, jobIds := jobs,
          uncertainChunks := a.expected - count, unconfirmed := seq(a.expected - count, i => count + i + 1),
          partial := |a.completed| > 0 && |a.failures| > 0)),
        finals := if ends then s.finals + [(x, Uncertain)] else s.finals,
        tasks := if ends then map[0 := Notifying(x, None)] else map[])
  {
    var a, count := left[0], FoundAccepted(left[0], accepted);
    assert Enabled(s, Recover(0, accepted));
    assert |seq(a.expected - count, i => count + i + 1)| == a.expected - count;
    assert PlanFor(a, accepted) == Doubt(a.expected, seq(a.expected - count, i => count + i + 1));
  }

  /** A recovery that does not find every chunk of an open group accepted marks it, with the numbers above those found
      unconfirmed; a group that this ends is reported and shown. */
  lemma RecoveryDoubts(s: State, p: Pending, left: seq<Audit>, accepted: seq<Id>)
    requires s.tasks == map[] && s.recovery == Working(p, left) && left != [] && ListsJobs(p, left[0].id, accepted)
    requires Find(s.audits, left[0].id) == Some(left[0]) && left[0].status in {Submitting, Queued} && !left[0].submissionUncertain
    requires left[0].expected > FoundAccepted(left[0], accepted)
    ensures var x, a, n := left[0].id, left[0], Exec(s, [Recover(0, accepted)] + [Notify(0)]);
      var jobs, count := Union(a.jobIds, accepted), FoundAccepted(a, accepted);
      var ends := |a.settled| >= |jobs|;
      && n.audits == Store(s.audits, x, a.(status := if ends then Uncertain else Queued,
           submissionUncertain := true, submitted := |jobs|, jobIds := jobs,
           uncertainChunks := a.expected - count, unconfirmed := seq(a.expected - count, i => count + i + 1),
           partial := |a.completed| > 0 && |a.failures| > 0))
      && n.tasks == map[] && n.pending == s.pending
      && n.finals == s.finals + (if ends then [(x, Uncertain)] else [])
      && n.notes == s.notes + (if ends then [x] else [])
  {
    var q := After(s, Recover(0, accepted));
    RecoverTakes(s, p, left, accepted);
    if q.tasks == map[] { assert After(q, Notify(0)) == q; } else { NotifyEnds(q, left[0].id); }
    One(s, Recover(0, accepted), q);
    One(q, Notify(0), After(q, Notify(0)));
    Both(s, [Recover(0, accepted)], q, [Notify(0)], After(q, Notify(0)));
  }

  /** A recovery that finds every chunk accepted queues a group whose submission had not been finished, and leaves any
      other audit alone. */
  lemma RecoveryTrusts(s: State, p: Pending, left: seq<Audit>, accepted: seq<Id>)
    requires s.tasks == map[] && s.recovery == Working(p, left) && left != [] && ListsJobs(p, left[0].id, accepted)
    requires Find(s.audits, left[0].id) == Some(left[0])
    requires left[0].status !in {Submitting, Queued} || left[0].submissionUncertain || left[0].expected <= FoundAccepted(left[0], accepted)
    ensures var x, a := left[0].id, left[0];
      var jobs, count := Union(a.jobIds, accepted), FoundAccepted(a, accepted);
      After(s, Recover(0, accepted)) == s.(recovery := Working(p, left[1..]),
        audits := if a.status == Submitting && !a.submissionUncertain then
                    Store(s.audits, x, a.(status := Queued, jobIds := jobs, submitted := count))
                  else s.audits)
  {
    assert Enabled(s, Recover(0, accepted));
    assert s.tasks - {0} == map[];
    var a := left[0];
    if a.status in {Submitting, Queued} && !a.submissionUncertain {
      assert PlanFor(a, accepted) == if a.status == Submitting then Requeue(Union(a.jobIds, accepted), FoundAccepted(a, accepted)) else Leave;
    }
  }

  // ---- The polls ----

  function AnswersTo(jobs: seq<Id>, reply: Id -> Settlement): seq<S.Outcome> {
    if jobs == [] then [] else AnswersTo(jobs[..|jobs|-1], reply) + [(jobs[|jobs|-1], reply(jobs[|jobs|-1]))]
  }

  lemma {:induction false} AnswersAll(jobs: seq<Id>, reply: Id -> Settlement, status: ChunkStatus)
    ensures |AnswersTo(jobs, reply)| == |jobs|
    ensures S.All(AnswersTo(jobs, reply), status) <==> forall j :: j in jobs ==> reply(j).status == status
  {
    if jobs != [] {
      var init, last := jobs[..|jobs|-1], jobs[|jobs|-1];
      AnswersAll(init, reply, status);
      var before, all := AnswersTo(init, reply), AnswersTo(jobs, reply);
      assert jobs == init + [last] && all == before + [(last, reply(last))];
      assert forall i :: 0 <= i < |before| ==> all[i] == before[i];
      assert all[|before|].1 == reply(last);
      assert S.All(all, status) <==> S.All(before, status) && reply(last).status == status;
    }
  }

  /** The group after the polls of some of its jobs. */
  ghost predicate PolledGroup(a: Audit, x: Id, signature: Option<Signature>, all: seq<Id>, jobs: seq<Id>, reply: Id -> Settlement) {
    && a.id == x && a.signature == signature && a.expected == |all| && a.jobIds == all && !a.submissionUncertain && a.uncertainChunks == 0
    && S.HoldsTallies(a, AnswersTo(jobs, reply)) && a.settled == jobs
    && a.status == if |jobs| < |all| then Queued else S.FinalOf(AnswersTo(jobs, reply), 0)
  }

  lemma PolledMore(a: Audit, x: Id, signature: Option<Signature>, all: seq<Id>, jobs: seq<Id>, job: Id, info: JobInfo, reply: Id -> Settlement)
    requires PolledGroup(a, x, signature, all, jobs, reply) && |jobs| < |all|
    ensures PolledGroup(Settled(a, job, info, reply(job)), x, signature, all, jobs + [job], reply)
  {
    var os := AnswersTo(jobs, reply);
    S.SettleTallies(a, os, job, info, reply(job));
    assert (jobs + [job])[..|jobs|] == jobs;
    assert AnswersTo(jobs + [job], reply) == os + [(job, reply(job))];
    S.TallyOne(os, (job, reply(job)), ChunkSuccess);
    AnswersAll(jobs, reply, ChunkSuccess);
  }

  /** The submitted capture after the polls of some of its jobs, none of which ended it. */
  function Midway(s: State, x: Id, signature: Option<Signature>, all: seq<Id>, jobs: seq<Id>, a: Audit): State {
    var m := Submitted(s, x, signature, |all|, all, map[]);
    m.(audits := Prepend(s.audits, a), pending := m.pending - Elements(jobs))
  }

  /** What the end of the group adds to its last poll. */
  ghost function Ended(s: State, x: Id, signature: Option<Signature>, jobs: seq<Id>, a: Audit): State {
    var m := Midway(s, x, signature, jobs, jobs, a);
    var signs := a.status == Success && signature.Some?;
    m.(finals := s.finals + [(x, a.status)], notes := s.notes + [x],
       written := s.written + (if signs then [(x, signature.value)] else []),
       signatures := if signs then Committed(s.signatures, signature.value) else s.signatures)
  }

  /** The state after one more poll, by the status it leaves. */
  ghost function PolledOn(s: State, x: Id, signature: Option<Signature>, all: seq<Id>, jobs: seq<Id>, a: Audit): State {
    if |jobs| < |all| then Midway(s, x, signature, all, jobs, a) else Ended(s, x, signature, all, a)
  }

  lemma PolledToNext(s: State, x: Id, signature: Option<Signature>, all: seq<Id>, jobs: seq<Id>, job: Id, a: Audit, b: Audit)
    requires a.id == b.id == x && jobs + [job] <= all
    requires if |jobs| + 1 < |all| then b.status == Queued else b.status in {Success, Failed, Partial}
    ensures PolledTo(Midway(s, x, signature, all, jobs, a), job, x, signature, Queued, b) ==
            PolledOn(s, x, signature, all, jobs + [job], b)
  {
    var m := Submitted(s, x, signature, |all|, all, map[]);
    StorePrepend(s.audits, a, b);
    AppendElements(jobs, job);
    assert m.pending - Elements(jobs) - {job} == m.pending - Elements(jobs + [job]);
    assert s.written + [] == s.written;
    if |jobs| + 1 == |all| { assert jobs + [job] == all; }
  }

  lemma MidwayJob(s: State, x: Id, signature: Option<Signature>, all: seq<Id>, jobs: seq<Id>, job: Id, a: Audit)
    requires jobs + [job] <= all && Distinct(all) && a.id == x
    ensures var m := Midway(s, x, signature, all, jobs, a);
      && job !in jobs && job in m.pending && job in m.polled
      && m.pending[job].auditId == x && m.pending[job].signature == signature && Find(m.audits, x) == Some(a)
  {
    ReceiptsKeys(x, signature, |all|, all);
    assert job == all[|jobs|];
    forall i | 0 <= i < |jobs| ensures jobs[i] != job { assert jobs[i] == all[i]; }
    StorePrepend(s.audits, a, a);
  }

  lemma NotUncertain(a: Audit, x: Id, signature: Option<Signature>, all: seq<Id>, jobs: seq<Id>, reply: Id -> Settlement)
    requires PolledGroup(a, x, signature, all, jobs, reply)
    ensures if |jobs| < |all| then a.status == Queued else a.status in {Success, Failed, Partial}
  {
  }

  lemma OnePoll(s: State, x: Id, signature: Option<Signature>, all: seq<Id>, jobs: seq<Id>, job: Id, reply: Id -> Settlement, a: Audit)
    returns (b: Audit)
    requires Idle(s) && x != [] && Safe(Midway(s, x, signature, all, jobs, a)) && jobs + [job] <= all && Distinct(all)
    requires PolledGroup(a, x, signature, all, jobs, reply)
    ensures PolledGroup(b, x, signature, all, jobs + [job], reply)
    ensures Via(Midway(s, x, signature, all, jobs, a), PollOf(job, reply(job)), PolledOn(s, x, signature, all, jobs + [job], b))
  {
    var m := Midway(s, x, signature, all, jobs, a);
    MidwayJob(s, x, signature, all, jobs, job, a);
    var info := m.pending[job];
    b := Settled(a, job, info, reply(job));
    PolledMore(a, x, signature, all, jobs, job, info, reply);
    NotUncertain(b, x, signature, all, jobs + [job], reply);
    UndisturbedPoll(m, job, reply(job), x, a);
    PolledToNext(s, x, signature, all, jobs, job, a, b);
  }

  lemma NothingPolled(s: State, x: Id, signature: Option<Signature>, all: seq<Id>, reply: Id -> Settlement)
    requires all != []
    ensures var a := GroupOf(x, Queued, signature, |all|, all);
      PolledGroup(a, x, signature, all, [], reply) && Midway(s, x, signature, all, [], a) == Submitted(s, x, signature, |all|, all, map[])
  {
    assert Submitted(s, x, signature, |all|, all, map[]).pending - Elements<Id>([]) == Submitted(s, x, signature, |all|, all, map[]).pending;
  }

  lemma {:induction false} PollsLead(s: State, x: Id, signature: Option<Signature>, all: seq<Id>, jobs: seq<Id>, reply: Id -> Settlement)
    returns (a: Audit)
    requires Idle(s) && x != [] && Safe(Submitted(s, x, signature, |all|, all, map[])) && jobs <= all && Distinct(all) && all != []
    ensures PolledGroup(a, x, signature, all, jobs, reply)
    ensures Via(Submitted(s, x, signature, |all|, all, map[]), PollAll(jobs, reply), PolledOn(s, x, signature, all, jobs, a))
    decreases |jobs|
  {
    var m := Submitted(s, x, signature, |all|, all, map[]);
    if jobs == [] {
      a := GroupOf(x, Queued, signature, |all|, all);
      NothingPolled(s, x, signature, all, reply);
    } else {
      var init, last := jobs[..|jobs|-1], jobs[|jobs|-1];
      assert jobs == init + [last];
      var before := PollsLead(s, x, signature, all, init, reply);
      SafeRun(m, PollAll(init, reply));
      a := OnePoll(s, x, signature, all, init, last, reply, before);
      Both(m, PollAll(init, reply), Midway(s, x, signature, all, init, before), PollOf(last, reply(last)),
           PolledOn(s, x, signature, all, jobs, a));
    }
  }

  lemma CaptureEnds(s: State, x: Id, signature: Option<Signature>, jobs: seq<Id>, reply: Id -> Settlement) returns (a: Audit)
    requires Safe(s) && Idle(s) && x !in s.used && x != [] && jobs != [] && Distinct(jobs) && forall j :: j in jobs ==> j !in s.issued
    ensures PolledGroup(a, x, signature, jobs, jobs, reply)
    ensures Exec(s, Submission(x, signature, jobs) + PollAll(jobs, reply)) == Ended(s, x, signature, jobs, a)
  {
    SubmissionComesTo(s, x, signature, jobs);
    SafeRun(s, Submission(x, signature, jobs));
    a := PollsLead(s, x, signature, jobs, jobs, reply);
    Both(s, Submission(x, signature, jobs), Submitted(s, x, signature, |jobs|, jobs, map[]), PollAll(jobs, reply), Ended(s, x, signature, jobs, a));
  }

  lemma EndedStores(s: State, x: Id, signature: Option<Signature>, jobs: seq<Id>, a: Audit)
    requires Safe(s) && a.id == x && forall j :: j in jobs ==> j !in s.issued
    ensures var n := Ended(s, x, signature, jobs, a);
      n.tasks == map[] && n.pending == s.pending && n.audits == Prepend(s.audits, a) && Find(n.audits, x) == Some(a)
  {
    StorePrepend(s.audits, a, a);
    ReceiptsGone(s, x, signature, jobs);
  }

  /** A capture that nothing disturbs. Its group succeeds exactly when every chunk does, fails exactly when every chunk
      does, and is partial otherwise; that outcome is reported once and shown once; the signature is written exactly
      on a success; and no receipt is left. */
  lemma CaptureComesTo(s: State, x: Id, signature: Option<Signature>, jobs: seq<Id>, reply: Id -> Settlement)
    requires Safe(s) && Idle(s) && x !in s.used && x != [] && jobs != [] && Distinct(jobs) && forall j :: j in jobs ==> j !in s.issued
    ensures var n := Exec(s, Submission(x, signature, jobs) + PollAll(jobs, reply));
      && n.tasks == map[] && n.pending == s.pending && Find(n.audits, x).Some?
      && var a := Find(n.audits, x).value;
         && n.audits == Prepend(s.audits, a) && a.settled == jobs && a.jobIds == jobs && a.expected == |jobs| && a.signature == signature
         && (a.status == Success <==> forall j :: j in jobs ==> reply(j).status == ChunkSuccess)
         && (a.status == Failed <==> forall j :: j in jobs ==> reply(j).status == ChunkFailed)
         && a.status in {Success, Failed, Partial}
         && n.finals == s.finals + [(x, a.status)] && n.notes == s.notes + [x]
         && n.written == s.written + (if a.status == Success && signature.Some? then [(x, signature.value)] else [])
         && n.signatures == if a.status == Success && signature.Some? then Committed(s.signatures, signature.value) else s.signatures
  {
    var a := CaptureEnds(s, x, signature, jobs, reply);
    EndedStores(s, x, signature, jobs, a);
    StatusOfAll(a, x, signature, jobs, reply);
  }

  lemma ReceiptsGone(s: State, x: Id, signature: Option<Signature>, jobs: seq<Id>)
    requires forall j :: j in jobs ==> j !in s.pending
    ensures s.pending + ReceiptsOf(x, signature, |jobs|, jobs) - Elements(jobs) == s.pending
  {
    ReceiptsKeys(x, signature, |jobs|, jobs);
  }

  lemma StatusOfAll(a: Audit, x: Id, signature: Option<Signature>, jobs: seq<Id>, reply: Id -> Settlement)
    requires PolledGroup(a, x, signature, jobs, jobs, reply) && jobs != []
    ensures a.status == Success <==> forall j :: j in jobs ==> reply(j).status == ChunkSuccess
    ensures a.status == Failed <==> forall j :: j in jobs ==> reply(j).status == ChunkFailed
    ensures a.status in {Success, Failed, Partial}
  {
    var os := AnswersTo(jobs, reply);
    AnswersAll(jobs, reply, ChunkSuccess);
    AnswersAll(jobs, reply, ChunkFailed);
    S.WithSizes(os, ChunkSuccess);
    S.WithSizes(os, ChunkFailed);
  }
}
