/** The stores seen by one group, along every run in which its jobs settle in time. */
module CaptureTracking {
  import opened CaptureAudits
  import opened CaptureInvariant
  import opened CaptureProtocol
  import opened CaptureSubmission
  import opened CaptureTheorems
  import opened Options
  import opened Sorting
  import G = CaptureSettlement
  import H = CaptureHistory

  // ---- What a run shows of one group ----

  /** The milestones of the submission, the first answer to every job that was polled, and whether every job settled
      in time. */
  datatype Seen = Seen(log: seq<Milestone>, answers: map<Id, Settlement>, prompt: bool)

  /** A job settles that is neither registered nor named by the mark, while other jobs of the group are still due. */
  predicate Early(s: State, step: Step, x: Id)
    requires Enabled(s, step)
  {
    step.Settle? &&
    var job, open := s.tasks[step.t].job, Open(s.audits, x);
    && job in JobsIn(s.issued, x) && open.Some? && job !in open.value.settled && job !in open.value.jobIds
    && (open.value.submissionUncertain || |open.value.settled| + 1 < open.value.expected)
  }

  function Answered(s: State, step: Step, x: Id, m: map<Id, Settlement>): map<Id, Settlement>
    requires Enabled(s, step)
  {
    if step.Settle? && s.tasks[step.t].job in JobsIn(s.issued, x) && s.tasks[step.t].job !in m then m[s.tasks[step.t].job := step.s]
    else m
  }

  ghost function See(s: State, step: Step, x: Id, o: Seen): Seen {
    if Enabled(s, step) then
      Seen(o.log + MilestoneOf(s, step, x), Answered(s, step, x, o.answers), o.prompt && !Early(s, step, x))
    else o
  }

  ghost function SeenOf(s: State, steps: seq<Step>, x: Id, o: Seen): Seen
    decreases |steps|
  {
    if steps == [] then o else SeenOf(After(s, steps[0]), steps[1..], x, See(s, steps[0], x, o))
  }

  const NOTHING := Seen([], map[], true)

  // ---- The invariant ----

  /** Pollers, and the receipts that recovery has read, are of issued jobs. */
  ghost predicate Orderly(s: State) {
    && s.polled <= s.issued.Keys
    && ((s.recovery.HasJobs? || s.recovery.Working?) ==>
          forall j :: j in s.recovery.pending ==> j in s.issued && s.recovery.pending[j] == s.issued[j])
  }

  lemma OrderlyKept(s: State, step: Step)
    requires Sound(s) && Orderly(s) && Enabled(s, step)
    ensures Orderly(Taken(s, step))
  {
    if step.Register? { assert SubmitOk(s, s.tasks[step.t]); }
  }

  ghost predicate InHand(s: State, x: Id, v: View, u: Progress) {
    forall t :: t in s.tasks && Submits(s.tasks[t]) && s.tasks[t].audit == x ==> TaskFits(s.tasks[t], v, u)
  }

  ghost predicate Fitting(s: State, x: Id, v: View, u: Progress) {
    Live(v) ==> Core(v, u) && InHand(s, x, v, u) && RecoveryFits(s.recovery, x, v, u)
  }

  ghost predicate Tracked(s: State, x: Id, u: Progress) { Fitting(s, x, ViewOf(s, x), u) }

  // ---- Frames ----

  lemma IssuedAfterStep(s: State, step: Step, x: Id)
    requires Sound(s) && Enabled(s, step)
    ensures ViewOf(Taken(s, step), x).issued
         == ViewOf(s, x).issued + if step.Post? && step.reply.Some? && s.tasks[step.t].audit == x then {step.reply.value} else {}
  {
  }

  lemma PendingAfterStep(s: State, step: Step, x: Id)
    requires Sound(s) && Enabled(s, step)
    ensures var v, n := ViewOf(s, x), ViewOf(Taken(s, step), x);
      n.pending == if step.Track? && step.stored && s.tasks[step.t].audit == x then v.pending + {s.tasks[step.t].job}
                   else if step.Untrack? then v.pending - {s.tasks[step.t].job} else v.pending
  {
    if step.Track? { assert SubmitOk(s, s.tasks[step.t]); }
  }

  lemma PolledAfterStep(s: State, step: Step, x: Id)
    requires Sound(s) && Orderly(s) && Enabled(s, step)
    ensures var v, n := ViewOf(s, x), ViewOf(Taken(s, step), x);
      n.polled == if step.Register? && step.stored && !step.threw && s.tasks[step.t].audit == x then v.polled + {s.tasks[step.t].job}
                  else if step.EndRecovery? && s.recovery.Working? && s.recovery.left == [] then v.polled + JobsIn(s.recovery.pending, x)
                  else v.polled
  {
    if step.Register? { assert SubmitOk(s, s.tasks[step.t]); }
  }

  /** The id sets of a view change with the own steps of the group only, with releases, and with the end of a
      recovery. */
  lemma SameSets(s: State, step: Step, x: Id)
    requires Sound(s) && Orderly(s) && Enabled(s, step)
    requires !Own(s, step, x) && !step.Untrack? && !step.EndRecovery?
    ensures ViewOf(Taken(s, step), x) == ViewOf(s, x).(audit := Find(Taken(s, step).audits, x))
  {
    IssuedAfterStep(s, step, x);
    PendingAfterStep(s, step, x);
    PolledAfterStep(s, step, x);
  }

  /** A submission of the group after a step: one from before, or the next part of the one that took the step. */
  lemma TasksAfterStep(s: State, step: Step, x: Id, t: nat)
    requires Sound(s) && Enabled(s, step) && t in Taken(s, step).tasks
    requires Submits(Taken(s, step).tasks[t]) && Taken(s, step).tasks[t].audit == x
    ensures var task := Taken(s, step).tasks[t];
      if HasTask(step) && t == step.t then Goes(s, step) == Some(task) && (step.Capture? || Own(s, step, x))
      else t in s.tasks && s.tasks[t] == task && !Own(s, step, x)
  {
    TaskFrame(s, step, t);
    if HasTask(step) && t == step.t {
      if !step.Capture? { OwnNext(s, step); }
    }
  }

  /** A step that is none of the group's submission leaves its submissions as they were. */
  lemma SubmittingKept(s: State, step: Step, x: Id, v: View, n: View, u: Progress)
    requires Sound(s) && Enabled(s, step) && !Own(s, step, x) && InHand(s, x, v, u)
    requires n.polled == v.polled
    ensures InHand(Taken(s, step), x, n, u)
  {
    var m := Taken(s, step);
    forall t | t in m.tasks && Submits(m.tasks[t]) && m.tasks[t].audit == x ensures TaskFits(m.tasks[t], n, u) {
      TasksAfterStep(s, step, x, t);
      if t in s.tasks && s.tasks[t] == m.tasks[t] { assert TaskFits(s.tasks[t], v, u); }
    }
  }

  /** After a step of the group's submission, only the next part of it is left. */
  lemma SubmittingNext(s: State, step: Step, x: Id, n: View, u: Progress)
    requires Sound(s) && Enabled(s, step) && Own(s, step, x)
    requires Goes(s, step).Some? && Submits(Goes(s, step).value) ==> TaskFits(Goes(s, step).value, n, u)
    ensures InHand(Taken(s, step), x, n, u)
  {
    var m := Taken(s, step);
    forall t | t in m.tasks && Submits(m.tasks[t]) && m.tasks[t].audit == x ensures TaskFits(m.tasks[t], n, u) {
      TasksAfterStep(s, step, x, t);
    }
  }

  // ---- One step ----

  function ProgressAfter(s: State, step: Step, x: Id, u: Progress): Progress
    requires Enabled(s, step)
  {
    var ms := MilestoneOf(s, step, x);
    if ms == [] then u else Advance(u, ms[0])
  }

  /** The group is stored and started before and after the step, and everything fits before it. */
  ghost predicate Ready(s: State, step: Step, x: Id, u: Progress) {
    && Safe(s) && Orderly(s) && Enabled(s, step) && Tracked(s, x, u)
    && Live(ViewOf(s, x)) && Live(ViewOf(Taken(s, step), x)) && x in s.used
  }

  ghost predicate StaysFit(s: State, step: Step, x: Id, u: Progress)
    requires Enabled(s, step)
  {
    Tracked(Taken(s, step), x, ProgressAfter(s, step, x, u))
  }

  lemma SettleFits(s: State, step: Step, x: Id, u: Progress)
    requires Ready(s, step, x, u) && step.Settle? && !Early(s, step, x)
    ensures StaysFit(s, step, x, u)
  {
    var v, n, job := ViewOf(s, x), ViewOf(Taken(s, step), x), s.tasks[step.t].job;
    SameSets(s, step, x);
    EditTarget(s, step);
    StepMoves(s, step, x);
    assert PollOk(s, s.tasks[step.t]);
    SubmittingKept(s, step, x, v, n, u);
    if n != v {
      var a, info := v.audit.value, s.issued[job];
      ViewSettles(v, u, job, info, step.s);
      ViewSettlesInRecovery(v, u, job, info, step.s, s.recovery, x);
    }
  }

  lemma UntrackView(s: State, step: Step, x: Id)
    requires Sound(s) && Orderly(s) && Enabled(s, step) && step.Untrack?
    ensures ViewOf(Taken(s, step), x) == ViewOf(s, x).(pending := ViewOf(s, x).pending - {s.tasks[step.t].job})
  {
    IssuedAfterStep(s, step, x);
    PendingAfterStep(s, step, x);
    PolledAfterStep(s, step, x);
  }

  lemma UntrackFits(s: State, step: Step, x: Id, u: Progress)
    requires Ready(s, step, x, u) && step.Untrack?
    ensures StaysFit(s, step, x, u)
  {
    var v, n, job := ViewOf(s, x), ViewOf(Taken(s, step), x), s.tasks[step.t].job;
    UntrackView(s, step, x);
    assert PollOk(s, s.tasks[step.t]);
    SubmittingKept(s, step, x, v, n, u);
    if s.issued[job].auditId == x { ViewUntracks(v, u, job, s.recovery, x); } else { assert n == v; }
  }

  /** Nothing of the view changes but the audit, and the id sets where the step says so. */
  lemma OwnView(s: State, step: Step, x: Id)
    requires Sound(s) && Orderly(s) && Enabled(s, step) && SubmissionStep(step) && Own(s, step, x)
    ensures var v, n, task := ViewOf(s, x), ViewOf(Taken(s, step), x), s.tasks[step.t];
      && n.issued == (if step.Post? && step.reply.Some? then v.issued + {step.reply.value} else v.issued)
      && n.pending == (if step.Track? && step.stored then v.pending + {task.job} else v.pending)
      && n.polled == if step.Register? && step.stored && !step.threw then v.polled + {task.job} else v.polled
  {
    IssuedAfterStep(s, step, x);
    PendingAfterStep(s, step, x);
    PolledAfterStep(s, step, x);
  }

  /** These steps of a submission write no audit. */
  lemma SameAudit(s: State, step: Step, x: Id)
    requires Enabled(s, step) && (step.Post? || step.Track? || step.Drop? || (step.Register? && !step.stored))
    ensures Taken(s, step).audits == s.audits
  {
  }

  lemma PostView(s: State, step: Step, x: Id)
    requires Sound(s) && Orderly(s) && Enabled(s, step) && step.Post? && Own(s, step, x)
    ensures var v, n := ViewOf(s, x), ViewOf(Taken(s, step), x);
      n == if step.reply.Some? then v.(issued := v.issued + {step.reply.value}) else v
    ensures step.reply.Some? ==> step.reply.value !in ViewOf(s, x).issued
  {
    OwnView(s, step, x);
    SameAudit(s, step, x);
  }

  /** More issued jobs change nothing. */
  lemma ViewIssues(v: View, u: Progress, issued: set<Id>)
    requires Live(v) && Core(v, u) && v.issued <= issued
    ensures Core(v.(issued := issued), u)
  {
  }

  lemma PostGoes(s: State, step: Step, x: Id, v: View, n: View, u: Progress)
    requires Enabled(s, step) && step.Post? && s.tasks[step.t].audit == x && TaskFits(s.tasks[step.t], v, u)
    requires n.polled == v.polled && (step.reply.Some? ==> step.reply.value !in u.receipts)
    ensures Goes(s, step).Some? && TaskFits(Goes(s, step).value, n, u)
  {
  }

  lemma PostFits(s: State, step: Step, x: Id, u: Progress)
    requires Ready(s, step, x, u) && step.Post? && Own(s, step, x)
    ensures StaysFit(s, step, x, u)
  {
    var v, n := ViewOf(s, x), ViewOf(Taken(s, step), x);
    PostView(s, step, x);
    ViewIssues(v, u, n.issued);
    PostGoes(s, step, x, v, n, u);
    SubmittingNext(s, step, x, n, u);
    OwnRecovered(s, step, x);
  }

  lemma OwnRecovered(s: State, step: Step, x: Id)
    requires Sound(s) && Enabled(s, step) && SubmissionStep(step) && Own(s, step, x)
    ensures Taken(s, step).recovery.Recovered? && SubmitOk(s, s.tasks[step.t])
  {
  }

  lemma TrackFits(s: State, step: Step, x: Id, u: Progress)
    requires Ready(s, step, x, u) && step.Track? && Own(s, step, x)
    ensures StaysFit(s, step, x, u)
  {
    var v, n := ViewOf(s, x), ViewOf(Taken(s, step), x);
    OwnView(s, step, x);
    OwnRecovered(s, step, x);
    SameAudit(s, step, x);
    assert TaskFits(s.tasks[step.t], v, u);
    if step.stored { ViewReceives(v, u, s.tasks[step.t]); }
    SubmittingNext(s, step, x, n, ProgressAfter(s, step, x, u));
  }

  lemma RegisterView(s: State, step: Step, x: Id)
    requires Sound(s) && Orderly(s) && Enabled(s, step) && step.Register? && step.stored && Own(s, step, x)
    requires Open(s.audits, x).Some? && Find(Taken(s, step).audits, x).Some?
    ensures var v, n, task := ViewOf(s, x), ViewOf(Taken(s, step), x), s.tasks[step.t];
      n == PolledBy(v.(audit := Some(Registered(v.audit.value, task.job, task.chunks))), task.job, step.threw)
  {
    OwnView(s, step, x);
    StepMoves(s, step, x);
  }

  lemma RegisterGoes(s: State, step: Step)
    requires Enabled(s, step) && step.Register? && step.stored
    ensures var task := s.tasks[step.t];
      Goes(s, step) == Some(
        if step.threw then Marking(task.audit, task.chunks, task.jobs)
        else if |task.jobs| + 1 < task.chunks then Posting(task.audit, task.chunks, task.signature, task.jobs + [task.job])
        else Finishing(task.audit, task.jobs + [task.job]))
  {
  }

  lemma RegisterStored(s: State, step: Step, x: Id, u: Progress)
    requires Ready(s, step, x, u) && step.Register? && step.stored && Own(s, step, x)
    ensures StaysFit(s, step, x, u)
  {
    var task := s.tasks[step.t];
    OwnRecovered(s, step, x);
    assert TaskFits(task, ViewOf(s, x), u);
    ViewRegisters(ViewOf(s, x), u, task, step.threw);
    RegisterView(s, step, x);
    RegisterGoes(s, step);
    SubmittingNext(s, step, x, ViewOf(Taken(s, step), x), Advance(u, Entry(task.job)));
  }

  lemma RegisterRejected(s: State, step: Step, x: Id, u: Progress)
    requires Ready(s, step, x, u) && step.Register? && !step.stored && Own(s, step, x)
    ensures StaysFit(s, step, x, u)
  {
    OwnRecovered(s, step, x);
    OwnView(s, step, x);
    SameAudit(s, step, x);
    assert TaskFits(s.tasks[step.t], ViewOf(s, x), u);
    SubmittingNext(s, step, x, ViewOf(s, x), u);
  }

  lemma MarkFits(s: State, step: Step, x: Id, u: Progress)
    requires Ready(s, step, x, u) && step.Mark? && Own(s, step, x)
    ensures StaysFit(s, step, x, u)
  {
    var v, n, task := ViewOf(s, x), ViewOf(Taken(s, step), x), s.tasks[step.t];
    OwnView(s, step, x);
    OwnRecovered(s, step, x);
    StepMoves(s, step, x);
    assert TaskFits(task, v, u);
    ViewGivesUp(v, u, task);
    SubmittingNext(s, step, x, n, ProgressAfter(s, step, x, u));
  }

  lemma FinishFits(s: State, step: Step, x: Id, u: Progress)
    requires Ready(s, step, x, u) && step.Finish? && Own(s, step, x)
    ensures StaysFit(s, step, x, u)
  {
    var v, n, task := ViewOf(s, x), ViewOf(Taken(s, step), x), s.tasks[step.t];
    OwnView(s, step, x);
    OwnRecovered(s, step, x);
    StepMoves(s, step, x);
    assert TaskFits(task, v, u);
    ViewCompletes(v, u, task);
    SubmittingNext(s, step, x, n, ProgressAfter(s, step, x, u));
  }

  lemma StartView(s: State, step: Step, x: Id)
    requires Sound(s) && Orderly(s) && Enabled(s, step) && step.Start? && Own(s, step, x) && Live(ViewOf(Taken(s, step), x))
    ensures var task := s.tasks[step.t];
      task.chunks > 0 && ViewOf(Taken(s, step), x)
      == View(Some(CaptureAudits.Started(NewAudit(x, Submitting), task.signature, task.chunks)), {}, {}, {})
  {
    OwnView(s, step, x);
    OwnRecovered(s, step, x);
    StepMoves(s, step, x);
    assert ViewOf(s, x).issued == {};
  }

  /** The start of the submission, for any progress before. */
  lemma StartFits(s: State, step: Step, x: Id, u: Progress)
    requires Safe(s) && Orderly(s) && Enabled(s, step) && step.Start? && Own(s, step, x) && Live(ViewOf(Taken(s, step), x))
    ensures StaysFit(s, step, x, u)
  {
    var n, task := ViewOf(Taken(s, step), x), s.tasks[step.t];
    StartView(s, step, x);
    OwnRecovered(s, step, x);
    ViewStarts(NewAudit(x, Submitting), task.chunks, task.signature, x);
    SubmittingNext(s, step, x, n, ProgressAfter(s, step, x, u));
  }

  lemma DropFits(s: State, step: Step, x: Id, u: Progress)
    requires Ready(s, step, x, u) && step.Drop? && Own(s, step, x)
    ensures StaysFit(s, step, x, u)
  {
    OwnView(s, step, x);
    OwnRecovered(s, step, x);
    SameAudit(s, step, x);
    assert ViewOf(Taken(s, step), x) == ViewOf(s, x);
    SubmittingNext(s, step, x, ViewOf(s, x), u);
  }

  // ---- Recovery ----

  lemma {:induction false} FindListed(audits: seq<Audit>, x: Id)
    ensures Find(audits, x).Some? <==> Listed(audits, x)
  {
    if audits != [] {
      FindListed(audits[1..], x);
      if audits[0].id == x { assert Listed(audits, x); }
      if i :| 0 <= i < |audits[1..]| && audits[1..][i].id == x { assert audits[i + 1].id == x; }
      if i :| 0 <= i < |audits| && audits[i].id == x { assert i == 0 || audits[1..][i-1].id == x; }
    }
  }

  lemma ReadJobsFits(s: State, step: Step, x: Id, u: Progress)
    requires Ready(s, step, x, u) && step.ReadJobs?
    ensures StaysFit(s, step, x, u)
  {
    var v := ViewOf(s, x);
    SameSets(s, step, x);
    SubmittingKept(s, step, x, v, v, u);
    assert JobsIn(s.pending, x) == v.pending;
  }

  lemma ReadAuditsFits(s: State, step: Step, x: Id, u: Progress)
    requires Ready(s, step, x, u) && step.ReadAudits?
    ensures StaysFit(s, step, x, u)
  {
    var v := ViewOf(s, x);
    SameSets(s, step, x);
    SubmittingKept(s, step, x, v, v, u);
    FindListed(s.audits, x);
    forall i | 0 <= i < |s.audits| && s.audits[i].id == x ensures StillSo(s.audits[i], v.audit.value) {
      UniqueAt(s.audits, i);
    }
  }

  /** An audit is listed once. */
  lemma ListedOnce(left: seq<Audit>, x: Id)
    requires left != [] && UniqueIds(left)
    ensures left[0].id == x ==> !Listed(left[1..], x)
    ensures left[0].id != x ==> (Listed(left[1..], x) <==> Listed(left, x))
  {
    FindListed(left[1..], x);
    FindListed(left, x);
  }

  lemma RecoverView(s: State, step: Step, x: Id)
    requires Sound(s) && Orderly(s) && Enabled(s, step) && step.Recover? && s.recovery.left[0].id == x
    requires Find(s.audits, x).Some? && Find(Taken(s, step).audits, x).Some?
    ensures var v := ViewOf(s, x);
      ViewOf(Taken(s, step), x) == v.(audit := Some(TreatedAudit(v.audit.value, s.recovery.left[0], step.accepted)))
  {
    SameSets(s, step, x);
    StepMoves(s, step, x);
    FindId(s.audits, x);
  }

  /** While recovery goes on there are no submissions. */
  lemma NoneInHand(s: State, step: Step, x: Id, n: View, u: Progress)
    requires Sound(s) && Enabled(s, step) && step.Recover?
    ensures InHand(Taken(s, step), x, n, u)
  {
    forall t | t in s.tasks ensures !Submits(s.tasks[t]) {}
    forall t | t in Taken(s, step).tasks ensures !Submits(Taken(s, step).tasks[t]) { TaskFrame(s, step, t); }
  }

  lemma RecoverOwnFits(s: State, step: Step, x: Id, u: Progress)
    requires Ready(s, step, x, u) && step.Recover? && s.recovery.left[0].id == x
    ensures StaysFit(s, step, x, u)
  {
    var v, n, p, left := ViewOf(s, x), ViewOf(Taken(s, step), x), s.recovery.pending, s.recovery.left;
    ListedOnce(left, x);
    assert Elements(step.accepted) == JobsIn(p, x);
    ViewRevisits(v, u, p, x, left, step.accepted);
    RecoverView(s, step, x);
    NoneInHand(s, step, x, n, Advance(u, Revisited));
  }

  lemma RecoverOtherFits(s: State, step: Step, x: Id, u: Progress)
    requires Ready(s, step, x, u) && step.Recover? && s.recovery.left[0].id != x
    ensures StaysFit(s, step, x, u)
  {
    var v, left := ViewOf(s, x), s.recovery.left;
    SameSets(s, step, x);
    EditTarget(s, step);
    StepMoves(s, step, x);
    FindId(s.audits, left[0].id);
    ListedOnce(left, x);
    NoneInHand(s, step, x, v, u);
  }

  lemma EndRecoveryFits(s: State, step: Step, x: Id, u: Progress)
    requires Ready(s, step, x, u) && step.EndRecovery?
    ensures StaysFit(s, step, x, u)
  {
    var v, n := ViewOf(s, x), ViewOf(Taken(s, step), x);
    IssuedAfterStep(s, step, x);
    PendingAfterStep(s, step, x);
    PolledAfterStep(s, step, x);
    StepMoves(s, step, x);
    if s.recovery.Working? && s.recovery.left == [] {
      ViewPolls(v, u, s.recovery.pending, x);
      forall t | t in s.tasks ensures !Submits(s.tasks[t]) {}
    } else {
      SubmittingKept(s, step, x, v, v, u);
    }
  }

  // ---- All steps ----

  /** Steps that write no audit, and those that add one. */
  predicate Plain(step: Step) {
    step.Poll? || step.Commit? || step.Notify? || step.Capture? || step.Block? || step.Crash?
  }

  /** Another group's submission, or a plain step, leaves the stored audit alone. */
  lemma ForeignAudit(s: State, step: Step, x: Id)
    requires Sound(s) && Enabled(s, step) && (Plain(step) || (SubmissionStep(step) && !Own(s, step, x)))
    requires x in s.used && Find(Taken(s, step).audits, x).Some?
    ensures Find(Taken(s, step).audits, x) == Find(s.audits, x)
  {
    EditTarget(s, step);
    StepMoves(s, step, x);
  }

  lemma PlainRecovery(s: State, step: Step)
    requires Enabled(s, step) && (Plain(step) || SubmissionStep(step))
    ensures Taken(s, step).recovery == if step.Crash? then Waiting else s.recovery
  {
  }

  lemma PlainView(s: State, step: Step, x: Id)
    requires Sound(s) && Orderly(s) && Enabled(s, step) && (Plain(step) || (SubmissionStep(step) && !Own(s, step, x)))
    requires x in s.used && Find(Taken(s, step).audits, x).Some?
    ensures ViewOf(Taken(s, step), x) == ViewOf(s, x) && !Own(s, step, x)
  {
    SameSets(s, step, x);
    ForeignAudit(s, step, x);
  }

  lemma PlainFits(s: State, step: Step, x: Id, u: Progress)
    requires Ready(s, step, x, u) && (Plain(step) || (SubmissionStep(step) && !Own(s, step, x)))
    ensures StaysFit(s, step, x, u)
  {
    PlainView(s, step, x);
    PlainRecovery(s, step);
    SubmittingKept(s, step, x, ViewOf(s, x), ViewOf(s, x), u);
    assert MilestoneOf(s, step, x) == [];
  }

  predicate SubmissionStep(step: Step) {
    step.Start? || step.Post? || step.Track? || step.Register? || step.Mark? || step.Finish? || step.Drop?
  }

  lemma OwnFits(s: State, step: Step, x: Id, u: Progress)
    requires Ready(s, step, x, u) && SubmissionStep(step) && Own(s, step, x)
    ensures StaysFit(s, step, x, u)
  {
    if step.Start? { StartFits(s, step, x, u); }
    else if step.Post? { PostFits(s, step, x, u); }
    else if step.Track? { TrackFits(s, step, x, u); }
    else if step.Register? { if step.stored { RegisterStored(s, step, x, u); } else { RegisterRejected(s, step, x, u); } }
    else if step.Mark? { MarkFits(s, step, x, u); }
    else if step.Finish? { FinishFits(s, step, x, u); }
    else { DropFits(s, step, x, u); }
  }

  lemma ReadyFits(s: State, step: Step, x: Id, u: Progress)
    requires Ready(s, step, x, u) && !Early(s, step, x)
    ensures StaysFit(s, step, x, u)
  {
    match step
    case Settle(_, _) => SettleFits(s, step, x, u);
    case Untrack(_) => UntrackFits(s, step, x, u);
    case ReadJobs => ReadJobsFits(s, step, x, u);
    case ReadAudits => ReadAuditsFits(s, step, x, u);
    case Recover(_, _) =>
      if s.recovery.left[0].id == x { RecoverOwnFits(s, step, x, u); } else { RecoverOtherFits(s, step, x, u); }
    case EndRecovery => EndRecoveryFits(s, step, x, u);
    case _ => if SubmissionStep(step) && Own(s, step, x) { OwnFits(s, step, x, u); } else { PlainFits(s, step, x, u); }
  }

  lemma LiveBefore(s: State, step: Step, x: Id)
    requires Safe(s) && Enabled(s, step) && Live(ViewOf(Taken(s, step), x)) && !(step.Start? && Own(s, step, x))
    ensures Live(ViewOf(s, x)) && x in s.used
  {
    if x in s.used {
      H.StartedBefore(s, step, x);
    } else {
      EditTarget(s, step);
      StepMoves(s, step, x);
    }
  }

  /** A step that settles no job early keeps the invariant. */
  lemma TrackedKept(s: State, step: Step, x: Id, u: Progress)
    requires Safe(s) && Orderly(s) && Enabled(s, step) && Tracked(s, x, u) && !Early(s, step, x)
    ensures Tracked(Taken(s, step), x, ProgressAfter(s, step, x, u))
  {
    if Live(ViewOf(Taken(s, step), x)) {
      if step.Start? && Own(s, step, x) {
        StartFits(s, step, x, u);
      } else {
        LiveBefore(s, step, x);
        ReadyFits(s, step, x, u);
      }
    }
  }

  // ---- Answers ----

  ghost predicate Matches(os: seq<G.Outcome>, m: map<Id, Settlement>) {
    forall i :: 0 <= i < |os| ==> os[i].0 in m && m[os[i].0] == os[i].1
  }

  /** Every recorded outcome is the first answer to its job, and an open group has recorded every answer. */
  ghost predicate Recorded(s: State, x: Id, m: map<Id, Settlement>, life: H.History) {
    && m.Keys <= JobsIn(s.issued, x)
    && (Live(ViewOf(s, x)) ==>
          && Matches(G.Firsts(life), m)
          && (IsOpen(Find(s.audits, x).value) ==> m.Keys <= Elements(Find(s.audits, x).value.settled)))
  }

  lemma JobsStayIssued(s: State, step: Step, x: Id)
    requires Enabled(s, step) && Sound(s)
    ensures JobsIn(s.issued, x) <= JobsIn(Taken(s, step).issued, x)
  {
    IssuedAfterStep(s, step, x);
  }

  /** Without a settlement nothing is recorded. */
  lemma QuietRecords(s: State, step: Step, x: Id, m: map<Id, Settlement>, life: H.History)
    requires Safe(s) && Enabled(s, step) && !step.Settle? && !(step.Start? && s.tasks[step.t].audit == x)
    requires Recorded(s, x, m, life) && Live(ViewOf(s, x)) && Live(ViewOf(Taken(s, step), x)) && x in s.used
    ensures Recorded(Taken(s, step), x, m, H.Heard(s, step, x, life))
  {
    JobsStayIssued(s, step, x);
    QuietFirsts(s, step, x, life);
    EditTarget(s, step);
    StepMoves(s, step, x);
    if EditOf(s, step).Put? { EditSettled(s, step); }
  }

  lemma QuietFirsts(s: State, step: Step, x: Id, life: H.History)
    requires Enabled(s, step) && !step.Settle?
    ensures G.Firsts(life + H.EventOf(s, step, x)) == G.Firsts(life)
  {
    var es := H.EventOf(s, step, x);
    if es == [] { assert life + es == life; } else { assert (life + es)[..|life|] == life; }
  }

  lemma SettleFirsts(life: H.History, job: Id, r: Settlement)
    ensures G.Firsts(life + [G.Settle(job, r)]) == G.Firsts(life) + if job in G.Jobs(G.Firsts(life)) then [] else [(job, r)]
  {
    assert (life + [G.Settle(job, r)])[..|life|] == life;
  }

  lemma MatchesMore(os: seq<G.Outcome>, m: map<Id, Settlement>, job: Id, r: Settlement)
    requires Matches(os, m) && job !in m
    ensures Matches(os, m[job := r]) && Matches(os + [(job, r)], m[job := r])
  {
  }

  /** What a settlement step on a job of the group does to its audit. */
  lemma SettleAudit(s: State, step: Step, x: Id)
    requires Safe(s) && Enabled(s, step) && step.Settle? && s.tasks[step.t].job in JobsIn(s.issued, x) && Find(s.audits, x).Some?
    ensures var job, a, n := s.tasks[step.t].job, Find(s.audits, x).value, Find(Taken(s, step).audits, x);
      n.Some? &&
      if IsOpen(a) && job !in a.settled then n.value.settled == a.settled + [job] else n.value == a
  {
    EditTarget(s, step);
    StepMoves(s, step, x);
    FindId(s.audits, x);
  }

  lemma SettleOther(s: State, step: Step, x: Id)
    requires Safe(s) && Enabled(s, step) && step.Settle? && s.tasks[step.t].job !in JobsIn(s.issued, x)
    ensures Find(Taken(s, step).audits, x) == Find(s.audits, x) && H.EventOf(s, step, x) == []
  {
    EditTarget(s, step);
    StepMoves(s, step, x);
  }

  lemma SettledAreFirsts(s: State, x: Id, life: H.History)
    requires H.Told(s, x, life) && Live(ViewOf(s, x))
    ensures Find(s.audits, x).value.settled == G.Jobs(G.Firsts(life))
  {
    H.HeededMeaning(H.GroupOf(Find(s.audits, x).value), life);
  }

  lemma MatchesJobs(os: seq<G.Outcome>, m: map<Id, Settlement>, job: Id)
    requires Matches(os, m) && job in G.Jobs(os)
    ensures job in m
  {
    G.JobsIndex(os, job);
  }

  lemma SettleMatches(life: H.History, es: H.History, m: map<Id, Settlement>, job: Id, r: Settlement)
    requires Matches(G.Firsts(life), m) && (es == [] || (es == [G.Settle(job, r)] && (job in m ==> job in G.Jobs(G.Firsts(life)))))
    ensures Matches(G.Firsts(life + es), if job in m then m else m[job := r])
  {
    var os := G.Firsts(life);
    if job !in m { MatchesMore(os, m, job, r); }
    if es == [] {
      assert life + es == life;
    } else {
      SettleFirsts(life, job, r);
      if job in G.Jobs(os) {
        MatchesJobs(os, m, job);
        assert G.Firsts(life + es) == os;
      } else {
        assert G.Firsts(life + es) == os + [(job, r)];
      }
    }
  }

  lemma EventOfSettle(s: State, step: Step, x: Id)
    requires Safe(s) && Enabled(s, step) && step.Settle? && s.tasks[step.t].job in JobsIn(s.issued, x) && Live(ViewOf(s, x))
    ensures H.EventOf(s, step, x) == if IsOpen(Find(s.audits, x).value) then [G.Settle(s.tasks[step.t].job, step.s)] else []
  {
  }

  /** The first outcomes go on being the first answers. */
  lemma OwnMatches(s: State, step: Step, x: Id, m: map<Id, Settlement>, life: H.History)
    requires Safe(s) && Enabled(s, step) && step.Settle? && s.tasks[step.t].job in JobsIn(s.issued, x) && H.Told(s, x, life)
    requires Recorded(s, x, m, life) && Live(ViewOf(s, x))
    ensures Matches(G.Firsts(H.Heard(s, step, x, life)), Answered(s, step, x, m))
  {
    var job := s.tasks[step.t].job;
    EventOfSettle(s, step, x);
    SettledAreFirsts(s, x, life);
    SettleMatches(life, H.EventOf(s, step, x), m, job, step.s);
  }

  /** The answer to a job of the group is recorded, or comes too late. */
  lemma OwnRecords(s: State, step: Step, x: Id, m: map<Id, Settlement>, life: H.History)
    requires Safe(s) && Enabled(s, step) && step.Settle? && s.tasks[step.t].job in JobsIn(s.issued, x)
    requires Recorded(s, x, m, life) && Live(ViewOf(s, x))
    ensures var n := Find(Taken(s, step).audits, x);
      n.Some? && (IsOpen(n.value) ==> Answered(s, step, x, m).Keys <= Elements(n.value.settled))
  {
    var job, a := s.tasks[step.t].job, Find(s.audits, x).value;
    SettleAudit(s, step, x);
    SettleAuditOpen(s, step, x);
    AppendElements(a.settled, job);
  }

  lemma SettleAuditOpen(s: State, step: Step, x: Id)
    requires Safe(s) && Enabled(s, step) && step.Settle? && Find(s.audits, x).Some? && Find(Taken(s, step).audits, x).Some?
    ensures IsOpen(Find(Taken(s, step).audits, x).value) ==> IsOpen(Find(s.audits, x).value)
  {
    EditTarget(s, step);
    StepMoves(s, step, x);
  }

  lemma SettleRecords(s: State, step: Step, x: Id, m: map<Id, Settlement>, life: H.History)
    requires Safe(s) && Enabled(s, step) && step.Settle? && H.Told(s, x, life)
    requires Recorded(s, x, m, life) && Live(ViewOf(s, x)) && Live(ViewOf(Taken(s, step), x)) && x in s.used
    ensures Recorded(Taken(s, step), x, Answered(s, step, x, m), H.Heard(s, step, x, life))
  {
    JobsStayIssued(s, step, x);
    if s.tasks[step.t].job in JobsIn(s.issued, x) {
      OwnMatches(s, step, x, m, life);
      OwnRecords(s, step, x, m, life);
    } else {
      SettleOther(s, step, x);
      assert life + [] == life;
    }
  }

  lemma RecordedKept(s: State, step: Step, x: Id, m: map<Id, Settlement>, life: H.History)
    requires Safe(s) && Enabled(s, step) && H.Told(s, x, life) && Recorded(s, x, m, life)
    ensures Recorded(Taken(s, step), x, Answered(s, step, x, m), H.Heard(s, step, x, life))
  {
    JobsStayIssued(s, step, x);
    if Live(ViewOf(Taken(s, step), x)) {
      if step.Start? && Own(s, step, x) {
        assert SubmitOk(s, s.tasks[step.t]);
      } else {
        LiveBefore(s, step, x);
        if step.Settle? { SettleRecords(s, step, x, m, life); } else { QuietRecords(s, step, x, m, life); }
      }
    }
  }

  // ---- Runs ----

  ghost predicate Followed(s: State, x: Id, o: Seen, life: H.History) {
    && Safe(s) && Orderly(s) && H.Told(s, x, life) && Recorded(s, x, o.answers, life)
    && (o.prompt ==> Tracked(s, x, ProgressOf(o.log)))
  }

  lemma FollowedKept(s: State, step: Step, x: Id, o: Seen, life: H.History)
    requires Followed(s, x, o, life) && Enabled(s, step)
    ensures Followed(Taken(s, step), x, See(s, step, x, o), H.Heard(s, step, x, life))
  {
    SafeKept(s, step);
    OrderlyKept(s, step);
    H.ToldKept(s, step, x, life);
    RecordedKept(s, step, x, o.answers, life);
    if o.prompt && !Early(s, step, x) {
      TrackedKept(s, step, x, ProgressOf(o.log));
      ProgressSeen(s, step, x, o.log);
    }
  }

  lemma ProgressSeen(s: State, step: Step, x: Id, log: seq<Milestone>)
    requires Enabled(s, step)
    ensures ProgressOf(log + MilestoneOf(s, step, x)) == ProgressAfter(s, step, x, ProgressOf(log))
  {
    var ms := MilestoneOf(s, step, x);
    if ms == [] {
      assert log + ms == log;
    } else {
      assert ms == [ms[0]];
      ProgressExtend(log, ms[0]);
    }
  }

  lemma {:induction false} FollowedRun(s: State, steps: seq<Step>, x: Id, o: Seen, life: H.History)
    requires Followed(s, x, o, life)
    ensures Followed(Exec(s, steps), x, SeenOf(s, steps, x, o), H.HistoryOf(s, steps, x, life))
    decreases |steps|
  {
    if steps != [] {
      if Enabled(s, steps[0]) { FollowedKept(s, steps[0], x, o, life); }
      FollowedRun(After(s, steps[0]), steps[1..], x, See(s, steps[0], x, o), H.Heard(s, steps[0], x, life));
    }
  }

  lemma FollowedInit(x: Id)
    ensures Followed(Init(), x, NOTHING, [])
  {
    SafeInit();
  }
}
