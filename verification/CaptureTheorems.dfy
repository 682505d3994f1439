/** What every run of the capture protocol keeps, with crashes between any two storage writes. */
module CaptureTheorems {
  import opened CaptureAudits
  import opened CaptureInvariant
  import opened CaptureProtocol
  import opened Options

  // ---- Reported outcomes ----

  ghost predicate HasFinal(finals: seq<(Id, Status)>, x: Id) { exists i :: 0 <= i < |finals| && finals[i].0 == x }

  /** One outcome for a group at most, and it is what the stored audit says. */
  ghost predicate Finals(s: State) {
    && (forall i, j :: 0 <= i < j < |s.finals| ==> s.finals[i].0 != s.finals[j].0)
    && (forall i :: 0 <= i < |s.finals| ==> FinalOk(s, s.finals[i].0, s.finals[i].1))
    && (forall x :: Find(s.audits, x).Some? && Find(s.audits, x).value.status == Success ==> (x, Success) in s.finals)
  }

  predicate FinalOk(s: State, x: Id, status: Status) {
    x in s.used && IsTerminal(status) && (Find(s.audits, x).Some? ==> Find(s.audits, x).value.status == status)
  }

  /** What an edit does to the settled jobs, and that only a settlement makes a group succeed. */
  lemma EditSettled(s: State, step: Step)
    requires Enabled(s, step) && EditOf(s, step).Put?
    ensures var e, was := EditOf(s, step), Open(s.audits, EditOf(s, step).id);
      && was.Some?
      && (step.Settle? ==> var job := s.tasks[step.t].job;
            job in s.issued && s.issued[job].auditId == e.id && job !in was.value.settled && e.a.settled == was.value.settled + [job])
      && (!step.Settle? ==> e.a.status != Success)
      && (!step.Settle? && !step.Start? ==> e.a.settled == was.value.settled)
      && (step.Start? ==> s.tasks[step.t].audit == e.id)
  {
    EditTarget(s, step);
    if step.Recover? { FindId(s.audits, s.recovery.left[0].id); }
  }

  lemma FinalFresh(s: State, step: Step)
    requires Sound(s) && Finals(s) && Enabled(s, step) && FinalOf(s, step).Some?
    ensures var x := FinalOf(s, step).value.0; !HasFinal(s.finals, x) && x in s.used && Open(s.audits, x).Some?
  {
    EditTarget(s, step);
  }

  lemma FinalKept(s: State, step: Step, x: Id, status: Status)
    requires Sound(s) && Enabled(s, step) && FinalOk(s, x, status)
    ensures FinalOk(Taken(s, step), x, status)
  {
    KnownKept(s, step);
    EditTarget(s, step);
    StepMoves(s, step, x);
  }

  lemma NewFinalOk(s: State, step: Step)
    requires Sound(s) && Finals(s) && Enabled(s, step) && FinalOf(s, step).Some?
    ensures FinalOk(Taken(s, step), FinalOf(s, step).value.0, FinalOf(s, step).value.1)
  {
    KnownKept(s, step);
    FinalFresh(s, step);
    StepMoves(s, step, FinalOf(s, step).value.0);
  }

  lemma SuccessReported(s: State, step: Step, x: Id)
    requires Sound(s) && Finals(s) && Enabled(s, step)
    requires Find(Taken(s, step).audits, x).Some? && Find(Taken(s, step).audits, x).value.status == Success
    ensures (x, Success) in Taken(s, step).finals
  {
    EditTarget(s, step);
    StepMoves(s, step, x);
    if EditOf(s, step).Put? {
      EditSettled(s, step);
      if EditOf(s, step).id == x { assert FinalOf(s, step) == Some((x, Success)); }
    }
  }

  lemma FinalsKept(s: State, step: Step)
    requires Sound(s) && Finals(s) && Enabled(s, step)
    ensures Finals(Taken(s, step))
  {
    var n := Taken(s, step);
    if FinalOf(s, step).Some? {
      FinalFresh(s, step);
      NewFinalOk(s, step);
    }
    forall i | 0 <= i < |s.finals| ensures FinalOk(n, s.finals[i].0, s.finals[i].1) {
      FinalKept(s, step, s.finals[i].0, s.finals[i].1);
    }
    forall x | Find(n.audits, x).Some? && Find(n.audits, x).value.status == Success ensures (x, Success) in n.finals {
      SuccessReported(s, step, x);
    }
  }

  // ---- Released jobs ----

  predicate Logged(s: State, a: Audit)
    requires a.signature.Some?
  {
    (a.id, a.signature.value) in s.written
  }

  /** The job is the one whose settlement ended the group. */
  predicate Finalising(a: Audit, job: Id) { a.settled != [] && a.settled[|a.settled|-1] == job }

  /** Nothing that is still to be done for the group needs the receipt of this job. */
  predicate Released(s: State, job: Id) {
    && job in s.issued
    && var found := Find(s.audits, s.issued[job].auditId);
       found.Some? ==>
         if IsTerminal(found.value.status) then
           found.value.status == Success && found.value.signature.Some? && Finalising(found.value, job) ==> Logged(s, found.value)
         else job in found.value.settled
  }

  /** The invariant this is all for: a stored success whose signature is not written still has its receipt. */
  predicate Deduplicable(s: State, a: Audit) {
    a.status == Success && a.signature.Some? ==>
      Logged(s, a) || (a.settled != [] && a.settled[|a.settled|-1] in s.pending)
  }

  ghost predicate Dedup(s: State) { forall x :: Find(s.audits, x).Some? ==> Deduplicable(s, Find(s.audits, x).value) }

  predicate PollOk(s: State, t: Task) {
    match t
    case Polled(job) => job in s.issued && job in s.polled && (job in s.pending || Released(s, job))
    case Committing(job, _) =>
      && job in s.issued && s.issued[job].signature.Some?
      && var x := s.issued[job].auditId;
         (x, Success) in s.finals && (Find(s.audits, x).Some? ==> Find(s.audits, x).value.status == Success)
    case Notifying(_, release) => release.Some? ==> Released(s, release.value)
    case Untracking(job) => Released(s, job)
    case _ => true
  }

  ghost predicate Polls(s: State) { forall t :: t in s.tasks ==> PollOk(s, s.tasks[t]) }

  /** A signature is written for a successful group only, and is that group's. */
  ghost predicate Written(s: State) {
    forall i :: 0 <= i < |s.written| ==>
      (s.written[i].0, Success) in s.finals &&
      (Find(s.audits, s.written[i].0).Some? ==> Find(s.audits, s.written[i].0).value.signature == Some(s.written[i].1))
  }

  /** Only a job with a poller settles. */
  ghost predicate Served(s: State) {
    forall x :: Find(s.audits, x).Some? ==> forall j :: j in Find(s.audits, x).value.settled ==> j in s.polled
  }

  ghost predicate Safe(s: State) { Sound(s) && Finals(s) && Dedup(s) && Polls(s) && Written(s) && Served(s) }

  lemma OpeningHasNoJobs(s: State, step: Step, job: Id)
    requires Sound(s) && Enabled(s, step) && job in s.issued
    ensures step.Start? ==> s.issued[job].auditId != s.tasks[step.t].audit
  {
    if step.Start? { assert SubmitOk(s, s.tasks[step.t]); }
  }

  lemma ReleasedKept(s: State, step: Step, job: Id)
    requires Sound(s) && Enabled(s, step) && Released(s, job)
    ensures Released(Taken(s, step), job)
  {
    var x := s.issued[job].auditId;
    EditTarget(s, step);
    StepMoves(s, step, x);
    FindId(s.audits, x);
    if EditOf(s, step).Put? && EditOf(s, step).id == x {
      EditSettled(s, step);
      OpeningHasNoJobs(s, step, job);
    }
  }

  /** Where a settlement leads. */
  lemma SettleNext(s: State, step: Step)
    requires Safe(s) && Enabled(s, step) && step.Settle?
    ensures Goes(s, step).Some? && PollOk(Taken(s, step), Goes(s, step).value)
  {
    var job := s.tasks[step.t].job;
    assert PollOk(s, s.tasks[step.t]);
    var x := s.issued[job].auditId;
    StepMoves(s, step, x);
    FindId(s.audits, x);
    if EditOf(s, step).Put? { EditSettled(s, step); }
  }

  lemma CommitNext(s: State, step: Step)
    requires Safe(s) && Enabled(s, step) && step.Commit? && Goes(s, step).Some?
    ensures PollOk(Taken(s, step), Goes(s, step).value)
  {
    var job := s.tasks[step.t].job;
    assert PollOk(s, s.tasks[step.t]);
    var x := s.issued[job].auditId;
    StepMoves(s, step, x);
    FindId(s.audits, x);
  }

  lemma OtherNext(s: State, step: Step)
    requires Safe(s) && Enabled(s, step) && !step.Settle? && !step.Commit? && Goes(s, step).Some?
    ensures PollOk(Taken(s, step), Goes(s, step).value)
  {
    if step.Notify? {
      assert PollOk(s, s.tasks[step.t]);
      ReleasedKept(s, step, s.tasks[step.t].release.value);
    }
  }

  lemma PolledFrame(s: State, step: Step, job: Id)
    requires Safe(s) && Enabled(s, step) && PollOk(s, Polled(job))
    requires step.Untrack? ==> Released(s, s.tasks[step.t].job)
    ensures PollOk(Taken(s, step), Polled(job))
  {
    if Released(s, job) { ReleasedKept(s, step, job); }
  }

  lemma CommittingFrame(s: State, step: Step, task: Task)
    requires Safe(s) && Enabled(s, step) && task.Committing? && PollOk(s, task)
    ensures PollOk(Taken(s, step), task)
  {
    StepMoves(s, step, s.issued[task.job].auditId);
    EditTarget(s, step);
    assert s.issued[task.job].auditId in s.used;
  }

  /** A task that does not take the step stays in order. */
  lemma PollFrame(s: State, step: Step, task: Task)
    requires Safe(s) && Enabled(s, step) && PollOk(s, task)
    requires step.Untrack? ==> Released(s, s.tasks[step.t].job)
    ensures PollOk(Taken(s, step), task)
  {
    match task
    case Polled(job) => PolledFrame(s, step, job);
    case Committing(_, _) => CommittingFrame(s, step, task);
    case Notifying(_, release) => if release.Some? { ReleasedKept(s, step, release.value); }
    case Untracking(job) => ReleasedKept(s, step, job);
    case _ =>
  }

  lemma PollsKept(s: State, step: Step)
    requires Safe(s) && Enabled(s, step)
    ensures Polls(Taken(s, step))
  {
    var n := Taken(s, step);
    if step.Untrack? { assert PollOk(s, s.tasks[step.t]); }
    forall t | t in n.tasks ensures PollOk(n, n.tasks[t]) {
      TaskFrame(s, step, t);
      if HasTask(step) && t == step.t {
        if step.Settle? { SettleNext(s, step); } else if step.Commit? { CommitNext(s, step); } else { OtherNext(s, step); }
      } else {
        PollFrame(s, step, s.tasks[t]);
      }
    }
  }

  /** A settlement that makes a group succeed finds its own receipt still there. */
  lemma SettleDedup(s: State, step: Step)
    requires Safe(s) && Enabled(s, step) && step.Settle? && EditOf(s, step).Put?
    ensures Deduplicable(Taken(s, step), EditOf(s, step).a)
  {
    assert PollOk(s, s.tasks[step.t]);
    EditSettled(s, step);
  }

  lemma UntrackDedup(s: State, step: Step, x: Id)
    requires Safe(s) && Enabled(s, step) && step.Untrack? && Find(s.audits, x).Some?
    ensures Deduplicable(Taken(s, step), Find(s.audits, x).value)
  {
    var job, a := s.tasks[step.t].job, Find(s.audits, x).value;
    assert PollOk(s, s.tasks[step.t]);
    FindId(s.audits, x);
    if a.status == Success && a.signature.Some? && Finalising(a, job) { assert s.issued[job].auditId == x; }
  }

  lemma DedupKept(s: State, step: Step)
    requires Safe(s) && Enabled(s, step)
    ensures Dedup(Taken(s, step))
  {
    var n := Taken(s, step);
    EditTarget(s, step);
    forall x | Find(n.audits, x).Some? ensures Deduplicable(n, Find(n.audits, x).value) {
      StepMoves(s, step, x);
      if step.Untrack? {
        UntrackDedup(s, step, x);
      } else if EditOf(s, step).Put? {
        EditSettled(s, step);
        if step.Settle? { SettleDedup(s, step); }
      }
    }
  }

  lemma WrittenKept(s: State, step: Step)
    requires Safe(s) && Enabled(s, step)
    ensures Written(Taken(s, step))
  {
    var n := Taken(s, step);
    EditTarget(s, step);
    forall i | 0 <= i < |n.written|
      ensures (n.written[i].0, Success) in n.finals
      ensures Find(n.audits, n.written[i].0).Some? ==> Find(n.audits, n.written[i].0).value.signature == Some(n.written[i].1)
    {
      var x := n.written[i].0;
      if i == |s.written| { assert PollOk(s, s.tasks[step.t]); }
      var k :| 0 <= k < |s.finals| && s.finals[k] == (x, Success);
      StepMoves(s, step, x);
      FindId(s.audits, x);
    }
  }

  lemma PolledGrows(s: State, step: Step)
    requires Enabled(s, step)
    ensures s.polled <= Taken(s, step).polled
  {
  }

  lemma ServedKept(s: State, step: Step)
    requires Safe(s) && Enabled(s, step)
    ensures Served(Taken(s, step))
  {
    var n := Taken(s, step);
    PolledGrows(s, step);
    EditTarget(s, step);
    if step.Settle? { assert PollOk(s, s.tasks[step.t]); }
    if EditOf(s, step).Put? { EditSettled(s, step); }
    forall x | Find(n.audits, x).Some? ensures forall j :: j in Find(n.audits, x).value.settled ==> j in n.polled {
      StepMoves(s, step, x);
    }
  }

  lemma SafeKept(s: State, step: Step)
    requires Safe(s) && Enabled(s, step)
    ensures Safe(Taken(s, step))
  {
    SoundKept(s, step);
    FinalsKept(s, step);
    PollsKept(s, step);
    DedupKept(s, step);
    WrittenKept(s, step);
    ServedKept(s, step);
  }

  lemma {:induction false} SafeRun(s: State, steps: seq<Step>)
    requires Safe(s)
    ensures Safe(Exec(s, steps))
    decreases |steps|
  {
    if steps != [] {
      if Enabled(s, steps[0]) { SafeKept(s, steps[0]); }
      SafeRun(After(s, steps[0]), steps[1..]);
    }
  }

  lemma SafeInit()
    ensures Safe(Init())
  {
  }

  // ---- Notifications ----

  /** The group whose outcome the task is going to show. */
  function Right(s: State, t: Task): Option<Id> {
    if t.Notifying? then Some(t.audit)
    else if t.Committing? && t.first && t.job in s.issued then Some(s.issued[t.job].auditId)
    else None
  }

  /** Every group is shown at most once, by the task that ended it, and only after it ended. */
  ghost predicate Notices(s: State) {
    && (forall t :: t in s.tasks && Right(s, s.tasks[t]).Some? ==>
          HasFinal(s.finals, Right(s, s.tasks[t]).value) && Right(s, s.tasks[t]).value !in s.notes)
    && (forall t, u :: t in s.tasks && u in s.tasks && t != u && Right(s, s.tasks[t]).Some? ==>
          Right(s, s.tasks[t]) != Right(s, s.tasks[u]))
    && (forall i, j :: 0 <= i < j < |s.notes| ==> s.notes[i] != s.notes[j])
    && (forall x :: x in s.notes ==> HasFinal(s.finals, x))
  }

  lemma HasFinalKept(s: State, step: Step, x: Id)
    requires Enabled(s, step) && HasFinal(s.finals, x)
    ensures HasFinal(Taken(s, step).finals, x)
  {
    var i :| 0 <= i < |s.finals| && s.finals[i].0 == x;
    assert Taken(s, step).finals[i].0 == x;
  }

  lemma RightFrame(s: State, step: Step, task: Task)
    requires Enabled(s, step) && PollOk(s, task)
    ensures Right(Taken(s, step), task) == Right(s, task)
  {
  }

  lemma SettleRight(s: State, step: Step)
    requires Enabled(s, step) && step.Settle? && Goes(s, step).Some?
    ensures var right := Right(Taken(s, step), Goes(s, step).value);
      right.Some? ==> FinalOf(s, step).Some? && FinalOf(s, step).value.0 == right.value
  {
  }

  lemma MarkRight(s: State, step: Step)
    requires Enabled(s, step) && (step.Mark? || step.Recover?) && Goes(s, step).Some?
    ensures var right := Right(Taken(s, step), Goes(s, step).value);
      right.Some? ==> FinalOf(s, step).Some? && FinalOf(s, step).value.0 == right.value
  {
    EditTarget(s, step);
    if step.Recover? { FindId(s.audits, s.recovery.left[0].id); }
  }

  lemma OtherRight(s: State, step: Step)
    requires Enabled(s, step) && !step.Settle? && !step.Mark? && !step.Recover? && Goes(s, step).Some?
    requires step.Commit? ==> PollOk(s, s.tasks[step.t])
    ensures var right := Right(Taken(s, step), Goes(s, step).value);
      right.Some? ==> step.Commit? && Right(s, s.tasks[step.t]) == right
  {
  }

  /** A right to show an outcome after a step: kept by its task, or new with the outcome. */
  lemma RightOrigin(s: State, step: Step, t: nat)
    requires Safe(s) && Enabled(s, step) && t in Taken(s, step).tasks
    ensures var n := Taken(s, step);
      var right := Right(n, n.tasks[t]);
      right.Some? ==>
        || (t in s.tasks && Right(s, s.tasks[t]) == right && !(step.Notify? && t == step.t))
        || (HasTask(step) && t == step.t && FinalOf(s, step).Some? && FinalOf(s, step).value.0 == right.value)
  {
    TaskFrame(s, step, t);
    if t in s.tasks { assert PollOk(s, s.tasks[t]); }
    if HasTask(step) && t == step.t {
      if step.Settle? { SettleRight(s, step); }
      else if step.Mark? || step.Recover? { MarkRight(s, step); }
      else { OtherRight(s, step); }
    } else {
      RightFrame(s, step, s.tasks[t]);
    }
  }

  lemma NewFinal(s: State, step: Step)
    requires Enabled(s, step) && FinalOf(s, step).Some?
    ensures HasFinal(Taken(s, step).finals, FinalOf(s, step).value.0)
  {
    assert Taken(s, step).finals[|s.finals|].0 == FinalOf(s, step).value.0;
  }

  lemma RightsKept(s: State, step: Step, t: nat)
    requires Safe(s) && Notices(s) && Enabled(s, step) && t in Taken(s, step).tasks
    ensures var n := Taken(s, step);
      Right(n, n.tasks[t]).Some? ==> HasFinal(n.finals, Right(n, n.tasks[t]).value) && Right(n, n.tasks[t]).value !in n.notes
  {
    var n := Taken(s, step);
    RightOrigin(s, step, t);
    var right := Right(n, n.tasks[t]);
    if right.Some? {
      if HasFinal(s.finals, right.value) { HasFinalKept(s, step, right.value); }
      if FinalOf(s, step).Some? {
        FinalFresh(s, step);
        NewFinal(s, step);
      }
    }
  }

  lemma RightsApart(s: State, step: Step, t: nat, u: nat)
    requires Safe(s) && Notices(s) && Enabled(s, step) && t in Taken(s, step).tasks && u in Taken(s, step).tasks && t != u
    ensures var n := Taken(s, step);
      Right(n, n.tasks[t]).Some? ==> Right(n, n.tasks[t]) != Right(n, n.tasks[u])
  {
    RightOrigin(s, step, t);
    RightOrigin(s, step, u);
    if FinalOf(s, step).Some? { FinalFresh(s, step); }
  }

  lemma NoticesKept(s: State, step: Step)
    requires Safe(s) && Notices(s) && Enabled(s, step)
    ensures Notices(Taken(s, step))
  {
    var n := Taken(s, step);
    forall t | t in n.tasks && Right(n, n.tasks[t]).Some?
      ensures HasFinal(n.finals, Right(n, n.tasks[t]).value) && Right(n, n.tasks[t]).value !in n.notes
    {
      RightsKept(s, step, t);
    }
    forall t, u | t in n.tasks && u in n.tasks && t != u && Right(n, n.tasks[t]).Some?
      ensures Right(n, n.tasks[t]) != Right(n, n.tasks[u])
    {
      RightsApart(s, step, t, u);
    }
    forall x | x in n.notes ensures HasFinal(n.finals, x) {
      assert HasFinal(s.finals, x);
      HasFinalKept(s, step, x);
    }
  }

  lemma {:induction false} NoticesRun(s: State, steps: seq<Step>)
    requires Safe(s) && Notices(s)
    ensures Notices(Exec(s, steps))
    decreases |steps|
  {
    if steps != [] {
      if Enabled(s, steps[0]) {
        SafeKept(s, steps[0]);
        NoticesKept(s, steps[0]);
      }
      NoticesRun(After(s, steps[0]), steps[1..]);
    }
  }

  // ---- The theorems, over every run ----

  lemma Reached(steps: seq<Step>)
    ensures Safe(Exec(Init(), steps)) && Notices(Exec(Init(), steps))
  {
    SafeInit();
    SafeRun(Init(), steps);
    NoticesRun(Init(), steps);
  }

  /** Crash-safe deduplication: in every reachable state a stored success with a signature has had it written, or
      the receipt of the job that ended the group is still pending, with that signature. */
  lemma CrashSafeDeduplication(steps: seq<Step>, id: Id, a: Audit)
    requires Find(Exec(Init(), steps).audits, id) == Some(a) && a.status == Success && a.signature.Some?
    ensures var s := Exec(Init(), steps);
      || (id, a.signature.value) in s.written
      || (&& a.settled != [] && a.settled[|a.settled|-1] in s.pending
          && s.pending[a.settled[|a.settled|-1]].auditId == id && s.pending[a.settled[|a.settled|-1]].signature == a.signature)
  {
    Reached(steps);
    FindId(Exec(Init(), steps).audits, id);
  }

  /** No signature is written for a group that did not succeed, nor one that is not its own. */
  lemma OnlySuccessIsWritten(steps: seq<Step>, id: Id, signature: Signature)
    requires (id, signature) in Exec(Init(), steps).written
    ensures var s := Exec(Init(), steps);
      && (id, Success) in s.finals
      && (Find(s.audits, id).Some? ==>
            Find(s.audits, id).value.status == Success && Find(s.audits, id).value.signature == Some(signature))
  {
    Reached(steps);
    var s := Exec(Init(), steps);
    var i :| 0 <= i < |s.written| && s.written[i] == (id, signature);
    var k :| 0 <= k < |s.finals| && s.finals[k] == (id, Success);
  }

  /** A group has at most one terminal outcome and is shown at most once, however often its jobs are replayed. */
  lemma OneOutcome(steps: seq<Step>)
    ensures var s := Exec(Init(), steps);
      && (forall i, j :: 0 <= i < j < |s.finals| ==> s.finals[i].0 != s.finals[j].0)
      && (forall i, j :: 0 <= i < j < |s.notes| ==> s.notes[i] != s.notes[j])
      && (forall x :: x in s.notes ==> HasFinal(s.finals, x))
  {
    Reached(steps);
  }

  /** Terminal audits never change again, whatever comes next. */
  lemma TerminalNeverChanges(steps: seq<Step>, later: seq<Step>, id: Id, a: Audit)
    requires Ended(Exec(Init(), steps), id, a)
    ensures var found := Find(Exec(Exec(Init(), steps), later).audits, id); found.None? || found == Some(a)
  {
    Reached(steps);
    TerminalForever(Exec(Init(), steps), later, id, a);
  }

  /** The settled jobs of a stored group are always the disjoint union of its completed, partial and failed jobs,
      all of them jobs issued for the group. */
  lemma SettlementConserved(steps: seq<Step>, id: Id, a: Audit)
    requires Find(Exec(Init(), steps).audits, id) == Some(a)
    ensures multiset(a.settled) == multiset(a.completed) + multiset(a.partials) + multiset(a.failures)
    ensures forall i, j :: 0 <= i < j < |a.settled| ==> a.settled[i] != a.settled[j]
    ensures forall j :: j in a.settled ==> var s := Exec(Init(), steps); j in s.issued && s.issued[j].auditId == id
  {
    Reached(steps);
    FindId(Exec(Init(), steps).audits, id);
  }

  // ---- Success means everything ----

  function Indices(issued: Pending, jobs: seq<Id>): set<nat> {
    set j | j in jobs && j in issued :: issued[j].chunkIndex
  }

  lemma {:induction false} IndicesSize(s: State, id: Id, jobs: seq<Id>)
    requires JobsOk(s) && forall j :: j in jobs ==> j in s.issued && s.issued[j].auditId == id
    requires forall i, j :: 0 <= i < j < |jobs| ==> jobs[i] != jobs[j]
    ensures |Indices(s.issued, jobs)| == |jobs|
  {
    if jobs != [] {
      var init, last := jobs[..|jobs|-1], jobs[|jobs|-1];
      IndicesSize(s, id, init);
      assert jobs == init + [last];
      assert Indices(s.issued, jobs) == Indices(s.issued, init) + {s.issued[last].chunkIndex};
      assert s.issued[last].chunkIndex !in Indices(s.issued, init);
    }
  }

  lemma {:induction false} RangeFull(n: nat, have: set<nat>)
    requires (forall k :: k in have ==> 1 <= k <= n) && |have| >= n
    ensures forall k :: 1 <= k <= n ==> k in have
  {
    if n == 0 {
    } else if n in have {
      assert |have - {n}| == |have| - 1;
      RangeFull(n - 1, have - {n});
      forall k | 1 <= k <= n ensures k in have { if k < n { assert k in have - {n}; } }
    } else {
      RangeTooSmall(n - 1, have);
    }
  }

  lemma {:induction false} RangeTooSmall(n: nat, have: set<nat>)
    requires forall k :: k in have ==> 1 <= k <= n
    ensures |have| <= n
  {
    if n == 0 {
      assert have == {};
    } else {
      RangeTooSmall(n - 1, have - {n});
      if n in have { assert |have - {n}| == |have| - 1; } else { assert have - {n} == have; }
    }
  }

  /** A stored success means that every expected chunk has a completed job, and that none is uncertain. */
  lemma SuccessIsComplete(steps: seq<Step>, id: Id, a: Audit, k: nat)
    requires Find(Exec(Init(), steps).audits, id) == Some(a) && a.status == Success && 1 <= k <= a.expected
    ensures a.expected > 0 && a.uncertainChunks == 0 && !a.submissionUncertain && a.partials == [] && a.failures == []
    ensures exists j :: j in a.completed && IsChunk(Exec(Init(), steps), j, id, k)
  {
    var s := Exec(Init(), steps);
    Reached(steps);
    FindId(s.audits, id);
    IndicesSize(s, id, a.settled);
    RangeFull(a.expected, Indices(s.issued, a.settled));
    assert k in Indices(s.issued, a.settled);
    var j :| j in a.settled && s.issued[j].chunkIndex == k;
    assert j in multiset(a.settled);
    assert j in multiset(a.completed);
    assert IsChunk(s, j, id, k);
  }

  /** The job was issued for the k-th chunk of the group. */
  predicate IsChunk(s: State, job: Id, id: Id, k: nat) {
    job in s.issued && s.issued[job].auditId == id && s.issued[job].chunkIndex == k
  }

  lemma ReplaySettles(s: State, t: nat, job: Id, result: Settlement)
    requires t in s.tasks && s.tasks[t] == Polled(job) && job in s.issued && s.issued[job].signature.Some?
    requires s.issued[job].auditId != []
    requires var found := Find(s.audits, s.issued[job].auditId); found.Some? && found.value.status == Success
    ensures var n := After(s, Settle(t, result));
      n.tasks == s.tasks[t := Committing(job, false)] && n.audits == s.audits && n.issued == s.issued
  {
  }

  lemma ReplayCommits(s: State, t: nat, job: Id)
    requires t in s.tasks && s.tasks[t] == Committing(job, false) && job in s.issued && s.issued[job].signature.Some?
    ensures var n := After(s, Commit(t, true));
      (s.issued[job].auditId, s.issued[job].signature.value) in n.written && n.audits == s.audits
  {
    assert After(s, Commit(t, true)).written[|s.written|] == (s.issued[job].auditId, s.issued[job].signature.value);
  }

  /** One undisturbed poll of the receipt writes a signature that a crash held back, whatever settlement the poll
      records. */
  lemma ReplayFinishes(steps: seq<Step>, id: Id, a: Audit, t: nat, result: Settlement)
    requires var s := Exec(Init(), steps);
      && Find(s.audits, id) == Some(a) && a.status == Success && a.signature.Some?
      && (id, a.signature.value) !in s.written && t !in s.tasks
    ensures a.settled != []
    ensures var s, job := Exec(Init(), steps), a.settled[|a.settled|-1];
      var n := After(After(After(s, Poll(t, job)), Settle(t, result)), Commit(t, true));
      (id, a.signature.value) in n.written && n.audits == s.audits
  {
    CrashSafeDeduplication(steps, id, a);
    Reached(steps);
    var s, job := Exec(Init(), steps), a.settled[|a.settled|-1];
    FindId(s.audits, id);
    assert s.issued[job] == s.pending[job] && id in s.used && job in s.polled;
    var s1 := After(s, Poll(t, job));
    assert s1.tasks == s.tasks[t := Polled(job)] && s1.audits == s.audits && s1.issued == s.issued;
    ReplaySettles(s1, t, job, result);
    ReplayCommits(After(s1, Settle(t, result)), t, job);
  }

  // ---- A crash in the gap ----

  /** A worker that starts with empty stores. */
  function FirstStart(): seq<Step> { [ReadJobs, ReadAudits, EndRecovery] }

  function OpeningSteps(audit: Id, signature: Signature): seq<Step> {
    FirstStart() + ([Capture(0, audit, 1, Some(signature))] + ([Start(0)] + []))
  }

  function RegisteringSteps(job: Id): seq<Step> { [Post(0, Some(job)), Track(0, true), Register(0, true, false)] }

  function SettlingSteps(job: Id): seq<Step> {
    [Finish(0), Poll(1, job), Settle(1, Settlement(ChunkSuccess, 0, 0))]
  }

  /** A run in which the worker dies after the last settlement and before the signature is written. */
  function CrashInTheGap(audit: Id, job: Id, signature: Signature): seq<Step> {
    OpeningSteps(audit, signature) + RegisteringSteps(job) + SettlingSteps(job) + [Crash]
  }

  function Info(audit: Id, signature: Signature): JobInfo { JobInfo(audit, 1, 1, Some(signature)) }

  /** The states of that run: the capture is open, its job is registered, the group has succeeded. */
  function GapOpened(audit: Id, signature: Signature): State {
    Init().(recovery := Recovered, used := {audit},
            audits := [Started(NewAudit(audit, Submitting), Some(signature), 1)],
            tasks := map[0 := Posting(audit, 1, Some(signature), [])])
  }

  function GapRegistered(audit: Id, job: Id, signature: Signature): State {
    GapOpened(audit, signature).(
      audits := [Started(NewAudit(audit, Submitting), Some(signature), 1).(status := Queued, submitted := 1, jobIds := [job])],
      tasks := map[0 := Finishing(audit, [job])], polled := {job},
      issued := map[job := Info(audit, signature)], pending := map[job := Info(audit, signature)])
  }

  function GapSettled(audit: Id, job: Id, signature: Signature): State {
    var before := GapRegistered(audit, job, signature);
    before.(audits := [Settled(before.audits[0], job, Info(audit, signature), Settlement(ChunkSuccess, 0, 0))],
            tasks := map[1 := Committing(job, true)], finals := [(audit, Success)])
  }

  lemma {:induction false} ExecConcat(s: State, p: seq<Step>, q: seq<Step>)
    ensures Exec(s, p + q) == Exec(Exec(s, p), q)
    decreases |p|
  {
    if p == [] {
      assert p + q == q;
    } else {
      assert (p + q)[0] == p[0] && (p + q)[1..] == p[1..] + q;
      ExecConcat(After(s, p[0]), p[1..], q);
    }
  }

  lemma ExecOne(s: State, step: Step, rest: seq<Step>)
    ensures Exec(s, [step] + rest) == Exec(After(s, step), rest)
  {
    assert ([step] + rest)[1..] == rest;
  }

  lemma ExecThree(s: State, x: Step, y: Step, z: Step)
    ensures Exec(s, [x, y, z]) == After(After(After(s, x), y), z)
  {
    assert [x, y, z] == [x] + ([y] + ([z] + []));
    ExecOne(s, x, [y] + ([z] + []));
    ExecOne(After(s, x), y, [z] + []);
    ExecOne(After(After(s, x), y), z, []);
  }

  lemma FirstStarts()
    ensures Exec(Init(), FirstStart()) == Init().(recovery := Recovered)
  {
    ExecThree(Init(), ReadJobs, ReadAudits, EndRecovery);
    var s := After(After(Init(), ReadJobs), ReadAudits);
    assert s.polled + s.recovery.pending.Keys == {};
  }

  function GapCaptured(audit: Id, signature: Signature): State {
    Init().(recovery := Recovered, used := {audit}, audits := [NewAudit(audit, Submitting)],
            tasks := map[0 := Opening(audit, 1, Some(signature))])
  }

  lemma GapCaptures(audit: Id, signature: Signature)
    requires audit != []
    ensures After(Init().(recovery := Recovered), Capture(0, audit, 1, Some(signature))) == GapCaptured(audit, signature)
  {
    assert Prepend([], NewAudit(audit, Submitting)) == [NewAudit(audit, Submitting)];
  }

  lemma GapStarts(audit: Id, signature: Signature)
    requires audit != []
    ensures After(GapCaptured(audit, signature), Start(0)) == GapOpened(audit, signature)
  {
  }

  lemma GapOpens(audit: Id, signature: Signature)
    requires audit != []
    ensures Exec(Init(), OpeningSteps(audit, signature)) == GapOpened(audit, signature)
  {
    var s, rest := Init().(recovery := Recovered), [Start(0)] + [];
    FirstStarts();
    ExecConcat(Init(), FirstStart(), [Capture(0, audit, 1, Some(signature))] + rest);
    ExecOne(s, Capture(0, audit, 1, Some(signature)), rest);
    ExecOne(GapCaptured(audit, signature), Start(0), []);
    GapCaptures(audit, signature);
    GapStarts(audit, signature);
  }

  function GapTracked(audit: Id, job: Id, signature: Signature): State {
    GapOpened(audit, signature).(
      tasks := map[0 := Registering(audit, 1, Some(signature), [], job)],
      issued := map[job := Info(audit, signature)], pending := map[job := Info(audit, signature)])
  }

  lemma GapTracks(audit: Id, job: Id, signature: Signature)
    ensures After(After(GapOpened(audit, signature), Post(0, Some(job))), Track(0, true)) == GapTracked(audit, job, signature)
  {
    var s := After(GapOpened(audit, signature), Post(0, Some(job)));
    assert s.tasks == map[0 := Tracking(audit, 1, Some(signature), [], job)] && s.issued == map[job := Info(audit, signature)];
  }

  lemma GapRecords(audit: Id, job: Id, signature: Signature)
    ensures After(GapTracked(audit, job, signature), Register(0, true, false)) == GapRegistered(audit, job, signature)
  {
    assert [] + [job] == [job];
  }

  lemma GapRegisters(audit: Id, job: Id, signature: Signature)
    ensures Exec(GapOpened(audit, signature), RegisteringSteps(job)) == GapRegistered(audit, job, signature)
  {
    ExecThree(GapOpened(audit, signature), Post(0, Some(job)), Track(0, true), Register(0, true, false));
    GapTracks(audit, job, signature);
    GapRecords(audit, job, signature);
  }

  lemma GapPolls(audit: Id, job: Id, signature: Signature)
    ensures After(After(GapRegistered(audit, job, signature), Finish(0)), Poll(1, job))
         == GapRegistered(audit, job, signature).(tasks := map[1 := Polled(job)])
  {
    var s := After(GapRegistered(audit, job, signature), Finish(0));
    assert s.audits == GapRegistered(audit, job, signature).audits && s.tasks == map[];
  }

  lemma GapSucceeds(audit: Id, job: Id, signature: Signature)
    requires audit != []
    ensures After(GapRegistered(audit, job, signature).(tasks := map[1 := Polled(job)]), Settle(1, Settlement(ChunkSuccess, 0, 0)))
         == GapSettled(audit, job, signature)
  {
  }

  lemma GapSettles(audit: Id, job: Id, signature: Signature)
    requires audit != []
    ensures Exec(GapRegistered(audit, job, signature), SettlingSteps(job)) == GapSettled(audit, job, signature)
  {
    ExecThree(GapRegistered(audit, job, signature), Finish(0), Poll(1, job), Settle(1, Settlement(ChunkSuccess, 0, 0)));
    GapPolls(audit, job, signature);
    GapSucceeds(audit, job, signature);
  }

  lemma GapCrashes(audit: Id, job: Id, signature: Signature)
    requires audit != []
    ensures var s := Exec(GapSettled(audit, job, signature), [Crash]);
      && Find(s.audits, audit).Some? && Find(s.audits, audit).value.status == Success
      && Find(s.audits, audit).value.signature == Some(signature)
      && s.written == [] && s.tasks == map[] && job in s.pending
  {
    ExecOne(GapSettled(audit, job, signature), Crash, []);
    assert [Crash] + [] == [Crash];
  }

  /** The gap is real: such a run ends with a stored success whose signature has not been written. */
  lemma GapIsReal(audit: Id, job: Id, signature: Signature)
    requires audit != []
    ensures var s := Exec(Init(), CrashInTheGap(audit, job, signature));
      && Find(s.audits, audit).Some? && Find(s.audits, audit).value.status == Success
      && Find(s.audits, audit).value.signature == Some(signature)
      && s.written == [] && s.tasks == map[] && job in s.pending
  {
    var p, q, r := OpeningSteps(audit, signature), RegisteringSteps(job), SettlingSteps(job);
    ExecConcat(Init(), p + q + r, [Crash]);
    ExecConcat(Init(), p + q, r);
    ExecConcat(Init(), p, q);
    GapOpens(audit, signature);
    GapRegisters(audit, job, signature);
    GapSettles(audit, job, signature);
    GapCrashes(audit, job, signature);
  }
}
