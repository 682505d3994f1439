/** The capture protocol as a step system: one step for each storage write, with polls, a submission for every
    capture, recovery after a restart, and a crash that may come between any two steps. */
module CaptureProtocol {
  import opened CaptureAudits
  import opened Options

  // ---- Suspended work: lost in a crash ----

  datatype Task =
    | Polled(job: Id)                                   // has read the receipt of a pending job
    | Committing(job: Id, first: bool)                  // has recorded an outcome and goes on to the signature
    | Notifying(audit: Id, release: Option<Id>)         // shows the outcome of a group, then releases the job
    | Untracking(job: Id)
    | Opening(audit: Id, chunks: nat, signature: Option<Signature>)
    | Posting(audit: Id, chunks: nat, signature: Option<Signature>, jobs: seq<Id>)
    | Tracking(audit: Id, chunks: nat, signature: Option<Signature>, jobs: seq<Id>, job: Id)
    | Registering(audit: Id, chunks: nat, signature: Option<Signature>, jobs: seq<Id>, job: Id)
    | Marking(audit: Id, chunks: nat, jobs: seq<Id>)
    | Finishing(audit: Id, jobs: seq<Id>)

  /** The restart procedure: it reads the receipts, then the audits, then treats each audit it read. */
  datatype Recovery = Waiting | HasJobs(pending: Pending) | Working(pending: Pending, left: seq<Audit>) | Recovered

  type Tasks = map<nat, Task>

  /** The storage and the jobs with a poller, whose alarm outlives the worker; the suspended work; and a history: the
      jobs the server ever issued, the audit ids ever used, the signatures ever written and for which group, the
      terminal outcomes reported, and the groups notified. */
  datatype State = State(
    audits: seq<Audit>, pending: Pending, signatures: Signatures, polled: set<Id>,
    tasks: Tasks, recovery: Recovery,
    issued: Pending, used: set<Id>, written: seq<(Id, Signature)>, finals: seq<(Id, Status)>, notes: seq<Id>)

  function Init(): State { State([], map[], [], {}, map[], Waiting, map[], {}, [], [], []) }

  datatype Step =
    | Poll(t: nat, job: Id)
    | Settle(t: nat, s: Settlement)
    | Commit(t: nat, stored: bool)
    | Notify(t: nat)
    | Untrack(t: nat)
    | Capture(t: nat, audit: Id, chunks: nat, signature: Option<Signature>)
    | Block(audit: Id)
    | Start(t: nat)
    | Post(t: nat, reply: Option<Id>)
    | Track(t: nat, stored: bool)
    | Register(t: nat, stored: bool, threw: bool)
    | Mark(t: nat)
    | Finish(t: nat)
    | Drop(t: nat)
    | Crash
    | ReadJobs
    | ReadAudits
    | Recover(t: nat, accepted: seq<Id>)
    | EndRecovery

  /** The ids of the pending jobs of a group, each once. */
  ghost predicate ListsJobs(pending: Pending, audit: Id, jobs: seq<Id>) {
    && (forall i, j :: 0 <= i < j < |jobs| ==> jobs[i] != jobs[j])
    && (forall j :: j in jobs <==> j in pending && pending[j].auditId == audit)
  }

  /** A server never issues a job id twice, and a fresh audit id is not the empty string. A job is polled only once it
      has a poller. */
  ghost predicate Enabled(s: State, step: Step) {
    match step
    case Poll(t, job) => t !in s.tasks && job in s.pending && job in s.polled
    case Settle(t, _) => t in s.tasks && s.tasks[t].Polled?
    case Commit(t, _) => t in s.tasks && s.tasks[t].Committing?
    case Notify(t) => t in s.tasks && s.tasks[t].Notifying?
    case Untrack(t) => t in s.tasks && s.tasks[t].Untracking?
    case Capture(t, audit, _, _) => t !in s.tasks && s.recovery.Recovered? && audit !in s.used && audit != []
    case Block(audit) => s.recovery.Recovered? && audit !in s.used && audit != []
    case Start(t) => t in s.tasks && s.tasks[t].Opening?
    case Post(t, reply) => t in s.tasks && s.tasks[t].Posting? && (reply.Some? ==> reply.value !in s.issued)
    case Track(t, _) => t in s.tasks && s.tasks[t].Tracking?
    case Register(t, _, _) => t in s.tasks && s.tasks[t].Registering?
    case Mark(t) => t in s.tasks && s.tasks[t].Marking?
    case Finish(t) => t in s.tasks && s.tasks[t].Finishing?
    case Drop(t) => t in s.tasks
    case Crash => true
    case ReadJobs => s.recovery.Waiting?
    case ReadAudits => s.recovery.HasJobs?
    case Recover(t, accepted) =>
      s.recovery.Working? && s.recovery.left != [] && t !in s.tasks && ListsJobs(s.recovery.pending, s.recovery.left[0].id, accepted)
    case EndRecovery => true
  }

  // ---- The parts of a step ----

  /** What recovery does with one audit that it read. */
  datatype Plan = Leave | Requeue(jobs: seq<Id>, submitted: nat) | Doubt(expected: nat, unconfirmed: seq<nat>)

  function Max(a: nat, b: nat): nat { if a > b then a else b }

  function PlanFor(a: Audit, accepted: seq<Id>): Plan {
    if a.status !in {Submitting, Queued} || a.submissionUncertain then Leave
    else
      var jobs := Union(a.jobIds, accepted);
      var count := Max(|jobs|, a.submitted);
      var expected := if a.expected > 0 then a.expected else count;
      if count >= expected then (if a.status == Submitting then Requeue(jobs, count) else Leave)
      else Doubt(expected, seq(expected - count, i => count + i + 1))
  }

  /** The one write to the audit list, if any. */
  datatype Edit = Keep | Add(added: Audit) | Put(id: Id, a: Audit)

  function Treated(a: Audit, plan: Plan, accepted: seq<Id>): Edit {
    match plan
    case Leave => Keep
    case Requeue(jobs, submitted) => Put(a.id, Enqueued(a, jobs, submitted))
    case Doubt(expected, unconfirmed) => Put(a.id, Marked(a, accepted, expected, unconfirmed))
  }

  function EditOf(s: State, step: Step): Edit
    requires Enabled(s, step)
  {
    match step
    case Settle(t, result) =>
      var job := s.tasks[t].job;
      if job !in s.issued then Keep
      else
        var info := s.issued[job];
        if CanSettle(s.audits, job, info) then Put(info.auditId, Settled(Open(s.audits, info.auditId).value, job, info, result))
        else Keep
    case Capture(_, audit, _, _) => Add(NewAudit(audit, Submitting))
    case Block(audit) => Add(NewAudit(audit, Blocked))
    case Start(t) =>
      var task := s.tasks[t];
      var open := Open(s.audits, task.audit);
      if open.None? then Keep
      else if task.chunks == 0 then Put(task.audit, FailedGroup(open.value, [], 0))
      else Put(task.audit, Started(open.value, task.signature, task.chunks))
    case Register(t, stored, _) =>
      var task := s.tasks[t];
      var open := Open(s.audits, task.audit);
      if open.None? || !stored then Keep else Put(task.audit, Registered(open.value, task.job, task.chunks))
    case Mark(t) =>
      var task := s.tasks[t];
      var open := Open(s.audits, task.audit);
      if open.None? || task.chunks < |task.jobs| then Keep
      else Put(task.audit, Marked(open.value, task.jobs, task.chunks, seq(task.chunks - |task.jobs|, i => |task.jobs| + i + 1)))
    case Finish(t) =>
      var task := s.tasks[t];
      var open := Open(s.audits, task.audit);
      if open.None? then Keep else Put(task.audit, Enqueued(open.value, task.jobs, |task.jobs|))
    case Recover(_, accepted) =>
      var read := s.recovery.left[0];
      var open := Open(s.audits, read.id);
      if open.None? then Keep
      else Treated(open.value, PlanFor(read, accepted), accepted)
    case _ => Keep
  }

  function Edited(audits: seq<Audit>, e: Edit): seq<Audit> {
    match e case Keep => audits case Add(a) => Prepend(audits, a) case Put(id, a) => Store(audits, id, a)
  }

  /** The terminal outcome that a settlement or a mark reports. */
  function FinalOf(s: State, step: Step): Option<(Id, Status)>
    requires Enabled(s, step)
  {
    var e := EditOf(s, step);
    if (step.Settle? || step.Mark? || step.Recover?) && e.Put? && IsTerminal(e.a.status) then Some((e.id, e.a.status)) else None
  }

  /** Where the task that takes the step goes next. */
  function Goes(s: State, step: Step): Option<Task>
    requires Enabled(s, step)
  {
    match step
    case Poll(_, job) => Some(Polled(job))
    case Settle(t, result) =>
      var job := s.tasks[t].job;
      if job !in s.issued then None
      else
        var info := s.issued[job];
        var final := FinalOf(s, step);
        var found := Find(s.audits, info.auditId);
        var replayed := info.auditId != [] && found.Some? && found.value.status == Success;
        if final.Some? then
          if final.value.1 == Success && info.signature.Some? then Some(Committing(job, true))
          else Some(Notifying(info.auditId, Some(job)))
        else if replayed && info.signature.Some? then Some(Committing(job, false))
        else Some(Untracking(job))
    case Commit(t, stored) =>
      var task := s.tasks[t];
      if task.job !in s.issued then None
      else if task.first then Some(Notifying(s.issued[task.job].auditId, if stored then Some(task.job) else None))
      else if stored then Some(Untracking(task.job))
      else None
    case Notify(t) => if s.tasks[t].release.Some? then Some(Untracking(s.tasks[t].release.value)) else None
    case Capture(_, audit, chunks, signature) => Some(Opening(audit, chunks, signature))
    case Start(t) =>
      var task := s.tasks[t];
      if task.chunks == 0 then None else Some(Posting(task.audit, task.chunks, task.signature, []))
    case Post(t, reply) =>
      var task := s.tasks[t];
      if reply.None? then Some(Marking(task.audit, task.chunks, task.jobs))
      else Some(Tracking(task.audit, task.chunks, task.signature, task.jobs, reply.value))
    case Track(t, stored) =>
      var task := s.tasks[t];
      if stored then Some(Registering(task.audit, task.chunks, task.signature, task.jobs, task.job))
      else Some(Marking(task.audit, task.chunks, task.jobs))
    case Register(t, stored, threw) =>
      var task := s.tasks[t];
      var jobs := task.jobs + [task.job];
      if !stored || threw then Some(Marking(task.audit, task.chunks, task.jobs))
      else if |jobs| < task.chunks then Some(Posting(task.audit, task.chunks, task.signature, jobs))
      else Some(Finishing(task.audit, jobs))
    case Mark(t) => if FinalOf(s, step).Some? then Some(Notifying(s.tasks[t].audit, None)) else None
    case Recover(t, _) => if FinalOf(s, step).Some? then Some(Notifying(s.recovery.left[0].id, None)) else None
    case _ => None
  }

  predicate HasTask(step: Step) {
    !step.Block? && !step.Crash? && !step.ReadJobs? && !step.ReadAudits? && !step.EndRecovery?
  }

  function TasksAfter(s: State, step: Step): Tasks
    requires Enabled(s, step)
  {
    if step.Crash? then map[]
    else if !HasTask(step) then s.tasks
    else if Goes(s, step).Some? then s.tasks[step.t := Goes(s, step).value]
    else s.tasks - {step.t}
  }

  function PendingAfter(s: State, step: Step): Pending
    requires Enabled(s, step)
  {
    match step
    case Track(t, stored) =>
      var job := s.tasks[t].job;
      if stored && job in s.issued then s.pending[job := s.issued[job]] else s.pending
    case Untrack(t) => s.pending - {s.tasks[t].job}
    case _ => s.pending
  }

  /** A job gets its poller when its registration has returned, and when a recovery has treated every audit that it
      read, which gives one to every receipt that it read. */
  function PolledAfter(s: State, step: Step): set<Id>
    requires Enabled(s, step)
  {
    match step
    case Register(t, stored, threw) => if stored && !threw then s.polled + {s.tasks[t].job} else s.polled
    case EndRecovery =>
      if s.recovery.Working? && s.recovery.left == [] then s.polled + s.recovery.pending.Keys else s.polled
    case _ => s.polled
  }

  function IssuedAfter(s: State, step: Step): Pending
    requires Enabled(s, step)
  {
    if step.Post? && step.reply.Some? then
      var task := s.tasks[step.t];
      s.issued[step.reply.value := JobInfo(task.audit, |task.jobs| + 1, task.chunks, task.signature)]
    else s.issued
  }

  /** The signature that a step writes. */
  function Writes(s: State, step: Step): Option<(Id, Signature)>
    requires Enabled(s, step)
  {
    if step.Commit? && step.stored && s.tasks[step.t].job in s.issued && s.issued[s.tasks[step.t].job].signature.Some? then
      var info := s.issued[s.tasks[step.t].job];
      Some((info.auditId, info.signature.value))
    else None
  }

  function RecoveryAfter(s: State, step: Step): Recovery
    requires Enabled(s, step)
  {
    match step
    case Crash => Waiting
    case ReadJobs => HasJobs(s.pending)
    case ReadAudits => Working(s.recovery.pending, s.audits)
    case Recover(_, _) => Working(s.recovery.pending, s.recovery.left[1..])
    case EndRecovery => Recovered
    case _ => s.recovery
  }

  function Taken(s: State, step: Step): State
    requires Enabled(s, step)
  {
    var writes := Writes(s, step);
    var final := FinalOf(s, step);
    State(
      Edited(s.audits, EditOf(s, step)), PendingAfter(s, step),
      if writes.Some? then Committed(s.signatures, writes.value.1) else s.signatures,
      PolledAfter(s, step),
      TasksAfter(s, step), RecoveryAfter(s, step),
      IssuedAfter(s, step),
      if step.Capture? || step.Block? then s.used + {step.audit} else s.used,
      if writes.Some? then s.written + [writes.value] else s.written,
      if final.Some? then s.finals + [final.value] else s.finals,
      if step.Notify? then s.notes + [s.tasks[step.t].audit] else s.notes)
  }

  /** A step that is not enabled does nothing. */
  ghost function After(s: State, step: Step): State { if Enabled(s, step) then Taken(s, step) else s }

  ghost function Exec(s: State, steps: seq<Step>): State
    decreases |steps|
  {
    if steps == [] then s else Exec(After(s, steps[0]), steps[1..])
  }
}
