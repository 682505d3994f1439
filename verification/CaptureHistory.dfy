/** The protocol seen by one group: its stored audit is what its history of registrations, settlements and marks
    comes to, so the order theorems hold of every reachable state. */
module CaptureHistory {
  import opened CaptureAudits
  import opened CaptureInvariant
  import opened CaptureProtocol
  import opened CaptureTheorems
  import opened Options
  import G = CaptureSettlement

  type History = seq<G.Event>

  /** The chunks after the confirmed ones. */
  function Unconfirmed(chunks: nat, confirmed: nat): seq<nat> {
    seq(if chunks < confirmed then 0 else chunks - confirmed, i => confirmed + i + 1)
  }

  function PlanEvent(plan: Plan, accepted: seq<Id>): History {
    match plan
    case Leave => []
    case Requeue(jobs, submitted) => [G.Enqueue(jobs, submitted)]
    case Doubt(_, unconfirmed) => [G.Mark(accepted, unconfirmed)]
  }

  /** What a step does to an open group. */
  function EventOf(s: State, step: Step, x: Id): History
    requires Enabled(s, step)
  {
    if Open(s.audits, x).None? then []
    else
      match step
      case Settle(t, result) =>
        var job := s.tasks[t].job;
        if job in s.issued && s.issued[job].auditId == x then [G.Settle(job, result)] else []
      case Register(t, stored, _) => if stored && s.tasks[t].audit == x then [G.Register(s.tasks[t].job)] else []
      case Mark(t) =>
        var task := s.tasks[t];
        if task.audit == x then [G.Mark(task.jobs, Unconfirmed(task.chunks, |task.jobs|))] else []
      case Finish(t) => if s.tasks[t].audit == x then [G.Enqueue(s.tasks[t].jobs, |s.tasks[t].jobs|)] else []
      case Recover(_, accepted) =>
        if s.recovery.left[0].id != x then []
        else PlanEvent(PlanFor(s.recovery.left[0], accepted), accepted)
      case _ => []
  }

  /** The history begins with the submission. */
  ghost function Heard(s: State, step: Step, x: Id, life: History): History {
    if !Enabled(s, step) then life
    else if step.Start? && s.tasks[step.t].audit == x then []
    else life + EventOf(s, step, x)
  }

  ghost function HistoryOf(s: State, steps: seq<Step>, x: Id, life: History): History
    decreases |steps|
  {
    if steps == [] then life else HistoryOf(After(s, steps[0]), steps[1..], x, Heard(s, steps[0], x, life))
  }

  // ---- A history whose every event found the group open ----

  ghost predicate Heeded(g: Audit, life: History) {
    life == [] || (Heeded(g, life[..|life|-1]) && !IsTerminal(G.Run(g, life[..|life|-1]).status))
  }

  lemma {:induction false} HeededMeaning(g: Audit, life: History)
    requires Heeded(g, life) && g.settled == [] && g.jobIds == [] && !g.submissionUncertain
    ensures var a := G.Run(g, life);
      && a.settled == G.Jobs(G.Firsts(life)) && a.jobIds == G.AcceptedBy(life)
      && (a.submissionUncertain <==> G.Marks(life) != [])
  {
    if life != [] {
      var init, e := life[..|life|-1], life[|life|-1];
      HeededMeaning(g, init);
      if e.Settle? { G.TallyOne(G.Firsts(init), (e.job, e.s), ChunkSuccess); }
    }
  }

  lemma HeededExtend(g: Audit, life: History, e: G.Event)
    requires Heeded(g, life) && !IsTerminal(G.Run(g, life).status)
    ensures Heeded(g, life + [e]) && G.Run(g, life + [e]) == G.Step(G.Run(g, life), e)
  {
    assert (life + [e])[..|life|] == life;
  }

  // ---- The invariant ----

  function GroupOf(a: Audit): Audit { G.Group(a.id, a.signature, a.expected) }

  ghost predicate Tells(a: Audit, life: History) {
    a == G.Run(GroupOf(a), life) && Heeded(GroupOf(a), life) && G.Tidy(life)
  }

  /** The stored audit of a started group is what its history comes to. */
  ghost predicate Told(s: State, x: Id, life: History) {
    var found := Find(s.audits, x);
    found.Some? && found.value.expected > 0 ==> Tells(found.value, life)
  }

  /** The event that a step adds, and what it makes of the open audit. */
  ghost predicate Does(s: State, step: Step, x: Id, was: Audit, n: Audit)
    requires Enabled(s, step)
  {
    var es := EventOf(s, step, x);
    if es == [] then n == was
    else
      && |es| == 1 && n == G.Step(was, es[0])
      && (!es[0].Settle? ==> !was.submissionUncertain)
      && (es[0].Mark? ==> es[0].unconfirmed != [])
  }

  /** The number of chunks in a receipt does not matter to a group that has its own. */
  lemma SettledAlike(a: Audit, job: Id, info: JobInfo, result: Settlement)
    requires a.expected > 0 && !IsTerminal(a.status)
    ensures G.Step(a, G.Settle(job, result)) == if job in a.settled then a else Settled(a, job, info, result)
  {
  }

  lemma SettleDoes(s: State, step: Step, x: Id)
    requires Sound(s) && Enabled(s, step) && step.Settle? && x in s.used
    requires Open(s.audits, x).Some? && Open(s.audits, x).value.expected > 0 && Find(Taken(s, step).audits, x).Some?
    ensures Does(s, step, x, Open(s.audits, x).value, Find(Taken(s, step).audits, x).value)
  {
    var job := s.tasks[step.t].job;
    EditTarget(s, step);
    StepMoves(s, step, x);
    if job in s.issued && s.issued[job].auditId == x {
      SettledAlike(Open(s.audits, x).value, job, s.issued[job], step.s);
    }
  }

  lemma MarkEvent(s: State, step: Step, x: Id)
    requires Sound(s) && Enabled(s, step) && step.Mark? && s.tasks[step.t].audit == x && Open(s.audits, x).Some?
    ensures var task := s.tasks[step.t];
      var rest := Unconfirmed(task.chunks, |task.jobs|);
      && EventOf(s, step, x) == [G.Mark(task.jobs, rest)] && rest != []
      && EditOf(s, step) == Put(x, Marked(Open(s.audits, x).value, task.jobs, task.chunks, rest))
      && Open(s.audits, x).value.expected == task.chunks && !Open(s.audits, x).value.submissionUncertain
  {
    var task := s.tasks[step.t];
    assert SubmitOk(s, task);
    assert Unconfirmed(task.chunks, |task.jobs|) == seq(task.chunks - |task.jobs|, i => |task.jobs| + i + 1);
  }

  lemma MarkDoes(s: State, step: Step, x: Id)
    requires Sound(s) && Enabled(s, step) && step.Mark?
    requires Open(s.audits, x).Some? && Open(s.audits, x).value.expected > 0 && Find(Taken(s, step).audits, x).Some?
    ensures Does(s, step, x, Open(s.audits, x).value, Find(Taken(s, step).audits, x).value)
  {
    StepMoves(s, step, x);
    if s.tasks[step.t].audit == x { MarkEvent(s, step, x); }
  }

  lemma RegisterDoes(s: State, step: Step, x: Id)
    requires Sound(s) && Enabled(s, step) && step.Register?
    requires Open(s.audits, x).Some? && Open(s.audits, x).value.expected > 0 && Find(Taken(s, step).audits, x).Some?
    ensures Does(s, step, x, Open(s.audits, x).value, Find(Taken(s, step).audits, x).value)
  {
    StepMoves(s, step, x);
    assert SubmitOk(s, s.tasks[step.t]);
  }

  lemma FinishDoes(s: State, step: Step, x: Id)
    requires Sound(s) && Enabled(s, step) && step.Finish?
    requires Open(s.audits, x).Some? && Open(s.audits, x).value.expected > 0 && Find(Taken(s, step).audits, x).Some?
    ensures Does(s, step, x, Open(s.audits, x).value, Find(Taken(s, step).audits, x).value)
  {
    StepMoves(s, step, x);
    assert SubmitOk(s, s.tasks[step.t]);
  }

  lemma TreatedDoes(was: Audit, read: Audit, accepted: seq<Id>)
    requires !IsTerminal(was.status) && was.expected > 0
    requires read.expected == was.expected && read.submissionUncertain == was.submissionUncertain
    ensures var es, e := PlanEvent(PlanFor(read, accepted), accepted), Treated(was, PlanFor(read, accepted), accepted);
      if es == [] then e.Keep?
      else |es| == 1 && e == Put(was.id, G.Step(was, es[0])) && !was.submissionUncertain && (es[0].Mark? ==> es[0].unconfirmed != [])
  {
  }

  lemma RecoverDoes(s: State, step: Step, x: Id)
    requires Sound(s) && Enabled(s, step) && step.Recover? && x in s.used
    requires Open(s.audits, x).Some? && Open(s.audits, x).value.expected > 0 && Find(Taken(s, step).audits, x).Some?
    ensures Does(s, step, x, Open(s.audits, x).value, Find(Taken(s, step).audits, x).value)
  {
    var read := s.recovery.left[0];
    StepMoves(s, step, x);
    FindId(s.audits, x);
    FindId(s.audits, read.id);
    assert StillCurrent(s, read);
    if read.id == x { TreatedDoes(Open(s.audits, x).value, read, step.accepted); }
  }

  lemma StepDoes(s: State, step: Step, x: Id)
    requires Sound(s) && Enabled(s, step) && x in s.used && !(step.Start? && s.tasks[step.t].audit == x)
    requires Open(s.audits, x).Some? && Open(s.audits, x).value.expected > 0 && Find(Taken(s, step).audits, x).Some?
    ensures Does(s, step, x, Open(s.audits, x).value, Find(Taken(s, step).audits, x).value)
  {
    if step.Settle? { SettleDoes(s, step, x); }
    else if step.Mark? { MarkDoes(s, step, x); }
    else if step.Register? { RegisterDoes(s, step, x); }
    else if step.Finish? { FinishDoes(s, step, x); }
    else if step.Recover? { RecoverDoes(s, step, x); }
    else {
      EditTarget(s, step);
      StepMoves(s, step, x);
    }
  }

  /** A group without a number of chunks is left without one by recovery. */
  lemma TreatedUnstarted(was: Audit, read: Audit, accepted: seq<Id>)
    requires was.expected == 0 && read.expected == 0
    ensures var e := Treated(was, PlanFor(read, accepted), accepted); e.Put? ==> e.a.expected == 0
  {
  }

  lemma RecoverStarted(s: State, step: Step, x: Id)
    requires Sound(s) && Enabled(s, step) && step.Recover? && x in s.used
    requires Find(Taken(s, step).audits, x).Some? && Find(Taken(s, step).audits, x).value.expected > 0
    ensures Find(s.audits, x).Some? && Find(s.audits, x).value.expected > 0
  {
    var read := s.recovery.left[0];
    EditTarget(s, step);
    StepMoves(s, step, x);
    FindId(s.audits, read.id);
    assert StillCurrent(s, read);
    if read.id == x && Find(s.audits, x).Some? && Find(s.audits, x).value.expected == 0 {
      TreatedUnstarted(Find(s.audits, x).value, read, step.accepted);
    }
  }

  /** Only its start gives a group its number of chunks. */
  lemma StartedBefore(s: State, step: Step, x: Id)
    requires Sound(s) && Enabled(s, step) && x in s.used && !(step.Start? && s.tasks[step.t].audit == x)
    requires Find(Taken(s, step).audits, x).Some? && Find(Taken(s, step).audits, x).value.expected > 0
    ensures Find(s.audits, x).Some? && Find(s.audits, x).value.expected > 0
  {
    if step.Recover? {
      RecoverStarted(s, step, x);
    } else {
      EditTarget(s, step);
      StepMoves(s, step, x);
      if step.Register? || step.Mark? || step.Finish? { assert SubmitOk(s, s.tasks[step.t]); }
    }
  }

  lemma StartTells(s: State, step: Step, x: Id)
    requires Sound(s) && Enabled(s, step) && step.Start? && s.tasks[step.t].audit == x
    ensures Told(Taken(s, step), x, [])
  {
    assert SubmitOk(s, s.tasks[step.t]);
    StepMoves(s, step, x);
  }

  /** One more event on an audit that its history tells. */
  lemma TellsMore(was: Audit, n: Audit, life: History, e: G.Event)
    requires Tells(was, life) && !IsTerminal(was.status) && n == G.Step(was, e)
    requires !e.Settle? ==> !was.submissionUncertain
    requires e.Mark? ==> e.unconfirmed != []
    ensures Tells(n, life + [e])
  {
    HeededExtend(GroupOf(was), life, e);
    HeededMeaning(GroupOf(was), life);
    assert GroupOf(n) == GroupOf(was);
    assert (life + [e])[..|life|] == life;
  }

  lemma ToldKept(s: State, step: Step, x: Id, life: History)
    requires Sound(s) && Enabled(s, step) && Told(s, x, life)
    ensures Told(Taken(s, step), x, Heard(s, step, x, life))
  {
    var found := Find(Taken(s, step).audits, x);
    if step.Start? && s.tasks[step.t].audit == x {
      StartTells(s, step, x);
    } else if found.Some? && found.value.expected > 0 {
      EditTarget(s, step);
      StepMoves(s, step, x);
      if x in s.used {
        StartedBefore(s, step, x);
        TellsStep(s, step, x, life);
      }
    }
  }

  lemma EndedStays(s: State, step: Step, x: Id)
    requires Enabled(s, step) && x in s.used && Find(s.audits, x).Some? && IsTerminal(Find(s.audits, x).value.status)
    ensures EventOf(s, step, x) == []
    ensures Find(Taken(s, step).audits, x).Some? ==> Find(Taken(s, step).audits, x) == Find(s.audits, x)
  {
    EditTarget(s, step);
    StepMoves(s, step, x);
  }

  lemma TellsStep(s: State, step: Step, x: Id, life: History)
    requires Sound(s) && Enabled(s, step) && x in s.used && !(step.Start? && s.tasks[step.t].audit == x)
    requires Find(s.audits, x).Some? && Tells(Find(s.audits, x).value, life) && Find(s.audits, x).value.expected > 0
    requires Find(Taken(s, step).audits, x).Some?
    ensures Tells(Find(Taken(s, step).audits, x).value, life + EventOf(s, step, x))
  {
    var was, n := Find(s.audits, x).value, Find(Taken(s, step).audits, x).value;
    assert life + [] == life;
    if IsTerminal(was.status) {
      EndedStays(s, step, x);
    } else {
      StepDoes(s, step, x);
      var es := EventOf(s, step, x);
      if es != [] {
        assert es == [es[0]];
        TellsMore(was, n, life, es[0]);
      }
    }
  }

  lemma {:induction false} ToldRun(s: State, steps: seq<Step>, x: Id, life: History)
    requires Sound(s) && Told(s, x, life)
    ensures Told(Exec(s, steps), x, HistoryOf(s, steps, x, life))
    decreases |steps|
  {
    if steps != [] {
      if Enabled(s, steps[0]) {
        SoundKept(s, steps[0]);
        ToldKept(s, steps[0], x, life);
      }
      ToldRun(After(s, steps[0]), steps[1..], x, Heard(s, steps[0], x, life));
    }
  }

  // ---- The theorems, over every run ----

  /** In every reachable state the audit of a started group is what its history comes to: its settled jobs are the
      first outcomes, its job ids the accepted jobs, and it is uncertain exactly when a mark has come. */
  lemma HistoryTells(steps: seq<Step>, x: Id, a: Audit)
    requires Find(Exec(Init(), steps).audits, x) == Some(a) && a.expected > 0
    ensures var life := HistoryOf(Init(), steps, x, []);
      && a == G.Run(G.Group(x, a.signature, a.expected), life) && G.Tidy(life)
      && a.settled == G.Jobs(G.Firsts(life)) && a.jobIds == G.AcceptedBy(life)
      && (a.submissionUncertain <==> G.Marks(life) != [])
  {
    SafeInit();
    ToldRun(Init(), steps, x, []);
    FindId(Exec(Init(), steps).audits, x);
    HeededMeaning(GroupOf(a), HistoryOf(Init(), steps, x, []));
  }

  lemma {:induction false} BeforeMarkOpen(g: Audit, life: History)
    requires Heeded(g, life) && G.Tidy(life) && G.Marks(life) != []
    ensures var b := G.BeforeMark(life);
      && !IsTerminal(G.Run(g, b).status) && G.Tidy(b) && G.Marks(b) == []
      && |G.Firsts(b)| <= |G.Firsts(life)|
  {
    var init := life[..|life|-1];
    if G.Marks(init) != [] { BeforeMarkOpen(g, init); }
  }

  /** A heeded history is covered once its settled jobs are no more than the chunks and, after a mark, accepted. */
  lemma HeededCovered(a: Audit, life: History)
    requires Tells(a, life) && 0 < a.expected && |a.settled| <= a.expected
    requires a.submissionUncertain ==> forall j :: j in a.settled ==> j in a.jobIds
    ensures G.Covered(a.expected, life)
  {
    HeededMeaning(GroupOf(a), life);
    G.JobsIndex(G.Firsts(life), []);
    if G.Marks(life) != [] {
      BeforeMarkOpen(GroupOf(a), life);
      G.RunHolds(a.id, a.signature, a.expected, G.BeforeMark(life));
    }
  }
}
