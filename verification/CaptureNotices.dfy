/** What is reported is shown: in a run that loses no task, every group that ends has its outcome shown, or a task
    that is on its way to show it. */
module CaptureNotices {
  import opened CaptureAudits
  import opened CaptureInvariant
  import opened CaptureProtocol
  import opened CaptureTheorems

  /** The task shows the outcome of the group next, or right after the write of its signature. */
  predicate WillShow(s: State, t: Task, x: Id) {
    || (t.Notifying? && t.audit == x)
    || (t.Committing? && t.first && t.job in s.issued && s.issued[t.job].auditId == x)
  }

  ghost predicate Coming(s: State, x: Id) { exists t :: t in s.tasks && WillShow(s, s.tasks[t], x) }

  /** A step that reports an outcome leaves its own task with the outcome to show. */
  lemma ReportGoesOn(s: State, step: Step, x: Id, status: Status)
    requires Safe(s) && Enabled(s, step) && Taken(s, step).finals == s.finals + [(x, status)]
    ensures var n := Taken(s, step); HasTask(step) && step.t in n.tasks && WillShow(n, n.tasks[step.t], x)
  {
    var n := Taken(s, step);
    assert |n.finals| == |s.finals| + 1;
    assert n.finals[|s.finals|] == (x, status);
    EditTarget(s, step);
    if step.Settle? { assert PollOk(s, s.tasks[step.t]); }
    if step.Recover? { FindId(s.audits, s.recovery.left[0].id); }
  }

  /** A group ended after its submission had started: the others that end are blocked, or without any text. */
  ghost predicate EndedWithText(s: State, x: Id) {
    var found := Find(s.audits, x);
    found.Some? && found.value.status in {Success, Failed, Partial, Uncertain} && found.value.expected > 0
  }

  /** What ends a group with text reports it. */
  lemma EndIsReported(s: State, step: Step, x: Id)
    requires Sound(s) && Enabled(s, step) && EndedWithText(Taken(s, step), x) && !EndedWithText(s, x)
    ensures Taken(s, step).finals == s.finals + [(x, Find(Taken(s, step).audits, x).value.status)]
  {
    EditTarget(s, step);
    StepMoves(s, step, x);
    if EditOf(s, step).Put? { EditSettled(s, step); }
  }

  /** Every reported group, and every stored one that ended with text, is shown or about to be. */
  ghost predicate NoneForgotten(s: State) {
    forall x :: HasFinal(s.finals, x) || EndedWithText(s, x) ==> x in s.notes || Coming(s, x)
  }

  lemma ShowFrame(s: State, step: Step, x: Id, t: nat)
    requires Safe(s) && Enabled(s, step) && t in s.tasks && WillShow(s, s.tasks[t], x) && !step.Crash? && !step.Drop?
    ensures var n := Taken(s, step); x in n.notes || (t in n.tasks && WillShow(n, n.tasks[t], x))
  {
    var n := Taken(s, step);
    if HasTask(step) && step.t == t {
      if step.Notify? { assert n.notes[|s.notes|] == x; }
    } else {
      RightFrame(s, step, s.tasks[t]);
    }
  }

  lemma WasReported(s: State, step: Step, x: Id)
    requires Enabled(s, step) && HasFinal(Taken(s, step).finals, x) && !HasFinal(s.finals, x)
    ensures FinalOf(s, step).Some? && Taken(s, step).finals == s.finals + [(x, FinalOf(s, step).value.1)]
  {
    var n := Taken(s, step);
    var i :| 0 <= i < |n.finals| && n.finals[i].0 == x;
    if i < |s.finals| { assert s.finals[i].0 == x; }
  }

  lemma NotForgotten(s: State, step: Step, x: Id)
    requires Safe(s) && NoneForgotten(s) && Enabled(s, step) && !step.Crash? && !step.Drop?
    requires HasFinal(Taken(s, step).finals, x) || EndedWithText(Taken(s, step), x)
    ensures x in Taken(s, step).notes || Coming(Taken(s, step), x)
  {
    var n := Taken(s, step);
    if HasFinal(s.finals, x) || EndedWithText(s, x) {
      if x in s.notes {
      } else {
        var t :| t in s.tasks && WillShow(s, s.tasks[t], x);
        ShowFrame(s, step, x, t);
      }
    } else if EndedWithText(n, x) {
      EndIsReported(s, step, x);
      ReportGoesOn(s, step, x, Find(n.audits, x).value.status);
    } else {
      WasReported(s, step, x);
      ReportGoesOn(s, step, x, FinalOf(s, step).value.1);
    }
  }

  lemma {:induction false} NoneForgottenRun(s: State, steps: seq<Step>)
    requires Safe(s) && NoneForgotten(s) && forall i :: 0 <= i < |steps| ==> !steps[i].Crash? && !steps[i].Drop?
    ensures NoneForgotten(Exec(s, steps))
    decreases |steps|
  {
    if steps != [] {
      var step := steps[0];
      var n := After(s, step);
      if Enabled(s, step) {
        SafeKept(s, step);
        forall x | HasFinal(n.finals, x) || EndedWithText(n, x) ensures x in n.notes || Coming(n, x) {
          NotForgotten(s, step, x);
        }
      }
      NoneForgottenRun(n, steps[1..]);
    }
  }

  /** In a run without a crash and without a dropped task, every reported group and every stored group that ended
      with text is shown, or some task is on its way to show it; with no task left, all of them are shown. */
  lemma EveryEndIsShown(steps: seq<Step>, x: Id)
    requires forall i :: 0 <= i < |steps| ==> !steps[i].Crash? && !steps[i].Drop?
    requires HasFinal(Exec(Init(), steps).finals, x) || EndedWithText(Exec(Init(), steps), x)
    ensures var s := Exec(Init(), steps);
      && (x in s.notes || exists t :: t in s.tasks && WillShow(s, s.tasks[t], x))
      && (s.tasks == map[] ==> x in s.notes)
  {
    SafeInit();
    NoneForgottenRun(Init(), steps);
    assert NoneForgotten(Exec(Init(), steps));
  }
}
