/** Exactly when the order in which the jobs of a group are polled can show in what the group comes to. */
module CaptureRisk {
  import opened CaptureAudits
  import opened CaptureInvariant
  import opened CaptureOrder
  import opened CaptureProtocol
  import opened CaptureRestart
  import opened CaptureSubmission
  import opened CaptureTheorems
  import opened CaptureTracking
  import opened Options
  import opened Sorting
  import G = CaptureSettlement
  import H = CaptureHistory

  // ---- A group at risk ----

  /** An open group at risk: a receipt waits whose job is not accepted, an accepted job is still due, and recovery
      would leave the group as it is, because it is marked or has a job for every chunk. */
  predicate AtRisk(v: View) {
    Live(v) && IsOpen(v.audit.value) &&
    var a := v.audit.value;
    && v.pending - Elements(a.jobIds) - Elements(a.settled) != {}
    && Elements(a.jobIds) - Elements(a.settled) != {}
    && (a.submissionUncertain || |Elements(a.jobIds) + v.pending| >= a.expected)
  }

  /** No submission of the group is under way. */
  ghost predicate Over(s: State, x: Id) {
    forall t :: t in s.tasks && Submits(s.tasks[t]) ==> s.tasks[t].audit != x
  }

  /** Two continuations in which the submission goes the same way and every job gets the same first answer, and which
      bring the group to different ends. */
  ghost predicate Differ(s: State, x: Id, o: Seen, p: seq<Step>, q: seq<Step>) {
    var m, n := Exec(s, p), Exec(s, q);
    && Live(ViewOf(m, x)) && Live(ViewOf(n, x))
    && SeenOf(s, p, x, o).log == SeenOf(s, q, x, o).log && SeenOf(s, p, x, o).answers == SeenOf(s, q, x, o).answers
    && !G.ComesToTheSame(Find(m.audits, x).value, Find(n.audits, x).value)
  }

  ghost predicate OrderShows(s: State, x: Id, o: Seen) { exists p, q :: Differ(s, x, o, p, q) }

  // ---- Without risk nothing settles early ----

  lemma AllReceiptsKnown(v: View, u: Progress)
    requires Live(v) && Core(v, u) && IsOpen(v.audit.value)
    ensures Elements(v.audit.value.jobIds) + v.pending == u.receipts && Elements(v.audit.value.settled) <= Elements(v.audit.value.jobIds)
    ensures |v.audit.value.settled| == |Elements(v.audit.value.settled)| && |v.audit.value.jobIds| == |Elements(v.audit.value.jobIds)|
  {
    var a := v.audit.value;
    ElementsSize(a.settled);
    ElementsSize(a.jobIds);
    forall j | j in u.receipts ensures j in Elements(a.jobIds) + v.pending {
      if j !in v.pending { assert j in Elements(a.settled); }
    }
  }

  lemma SomeLeft(s: set<Id>, t: set<Id>)
    requires s <= t && |s| < |t|
    ensures t - s != {}
  {
    assert t == s + (t - s);
  }

  /** A job that can settle early puts its group at risk. */
  lemma EarlyIsRisk(v: View, u: Progress, job: Id)
    requires Live(v) && Core(v, u) && IsOpen(v.audit.value) && job in v.polled
    requires var a := v.audit.value;
      job !in a.settled && job !in a.jobIds && (a.submissionUncertain || |a.settled| + 1 < a.expected)
    ensures AtRisk(v)
  {
    var a := v.audit.value;
    AllReceiptsKnown(v, u);
    assert job in u.receipts && job !in u.accepted && job in v.pending;
    assert job in v.pending - Elements(a.jobIds) - Elements(a.settled);
    SomeLeft(Elements(a.settled), Elements(a.jobIds));
  }

  lemma EarlyStepIsRisk(s: State, step: Step, x: Id, u: Progress)
    requires Safe(s) && Tracked(s, x, u) && Enabled(s, step) && Early(s, step, x) && Live(ViewOf(s, x))
    ensures AtRisk(ViewOf(s, x))
  {
    assert PollOk(s, s.tasks[step.t]);
    EarlyIsRisk(ViewOf(s, x), u, s.tasks[step.t].job);
  }

  /** A group with fewer receipts and more settled jobs is at no more risk. */
  lemma LessRisk(v: View, n: View)
    requires Live(v) && Live(n) && n.pending <= v.pending
    requires n.audit.value.jobIds == v.audit.value.jobIds && Elements(v.audit.value.settled) <= Elements(n.audit.value.settled)
    requires n.audit.value.submissionUncertain == v.audit.value.submissionUncertain && n.audit.value.expected == v.audit.value.expected
    requires IsOpen(n.audit.value) ==> IsOpen(v.audit.value)
    ensures AtRisk(n) ==> AtRisk(v)
  {
    SubsetSize(Elements(n.audit.value.jobIds) + n.pending, Elements(v.audit.value.jobIds) + v.pending);
  }

  /** With every receipt named there is no risk. */
  lemma NamedNoRisk(v: View)
    requires Live(v) && v.pending <= Elements(v.audit.value.jobIds)
    ensures !AtRisk(v)
  {
  }

  /** Recovery leaves an audit as it is, or names every receipt that it read. */
  lemma RevisitNames(a: Audit, read: Audit, accepted: seq<Id>)
    ensures var n := TreatedAudit(a, read, accepted); n == a || Elements(accepted) <= Elements(n.jobIds)
  {
    UnionIs(read.jobIds, accepted);
    UnionIs(a.jobIds, accepted);
  }

  lemma RevisitRisk(v: View, u: Progress, p: Pending, x: Id, read: Audit, accepted: seq<Id>)
    requires Live(v) && Snapshot(p, x, v, u) && Elements(accepted) == JobsIn(p, x)
    ensures var n := v.(audit := Some(TreatedAudit(v.audit.value, read, accepted))); Live(n) && AtRisk(n) ==> AtRisk(v)
  {
    var n := v.(audit := Some(TreatedAudit(v.audit.value, read, accepted)));
    RevisitNames(v.audit.value, read, accepted);
    if n != v && Live(n) { NamedNoRisk(n); }
  }

  /** Between the submission of a group and its end nothing brings new risk. */
  ghost predicate Calm(s: State, x: Id) { Over(s, x) && !AtRisk(ViewOf(s, x)) && x in s.used }

  lemma OverKept(s: State, step: Step, x: Id)
    requires Sound(s) && Enabled(s, step) && Over(s, x) && x in s.used
    ensures Over(Taken(s, step), x) && x in Taken(s, step).used
  {
    var m := Taken(s, step);
    forall t | t in m.tasks && Submits(m.tasks[t]) ensures m.tasks[t].audit != x {
      if m.tasks[t].audit == x { TasksAfterStep(s, step, x, t); }
    }
  }

  lemma NotOwn(s: State, step: Step, x: Id)
    requires Enabled(s, step) && Over(s, x)
    ensures !Own(s, step, x)
  {
  }

  lemma SettleRisk(s: State, step: Step, x: Id)
    requires Safe(s) && Orderly(s) && Enabled(s, step) && step.Settle? && Live(ViewOf(s, x)) && Live(ViewOf(Taken(s, step), x))
    requires !Own(s, step, x)
    ensures AtRisk(ViewOf(Taken(s, step), x)) ==> AtRisk(ViewOf(s, x))
  {
    var v, n := ViewOf(s, x), ViewOf(Taken(s, step), x);
    SameSets(s, step, x);
    EditTarget(s, step);
    StepMoves(s, step, x);
    LessRisk(v, n);
  }

  lemma RecoverOwnRisk(s: State, step: Step, x: Id, u: Progress)
    requires Safe(s) && Orderly(s) && Tracked(s, x, u) && Enabled(s, step) && step.Recover? && s.recovery.left[0].id == x
    requires Live(ViewOf(s, x)) && Live(ViewOf(Taken(s, step), x))
    ensures AtRisk(ViewOf(Taken(s, step), x)) ==> AtRisk(ViewOf(s, x))
  {
    var read := s.recovery.left[0];
    RecoverView(s, step, x);
    assert Elements(step.accepted) == JobsIn(s.recovery.pending, x);
    RevisitRisk(ViewOf(s, x), u, s.recovery.pending, x, read, step.accepted);
  }

  /** No other step writes the audit of the group. */
  lemma ElsewhereAudit(s: State, step: Step, x: Id)
    requires Sound(s) && Enabled(s, step) && !step.Settle? && !Own(s, step, x) && x in s.used
    requires step.Recover? ==> s.recovery.left[0].id != x
    requires Find(Taken(s, step).audits, x).Some?
    ensures Find(Taken(s, step).audits, x) == Find(s.audits, x)
  {
    EditTarget(s, step);
    StepMoves(s, step, x);
    if step.Recover? { FindId(s.audits, s.recovery.left[0].id); }
  }

  lemma ElsewhereRisk(s: State, step: Step, x: Id)
    requires Safe(s) && Orderly(s) && Enabled(s, step) && !step.Settle? && !Own(s, step, x) && x in s.used
    requires step.Recover? ==> s.recovery.left[0].id != x
    requires Live(ViewOf(s, x)) && Live(ViewOf(Taken(s, step), x))
    ensures AtRisk(ViewOf(Taken(s, step), x)) ==> AtRisk(ViewOf(s, x))
  {
    NoTrack(s, step, x);
    PendingAfterStep(s, step, x);
    ElsewhereAudit(s, step, x);
    LessRisk(ViewOf(s, x), ViewOf(Taken(s, step), x));
  }

  lemma NoTrack(s: State, step: Step, x: Id)
    requires Enabled(s, step) && !Own(s, step, x)
    ensures step.Track? ==> s.tasks[step.t].audit != x
  {
  }

  lemma CalmKept(s: State, step: Step, x: Id, u: Progress)
    requires Safe(s) && Orderly(s) && Tracked(s, x, u) && Enabled(s, step) && Calm(s, x) && Live(ViewOf(s, x))
    ensures !Early(s, step, x) && Calm(Taken(s, step), x)
  {
    if Early(s, step, x) { EarlyStepIsRisk(s, step, x, u); }
    OverKept(s, step, x);
    NotOwn(s, step, x);
    if Live(ViewOf(Taken(s, step), x)) {
      if step.Settle? { SettleRisk(s, step, x); }
      else if step.Recover? && s.recovery.left[0].id == x { RecoverOwnRisk(s, step, x, u); }
      else { ElsewhereRisk(s, step, x); }
    }
  }

  /** A group that has gone from the list, or was never started, has no early settlement. */
  lemma GoneKept(s: State, step: Step, x: Id)
    requires Safe(s) && Orderly(s) && Enabled(s, step) && Over(s, x) && x in s.used && !Live(ViewOf(s, x))
    ensures Over(Taken(s, step), x) && x in Taken(s, step).used && !Live(ViewOf(Taken(s, step), x))
  {
    OverKept(s, step, x);
    NotOwn(s, step, x);
    if Live(ViewOf(Taken(s, step), x)) { LiveBefore(s, step, x); }
  }

  lemma {:induction false} CalmRun(s: State, steps: seq<Step>, x: Id, o: Seen, life: H.History)
    requires Followed(s, x, o, life) && o.prompt && Over(s, x) && x in s.used && (Live(ViewOf(s, x)) ==> Calm(s, x))
    ensures Live(ViewOf(Exec(s, steps), x)) ==> SeenOf(s, steps, x, o).prompt
    decreases |steps|
  {
    if steps != [] {
      var step, n := steps[0], After(s, steps[0]);
      if Enabled(s, step) && !Live(ViewOf(s, x)) {
        GoneRun(s, steps, x);
      } else {
        if Enabled(s, step) {
          CalmKept(s, step, x, ProgressOf(o.log));
          FollowedKept(s, step, x, o, life);
        }
        CalmRun(n, steps[1..], x, See(s, step, x, o), H.Heard(s, step, x, life));
      }
    }
  }

  lemma {:induction false} GoneRun(s: State, steps: seq<Step>, x: Id)
    requires Safe(s) && Orderly(s) && Over(s, x) && x in s.used && !Live(ViewOf(s, x))
    ensures !Live(ViewOf(Exec(s, steps), x))
    decreases |steps|
  {
    if steps != [] {
      if Enabled(s, steps[0]) {
        GoneKept(s, steps[0], x);
        SafeOne(s, steps[0]);
      }
      GoneRun(After(s, steps[0]), steps[1..], x);
    }
  }

  lemma CalmHides(s: State, x: Id, a: Audit, o: Seen, life: H.History, p: seq<Step>, q: seq<Step>)
    requires Stands(s, x, a, o, life) && Calm(s, x)
    ensures !Differ(s, x, o, p, q)
  {
    if Differ(s, x, o, p, q) {
      var m, n := Exec(s, p), Exec(s, q);
      CalmRun(s, p, x, o, life);
      CalmRun(s, q, x, o, life);
      FollowedRun(s, p, x, o, life);
      FollowedRun(s, q, x, o, life);
      StandAlike(m, Find(m.audits, x).value, SeenOf(s, p, x, o), H.HistoryOf(s, p, x, life),
                 n, Find(n.audits, x).value, SeenOf(s, q, x, o), H.HistoryOf(s, q, x, life), x);
    }
  }

  // ---- Out of risk, two orders ----

  /** Recovery leaves a group at risk alone. */
  lemma RiskIsLeft(v: View, u: Progress, accepted: seq<Id>)
    requires Steady(v, u) && AtRisk(v) && Elements(accepted) == v.pending
    ensures TreatedAudit(v.audit.value, v.audit.value, accepted) == v.audit.value
  {
    var a := v.audit.value;
    UnionIs(a.jobIds, accepted);
    ElementsSize(Union(a.jobIds, accepted));
    assert a.submissionUncertain || a.status == Queued;
  }

  ghost predicate Steady(v: View, u: Progress) { Live(v) && Core(v, u) && |v.issued| <= v.audit.value.expected }

  /** A restarted worker that holds the receipts of the group, all of them polled. */
  ghost predicate Restarted(n: State, x: Id, v: View) {
    && Safe(n) && Orderly(n) && Idle(n) && Find(n.audits, x) == v.audit
    && JobsIn(n.issued, x) == v.issued && JobsIn(n.pending, x) == v.pending && v.pending <= n.polled
  }

  lemma ReceiptsOf(s: State, x: Id)
    requires Sound(s)
    ensures JobsIn(s.pending, x) == ViewOf(s, x).pending && ViewOf(s, x).pending <= s.pending.Keys
  {
  }

  lemma SteadyStands(s: State, x: Id, a: Audit, o: Seen, life: H.History)
    requires Stands(s, x, a, o, life)
    ensures Steady(ViewOf(s, x), ProgressOf(o.log)) && Safe(s) && Orderly(s) && ViewOf(s, x).audit == Some(a)
  {
    StandsCore(s, x, a, o, life);
  }

  lemma RestartAtRisk(s: State, x: Id, u: Progress, o: Seen) returns (steps: seq<Step>, n: State, w: Seen)
    requires Safe(s) && Orderly(s) && Steady(ViewOf(s, x), u) && AtRisk(ViewOf(s, x))
    ensures Leads(s, steps, n, x, o, w) && Restarted(n, x, ViewOf(s, x))
  {
    var accepted;
    steps, n, w, accepted := RestartLeads(s, x, o);
    ReceiptsOf(s, x);
    RiskIsLeft(ViewOf(s, x), u, accepted);
  }

  lemma DifferLater(s: State, r: seq<Step>, n: State, x: Id, o: Seen, w: Seen, p: seq<Step>, q: seq<Step>)
    requires Leads(s, r, n, x, o, w) && Differ(n, x, w, p, q)
    ensures Differ(s, x, o, r + p, r + q)
  {
    ExecConcat(s, r, p);
    ExecConcat(s, r, q);
    SeenConcat(s, r, p, x, o);
    SeenConcat(s, r, q, x, o);
  }

  lemma PendingOfGroup(n: State, x: Id, v: View, job: Id)
    requires Restarted(n, x, v) && job in v.pending
    ensures job in n.pending && job in n.polled && job in JobsIn(n.issued, x) && n.issued[job] == n.pending[job]
  {
    assert job in JobsIn(n.pending, x);
  }

  // ---- A marked group: the job outside counts, or comes too late ----

  function OnlyOne(k: Id): Id -> Settlement { j => Settlement(ChunkSuccess, if j == k then 1 else 0, 0) }

  lemma {:induction false} OutsideFirst(a: Audit, k: Id, rest: seq<Id>, issued: Pending)
    requires IsOpen(a) && k !in a.settled && k in issued
    ensures SettledAll(a, [k] + rest, issued, OnlyOne(k)).entities >= a.entities + 1
    ensures SettledAll(a, [k] + rest, issued, OnlyOne(k)).expected == a.expected
    decreases |rest|
  {
    var jobs := [k] + rest;
    if rest == [] {
      assert jobs == [k] && jobs[..0] == [];
    } else {
      assert jobs[..|jobs|-1] == [k] + rest[..|rest|-1];
      OutsideFirst(a, k, rest[..|rest|-1], issued);
    }
  }

  /** What polls of the accepted jobs leave of a marked group. */
  ghost predicate Emptied(a: Audit, n: Audit, jobs: set<Id>) {
    && n.entities == a.entities && n.submissionUncertain && n.jobIds == a.jobIds && n.submitted == a.submitted
    && n.expected == a.expected && n.uncertainChunks == a.uncertainChunks
    && Distinct(n.settled) && EndsInTime(n) && (IsOpen(n) ==> Elements(n.settled) == Elements(a.settled) + jobs)
  }

  lemma EmptiedMore(a: Audit, n: Audit, jobs: set<Id>, job: Id, info: JobInfo, k: Id)
    requires Emptied(a, n, jobs) && a.submitted == |a.jobIds| && a.uncertainChunks > 0 && job != k
    ensures Emptied(a, SettledBy(n, job, info, OnlyOne(k)(job)), jobs + {job})
  {
    if IsOpen(n) && job !in n.settled {
      AppendElements(n.settled, job);
    } else if IsOpen(n) {
      assert job in Elements(n.settled);
    }
  }

  lemma {:induction false} RestFirst(a: Audit, k: Id, rest: seq<Id>, issued: Pending)
    requires a.submissionUncertain && Distinct(a.settled) && EndsInTime(a) && a.submitted == |a.jobIds| && a.uncertainChunks > 0
    requires k !in rest && forall j :: j in rest ==> j in issued
    ensures Emptied(a, SettledAll(a, rest, issued, OnlyOne(k)), Elements(rest))
    decreases |rest|
  {
    if rest == [] {
      assert Elements(a.settled) + Elements(rest) == Elements(a.settled);
    } else {
      var init, last := rest[..|rest|-1], rest[|rest|-1];
      assert rest == init + [last];
      RestFirst(a, k, init, issued);
      EmptiedMore(a, SettledAll(a, init, issued, OnlyOne(k)), Elements(init), last, issued[last], k);
      AppendElements(init, last);
    }
  }

  lemma OutsideLast(a: Audit, k: Id, rest: seq<Id>, issued: Pending)
    requires a.submissionUncertain && Distinct(a.settled) && EndsInTime(a) && a.submitted == |a.jobIds| && a.uncertainChunks > 0
    requires k in issued && k !in rest && forall j :: j in rest ==> j in issued
    requires Distinct(a.jobIds) && Elements(a.jobIds) <= Elements(a.settled) + Elements(rest)
    ensures var n := SettledAll(a, rest + [k], issued, OnlyOne(k)); n.entities == a.entities && n.expected == a.expected
  {
    RestFirst(a, k, rest, issued);
    var n := SettledAll(a, rest, issued, OnlyOne(k));
    SettledAllMore(a, rest, k, issued, OnlyOne(k));
    if IsOpen(n) {
      FewerSettled(a.jobIds, Elements(n.settled));
      ElementsSize(n.settled);
      assert false;
    }
  }

  lemma ManyPollable(n: State, x: Id, v: View, jobs: seq<Id>)
    requires Restarted(n, x, v) && Distinct(jobs) && Elements(jobs) <= v.pending
    ensures Pollable(n, jobs, x)
  {
    forall j | j in jobs ensures j in n.pending && j in n.polled && j in JobsIn(n.issued, x) {
      assert j in Elements(jobs);
      PendingOfGroup(n, x, v, j);
    }
  }

  lemma Prepended(rest: seq<Id>, k: Id)
    requires Distinct(rest) && k !in rest
    ensures Distinct([k] + rest) && Distinct(rest + [k]) && Elements([k] + rest) == Elements(rest) + {k} == Elements(rest + [k])
  {
    AppendElements(rest, k);
    var s := [k] + rest;
    forall i, j | 0 <= i < j < |s| ensures s[i] != s[j] {
      assert s[j] == rest[j - 1];
      if i > 0 { assert s[i] == rest[i - 1]; }
    }
    forall y ensures y in s <==> y == k || y in rest {
      if y in rest { var i :| 0 <= i < |rest| && rest[i] == y; assert s[i + 1] == y; }
    }
  }

  lemma DueJobs(v: View, u: Progress, k: Id) returns (rest: seq<Id>)
    requires Steady(v, u) && AtRisk(v) && k in v.pending - Elements(v.audit.value.jobIds) - Elements(v.audit.value.settled)
    ensures var a := v.audit.value;
      && Distinct(rest) && Elements(rest) == Elements(a.jobIds) - Elements(a.settled) && k !in rest
      && Elements(rest) + {k} <= v.pending
  {
    var a := v.audit.value;
    rest := ListOf(Elements(a.jobIds) - Elements(a.settled));
    AllReceiptsKnown(v, u);
    assert k in rest <==> k in Elements(rest);
    forall j | j in Elements(rest) ensures j in v.pending {
      assert j in u.receipts && j !in a.settled;
    }
  }

  lemma MarkedShows(n: State, x: Id, v: View, u: Progress, w: Seen) returns (p: seq<Step>, q: seq<Step>)
    requires Restarted(n, x, v) && Steady(v, u) && AtRisk(v) && v.audit.value.submissionUncertain
    ensures Differ(n, x, w, p, q)
  {
    var a := v.audit.value;
    var k :| k in v.pending - Elements(a.jobIds) - Elements(a.settled);
    var rest := DueJobs(v, u, k);
    Prepended(rest, k);
    PendingOfGroup(n, x, v, k);
    ManyPollable(n, x, v, [k] + rest);
    ManyPollable(n, x, v, rest + [k]);
    p, q := PollAll([k] + rest, OnlyOne(k)), PollAll(rest + [k], OnlyOne(k));
    var m, f := PollAllLeads(n, [k] + rest, OnlyOne(k), x, w);
    var e, g := PollAllLeads(n, rest + [k], OnlyOne(k), x, w);
    OutsideFirst(a, k, rest, n.issued);
    forall j | j in rest ensures j in n.issued { assert j in Elements(rest); PendingOfGroup(n, x, v, j); }
    OutsideLast(a, k, rest, n.issued);
  }

  // ---- An unmarked group: the order decides whether a mark comes ----

  /** An unmarked group at risk lacks exactly one registration. */
  lemma OneOutside(v: View, u: Progress, k: Id)
    requires Steady(v, u) && AtRisk(v) && !v.audit.value.submissionUncertain
    requires k in v.pending - Elements(v.audit.value.jobIds) - Elements(v.audit.value.settled)
    ensures var a := v.audit.value;
      && v.pending - {k} <= Elements(a.jobIds) && |a.settled| < |a.jobIds| < a.expected
      && a.status == Queued && |a.jobIds| == |Elements(a.jobIds)| == a.submitted
  {
    var a := v.audit.value;
    AllReceiptsKnown(v, u);
    SubsetSize(u.receipts, v.issued);
    assert k in u.receipts && k !in u.accepted;
    SubsetSize(u.accepted + {k}, u.receipts);
    SameSize(u.accepted + {k}, u.receipts);
    ProperSize(Elements(a.settled), Elements(a.jobIds));
  }

  lemma ProperSize(p: set<Id>, q: set<Id>)
    requires p <= q && q - p != {}
    ensures |p| < |q|
  {
    assert q == p + (q - p);
  }

  /** A settlement that does not end the unmarked group. */
  lemma StillOpen(a: Audit, job: Id, info: JobInfo, r: Settlement)
    requires IsOpen(a) && !a.submissionUncertain && a.expected > 0 && |a.settled| + 1 < a.expected && job !in a.settled
    ensures SettledBy(a, job, info, r) == Settled(a, job, info, r) && Settled(a, job, info, r).status == a.status
  {
  }

  /** The receipt of the job outside is released: recovery finds fewer receipts than chunks, and marks. */
  lemma ThenMarked(v: View, u: Progress, k: Id, b: Audit, accepted: seq<Id>)
    requires Steady(v, u) && AtRisk(v) && !v.audit.value.submissionUncertain
    requires k in v.pending - Elements(v.audit.value.jobIds) - Elements(v.audit.value.settled)
    requires var a := v.audit.value;
      b.status == a.status && b.jobIds == a.jobIds && b.submitted == a.submitted && b.expected == a.expected && !b.submissionUncertain
    requires Elements(accepted) == v.pending - {k}
    ensures TreatedAudit(b, b, accepted).submissionUncertain
  {
    OneOutside(v, u, k);
    UnionIs(b.jobIds, accepted);
    assert Elements(b.jobIds) + Elements(accepted) == Elements(b.jobIds);
    SizeOf(Union(b.jobIds, accepted), Elements(b.jobIds));
  }

  /** The receipt of an accepted job is released: recovery still finds a job for every chunk. */
  lemma ThenLeft(v: View, u: Progress, k: Id, j: Id, b: Audit, accepted: seq<Id>)
    requires Steady(v, u) && AtRisk(v) && !v.audit.value.submissionUncertain
    requires k in v.pending - Elements(v.audit.value.jobIds) - Elements(v.audit.value.settled) && j in v.audit.value.jobIds
    requires var a := v.audit.value;
      b.status == a.status && b.jobIds == a.jobIds && b.submitted == a.submitted && b.expected == a.expected && !b.submissionUncertain
    requires Elements(accepted) == v.pending - {j}
    ensures TreatedAudit(b, b, accepted) == b
  {
    OneOutside(v, u, k);
    UnionIs(b.jobIds, accepted);
    assert j in Elements(b.jobIds);
    assert Elements(b.jobIds) + Elements(accepted) == Elements(v.audit.value.jobIds) + v.pending;
    SizeOf(Union(b.jobIds, accepted), Elements(v.audit.value.jobIds) + v.pending);
  }

  function Plainly(j: Id): Settlement { Settlement(ChunkSuccess, 0, 0) }

  /** A poll of one job and a restart. */
  lemma PollRestart(n: State, x: Id, v: View, first: Id, w: Seen)
    returns (steps: seq<Step>, c: State, h: Seen, accepted: seq<Id>)
    requires Restarted(n, x, v) && Live(v) && first in v.pending
    ensures Leads(n, steps, c, x, w, h) && Elements(accepted) == v.pending - {first}
    ensures Safe(c) && Orderly(c) && Idle(c) && c.pending == n.pending - {first} && c.issued == n.issued && n.polled <= c.polled
    ensures h.log == w.log + [Revisited] && h.answers == if first in w.answers then w.answers else w.answers[first := Plainly(first)]
    ensures first in n.issued
    ensures var b := SettledBy(v.audit.value, first, n.issued[first], Plainly(first));
      Find(c.audits, x) == Some(TreatedAudit(b, b, accepted))
  {
    PendingOfGroup(n, x, v, first);
    var m, g := PollLeads(n, first, Plainly(first), x, w);
    var r, d, k, acc := RestartLeads(m, x, g);
    accepted, c, h := acc, d, k;
    assert JobsIn(m.pending, x) == JobsIn(n.pending, x) - {first};
    Then(n, PollOf(first, Plainly(first)), m, r, c, x, w, g, h);
    steps := PollOf(first, Plainly(first)) + r;
  }

  /** A poll of one job, a restart, and a poll of another. */
  lemma PollRestartPoll(n: State, x: Id, v: View, first: Id, second: Id, w: Seen)
    returns (steps: seq<Step>, e: State, f: Seen, accepted: seq<Id>)
    requires Restarted(n, x, v) && Live(v) && first in v.pending && second in v.pending && first != second
    ensures Leads(n, steps, e, x, w, f) && Elements(accepted) == v.pending - {first}
    ensures f.log == w.log + [Revisited] && f.answers == Filled(w.answers, {first, second}, Plainly)
    ensures first in n.issued && second in n.issued
    ensures var b := SettledBy(v.audit.value, first, n.issued[first], Plainly(first));
      Find(e.audits, x) == Some(SettledBy(TreatedAudit(b, b, accepted), second, n.issued[second], Plainly(second)))
  {
    PendingOfGroup(n, x, v, second);
    var r, c, h, acc := PollRestart(n, x, v, first, w);
    var d, k := PollLeads(c, second, Plainly(second), x, h);
    e, f, accepted := d, k, acc;
    Then(n, r, c, PollOf(second, Plainly(second)), d, x, w, h, k);
    steps := r + PollOf(second, Plainly(second));
    TwoAnswers(w.answers, first, second);
  }

  lemma TwoAnswers(m: map<Id, Settlement>, first: Id, second: Id)
    ensures var f := if first in m then m else m[first := Plainly(first)];
      (if second in f then f else f[second := Plainly(second)]) == Filled(m, {first, second}, Plainly)
  {
  }

  lemma StaysLive(b: Audit, accepted: seq<Id>, job: Id, info: JobInfo, r: Settlement)
    requires b.expected > 0
    ensures var t := TreatedAudit(b, b, accepted); var n := SettledBy(t, job, info, r);
      n.expected > 0 && n.submissionUncertain == t.submissionUncertain
  {
  }

  /** First the job outside: the group is marked. */
  lemma OutsideThenMarked(v: View, u: Progress, k: Id, j: Id, issued: Pending, accepted: seq<Id>)
    requires Steady(v, u) && AtRisk(v) && !v.audit.value.submissionUncertain && k in issued && j in issued
    requires k in v.pending - Elements(v.audit.value.jobIds) - Elements(v.audit.value.settled) && Elements(accepted) == v.pending - {k}
    ensures var b := SettledBy(v.audit.value, k, issued[k], Plainly(k));
      var n := SettledBy(TreatedAudit(b, b, accepted), j, issued[j], Plainly(j));
      n.expected > 0 && n.submissionUncertain
  {
    var a := v.audit.value;
    OneOutside(v, u, k);
    StillOpen(a, k, issued[k], Plainly(k));
    var b := Settled(a, k, issued[k], Plainly(k));
    ThenMarked(v, u, k, b, accepted);
    StaysLive(b, accepted, j, issued[j], Plainly(j));
  }

  /** First an accepted job: the group is never marked. */
  lemma AcceptedThenLeft(v: View, u: Progress, k: Id, j: Id, issued: Pending, accepted: seq<Id>)
    requires Steady(v, u) && AtRisk(v) && !v.audit.value.submissionUncertain && k in issued && j in issued
    requires k in v.pending - Elements(v.audit.value.jobIds) - Elements(v.audit.value.settled)
    requires j in Elements(v.audit.value.jobIds) - Elements(v.audit.value.settled) && Elements(accepted) == v.pending - {j}
    ensures var b := SettledBy(v.audit.value, j, issued[j], Plainly(j));
      var n := SettledBy(TreatedAudit(b, b, accepted), k, issued[k], Plainly(k));
      n.expected > 0 && !n.submissionUncertain
  {
    var a := v.audit.value;
    OneOutside(v, u, k);
    StillOpen(a, j, issued[j], Plainly(j));
    var b := Settled(a, j, issued[j], Plainly(j));
    ThenLeft(v, u, k, j, b, accepted);
    StaysLive(b, accepted, k, issued[k], Plainly(k));
  }

  /** A run that ends with the group stored, and marked or not. */
  ghost predicate LeadsTo(n: State, p: seq<Step>, x: Id, w: Seen, log: seq<Milestone>, m: map<Id, Settlement>, marked: bool) {
    var e, f := Exec(n, p), SeenOf(n, p, x, w);
    && f.log == log && f.answers == m && Live(ViewOf(e, x)) && ViewOf(e, x).audit.value.submissionUncertain == marked
  }

  lemma OutsideRun(n: State, x: Id, v: View, u: Progress, k: Id, j: Id, w: Seen) returns (p: seq<Step>)
    requires Restarted(n, x, v) && Steady(v, u) && AtRisk(v) && !v.audit.value.submissionUncertain && j in v.pending && k != j
    requires k in v.pending - Elements(v.audit.value.jobIds) - Elements(v.audit.value.settled)
    ensures LeadsTo(n, p, x, w, w.log + [Revisited], Filled(w.answers, {k, j}, Plainly), true)
  {
    var c, d, f, s := PollRestartPoll(n, x, v, k, j, w);
    p := c;
    OutsideThenMarked(v, u, k, j, n.issued, s);
  }

  lemma AcceptedRun(n: State, x: Id, v: View, u: Progress, k: Id, j: Id, w: Seen) returns (p: seq<Step>)
    requires Restarted(n, x, v) && Steady(v, u) && AtRisk(v) && !v.audit.value.submissionUncertain && j in v.pending && k != j
    requires k in v.pending - Elements(v.audit.value.jobIds) - Elements(v.audit.value.settled)
    requires j in Elements(v.audit.value.jobIds) - Elements(v.audit.value.settled)
    ensures LeadsTo(n, p, x, w, w.log + [Revisited], Filled(w.answers, {k, j}, Plainly), false)
  {
    var c, d, f, s := PollRestartPoll(n, x, v, j, k, w);
    p := c;
    assert {j, k} == {k, j};
    AcceptedThenLeft(v, u, k, j, n.issued, s);
  }

  lemma MarkDiffers(n: State, p: seq<Step>, q: seq<Step>, x: Id, w: Seen, log: seq<Milestone>, m: map<Id, Settlement>)
    requires LeadsTo(n, p, x, w, log, m, true) && LeadsTo(n, q, x, w, log, m, false)
    ensures Differ(n, x, w, p, q)
  {
  }

  lemma OutsideIsNotDue(v: View, k: Id, j: Id)
    requires v.audit.Some? && j in Elements(v.audit.value.jobIds) - Elements(v.audit.value.settled)
    requires k in v.pending - Elements(v.audit.value.jobIds) - Elements(v.audit.value.settled)
    ensures k != j
  {
  }

  lemma UnmarkedShows(n: State, x: Id, v: View, u: Progress, w: Seen) returns (p: seq<Step>, q: seq<Step>)
    requires Restarted(n, x, v) && Steady(v, u) && AtRisk(v) && !v.audit.value.submissionUncertain
    ensures Differ(n, x, w, p, q)
  {
    var k :| k in v.pending - Elements(v.audit.value.jobIds) - Elements(v.audit.value.settled);
    var j :| j in Elements(v.audit.value.jobIds) - Elements(v.audit.value.settled);
    DueIsPending(v, u, j);
    OutsideIsNotDue(v, k, j);
    p := OutsideRun(n, x, v, u, k, j, w);
    q := AcceptedRun(n, x, v, u, k, j, w);
    MarkDiffers(n, p, q, x, w, w.log + [Revisited], Filled(w.answers, {k, j}, Plainly));
  }

  lemma DueIsPending(v: View, u: Progress, j: Id)
    requires Steady(v, u) && AtRisk(v) && j in Elements(v.audit.value.jobIds) - Elements(v.audit.value.settled)
    ensures j in v.pending
  {
    AllReceiptsKnown(v, u);
    assert j in u.receipts;
  }

  // ---- The theorem ----

  lemma RestartedShows(n: State, x: Id, v: View, u: Progress, w: Seen) returns (p: seq<Step>, q: seq<Step>)
    requires Restarted(n, x, v) && Steady(v, u) && AtRisk(v)
    ensures Differ(n, x, w, p, q)
  {
    if v.audit.value.submissionUncertain { p, q := MarkedShows(n, x, v, u, w); } else { p, q := UnmarkedShows(n, x, v, u, w); }
  }

  lemma RiskShows(s: State, x: Id, u: Progress, o: Seen)
    requires Safe(s) && Orderly(s) && Steady(ViewOf(s, x), u) && AtRisk(ViewOf(s, x))
    ensures OrderShows(s, x, o)
  {
    var r, n, w := RestartAtRisk(s, x, u, o);
    var p, q := RestartedShows(n, x, ViewOf(s, x), u, w);
    DifferLater(s, r, n, x, o, w, p, q);
  }

  /** Once the submission of a group is over, the order in which its jobs are polled, and where crashes and recoveries
      fall among the polls, can show in what the group comes to if and only if the group is at risk. */
  lemma OrderShowsExactly(steps: seq<Step>, x: Id, a: Audit)
    requires Find(Exec(Init(), steps).audits, x) == Some(a) && a.expected > 0
    requires SeenOf(Init(), steps, x, NOTHING).prompt && Over(Exec(Init(), steps), x)
    ensures OrderShows(Exec(Init(), steps), x, SeenOf(Init(), steps, x, NOTHING)) <==> AtRisk(ViewOf(Exec(Init(), steps), x))
  {
    var s, o, life := Exec(Init(), steps), SeenOf(Init(), steps, x, NOTHING), H.HistoryOf(Init(), steps, x, []);
    RunStands(steps, x, a);
    if AtRisk(ViewOf(s, x)) {
      SteadyStands(s, x, a, o, life);
      RiskShows(s, x, ProgressOf(o.log), o);
    } else {
      forall p, q ensures !Differ(s, x, o, p, q) { CalmHides(s, x, a, o, life, p, q); }
    }
  }

  /** A job settles early in a run only where its group is at risk. */
  lemma EarlyOnlyAtRisk(steps: seq<Step>, x: Id, a: Audit, step: Step)
    requires Find(Exec(Init(), steps).audits, x) == Some(a) && a.expected > 0 && SeenOf(Init(), steps, x, NOTHING).prompt
    requires Enabled(Exec(Init(), steps), step) && Early(Exec(Init(), steps), step, x)
    ensures AtRisk(ViewOf(Exec(Init(), steps), x))
  {
    RunStands(steps, x, a);
    EarlyStepIsRisk(Exec(Init(), steps), step, x, ProgressOf(SeenOf(Init(), steps, x, NOTHING).log));
  }
}
