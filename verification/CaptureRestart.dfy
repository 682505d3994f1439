/** Two things a worker can always do: poll a job from its receipt to its release, and restart. */
module CaptureRestart {
  import opened CaptureAudits
  import opened CaptureInvariant
  import opened CaptureProtocol
  import opened CaptureSubmission
  import opened CaptureTheorems
  import opened CaptureTracking
  import opened Options
  import opened Sorting

  // ---- Runs put together ----

  lemma {:induction false} SeenConcat(s: State, p: seq<Step>, q: seq<Step>, x: Id, o: Seen)
    ensures SeenOf(s, p + q, x, o) == SeenOf(Exec(s, p), q, x, SeenOf(s, p, x, o))
    decreases |p|
  {
    if p == [] {
      assert p + q == q;
    } else {
      assert (p + q)[0] == p[0] && (p + q)[1..] == p[1..] + q;
      SeenConcat(After(s, p[0]), p[1..], q, x, See(s, p[0], x, o));
    }
  }

  lemma RunOne(s: State, step: Step, x: Id, o: Seen)
    ensures Exec(s, [step]) == After(s, step) && SeenOf(s, [step], x, o) == See(s, step, x, o)
  {
    assert [step][1..] == [];
  }

  /** What a run leaves of the state, and what it shows of the group. */
  ghost predicate Leads(s: State, p: seq<Step>, n: State, x: Id, o: Seen, w: Seen) {
    Exec(s, p) == n && SeenOf(s, p, x, o) == w
  }

  lemma Then(s: State, p: seq<Step>, m: State, q: seq<Step>, n: State, x: Id, o: Seen, v: Seen, w: Seen)
    requires Leads(s, p, m, x, o, v) && Leads(m, q, n, x, v, w)
    ensures Leads(s, p + q, n, x, o, w)
  {
    ExecConcat(s, p, q);
    SeenConcat(s, p, q, x, o);
  }

  lemma OneLeads(s: State, step: Step, x: Id, o: Seen)
    ensures Leads(s, [step], After(s, step), x, o, See(s, step, x, o))
  {
    RunOne(s, step, x, o);
  }

  // ---- One poll, from the receipt to its release ----

  /** The signature is written and the outcome shown where there is something to write or to show. */
  function PollOf(job: Id, r: Settlement): seq<Step> {
    [Poll(0, job)] + [Settle(0, r)] + ([Commit(0, true)] + [Notify(0)] + [Untrack(0)])
  }

  ghost predicate Idle(s: State) { s.tasks == map[] && s.recovery.Recovered? }

  /** Audits, jobs and pollers are the same. */
  ghost predicate SameStores(s: State, n: State) {
    s.audits == n.audits && s.polled == n.polled && s.issued == n.issued && s.recovery == n.recovery && s.used == n.used
  }

  /** What follows a settlement. */
  predicate Follows(t: Task, job: Id) {
    match t
    case Committing(j, _) => j == job
    case Notifying(_, release) => release == Some(job)
    case Untracking(j) => j == job
    case _ => false
  }

  lemma CommitLeads(s: State, t: Task, job: Id, x: Id, o: Seen)
    requires s.tasks == map[0 := t] && Follows(t, job) && job in s.issued
    ensures var n := After(s, Commit(0, true));
      && SameStores(s, n) && n.pending == s.pending && See(s, Commit(0, true), x, o) == o
      && exists g :: n.tasks == map[0 := g] && Follows(g, job) && !g.Committing?
  {
    var n := After(s, Commit(0, true));
    assert o.log + [] == o.log;
    if t.Committing? {
      var g := Goes(s, Commit(0, true)).value;
      assert n.tasks == map[0 := g] && Follows(g, job) && !g.Committing?;
    } else {
      assert n == s;
    }
  }

  lemma NotifyLeads(s: State, t: Task, job: Id, x: Id, o: Seen)
    requires s.tasks == map[0 := t] && Follows(t, job) && !t.Committing?
    ensures var n := After(s, Notify(0));
      SameStores(s, n) && n.pending == s.pending && See(s, Notify(0), x, o) == o && n.tasks == map[0 := Untracking(job)]
  {
    assert o.log + [] == o.log;
  }

  lemma UntrackLeads(s: State, job: Id, x: Id, o: Seen)
    requires s.tasks == map[0 := Untracking(job)]
    ensures var n := After(s, Untrack(0));
      SameStores(s, n) && n.pending == s.pending - {job} && See(s, Untrack(0), x, o) == o && n.tasks == map[]
  {
    assert o.log + [] == o.log;
  }

  lemma PollEnds(s: State, t: Task, job: Id, x: Id, o: Seen) returns (n: State)
    requires s.tasks == map[0 := t] && Follows(t, job) && job in s.issued
    ensures Leads(s, [Commit(0, true)] + [Notify(0)] + [Untrack(0)], n, x, o, o)
    ensures SameStores(s, n) && n.pending == s.pending - {job} && n.tasks == map[]
  {
    var c := After(s, Commit(0, true));
    CommitLeads(s, t, job, x, o);
    var g :| c.tasks == map[0 := g] && Follows(g, job) && !g.Committing?;
    var d := After(c, Notify(0));
    NotifyLeads(c, g, job, x, o);
    n := After(d, Untrack(0));
    UntrackLeads(d, job, x, o);
    OneLeads(s, Commit(0, true), x, o);
    OneLeads(c, Notify(0), x, o);
    OneLeads(d, Untrack(0), x, o);
    Then(s, [Commit(0, true)], c, [Notify(0)], d, x, o, o, o);
    Then(s, [Commit(0, true)] + [Notify(0)], d, [Untrack(0)], n, x, o, o, o);
  }

  lemma PollStarts(s: State, job: Id, x: Id, o: Seen)
    requires Idle(s) && job in s.pending && job in s.polled
    ensures var n := After(s, Poll(0, job));
      n == s.(tasks := map[0 := Polled(job)]) && See(s, Poll(0, job), x, o) == o
  {
    assert o.log + [] == o.log;
  }

  /** First answers, and those to more jobs. */
  function Filled(m: map<Id, Settlement>, jobs: set<Id>, reply: Id -> Settlement): map<Id, Settlement> {
    map j | j in m.Keys + jobs :: if j in m then m[j] else reply(j)
  }

  function SettledBy(a: Audit, job: Id, info: JobInfo, r: Settlement): Audit {
    if IsOpen(a) && job !in a.settled then Settled(a, job, info, r) else a
  }

  lemma SettleGoes(s: State, job: Id, r: Settlement)
    requires s.tasks == map[0 := Polled(job)] && job in s.issued
    ensures var n := After(s, Settle(0, r));
      && n.pending == s.pending && n.polled == s.polled && n.issued == s.issued && n.recovery == s.recovery && n.used == s.used
      && exists g :: n.tasks == map[0 := g] && Follows(g, job)
  {
    var n := After(s, Settle(0, r));
    var g := Goes(s, Settle(0, r)).value;
    assert n.tasks == map[0 := g] && Follows(g, job);
  }

  lemma {:induction false} StoreSize(audits: seq<Audit>, id: Id, a: Audit)
    ensures |Store(audits, id, a)| == |audits|
  {
    if audits != [] { StoreSize(audits[1..], id, a); }
  }

  lemma PutSize(s: State, step: Step)
    requires Enabled(s, step) && (step.Settle? || step.Recover?)
    ensures |Taken(s, step).audits| == |s.audits|
  {
    var e := EditOf(s, step);
    if e.Put? { StoreSize(s.audits, e.id, e.a); }
  }

  /** The settlement of a polled job, as the group sees it. */
  lemma SettleView(s: State, job: Id, r: Settlement, x: Id)
    requires Safe(s) && s.tasks == map[0 := Polled(job)] && job in JobsIn(s.issued, x) && Find(s.audits, x).Some?
    ensures Find(After(s, Settle(0, r)).audits, x) == Some(SettledBy(Find(s.audits, x).value, job, s.issued[job], r))
  {
    StepMoves(s, Settle(0, r), x);
    EditTarget(s, Settle(0, r));
    FindId(s.audits, x);
    assert x in s.used;
  }

  lemma SettleSeen(s: State, job: Id, r: Settlement, x: Id, o: Seen)
    requires s.tasks == map[0 := Polled(job)] && job in JobsIn(s.issued, x)
    ensures var w := See(s, Settle(0, r), x, o);
      w.log == o.log && w.answers == if job in o.answers then o.answers else o.answers[job := r]
  {
    assert o.log + [] == o.log;
  }

  /** A poll of a pending job: its settlement is recorded and its receipt released. */
  lemma PollLeads(s: State, job: Id, r: Settlement, x: Id, o: Seen) returns (n: State, w: Seen)
    requires Safe(s) && Orderly(s) && Idle(s) && job in s.pending && job in s.polled && job in JobsIn(s.issued, x) && Find(s.audits, x).Some?
    ensures Leads(s, PollOf(job, r), n, x, o, w) && Safe(n) && Orderly(n) && Idle(n)
    ensures n.pending == s.pending - {job} && n.polled == s.polled && n.issued == s.issued && |n.audits| == |s.audits|
    ensures Find(n.audits, x) == Some(SettledBy(Find(s.audits, x).value, job, s.issued[job], r))
    ensures w.log == o.log && w.answers == if job in o.answers then o.answers else o.answers[job := r]
  {
    var p := After(s, Poll(0, job));
    PollStarts(s, job, x, o);
    SafeOne(s, Poll(0, job));
    var q := After(p, Settle(0, r));
    w := See(p, Settle(0, r), x, o);
    SettleGoes(p, job, r);
    SettleView(p, job, r, x);
    PutSize(p, Settle(0, r));
    SettleSeen(p, job, r, x, o);
    var g :| q.tasks == map[0 := g] && Follows(g, job);
    n := PollEnds(q, g, job, x, w);
    OneLeads(s, Poll(0, job), x, o);
    OneLeads(p, Settle(0, r), x, o);
    Then(s, [Poll(0, job)], p, [Settle(0, r)], q, x, o, o, w);
    Then(s, [Poll(0, job)] + [Settle(0, r)], q, [Commit(0, true)] + [Notify(0)] + [Untrack(0)], n, x, o, w, w);
    SafeRun(s, PollOf(job, r));
    OrderlyRun(s, PollOf(job, r));
  }

  lemma SafeOne(s: State, step: Step)
    requires Safe(s) && Orderly(s)
    ensures Safe(After(s, step)) && Orderly(After(s, step))
  {
    if Enabled(s, step) {
      SafeKept(s, step);
      OrderlyKept(s, step);
    }
  }

  lemma {:induction false} OrderlyRun(s: State, steps: seq<Step>)
    requires Safe(s) && Orderly(s)
    ensures Orderly(Exec(s, steps))
    decreases |steps|
  {
    if steps != [] {
      SafeOne(s, steps[0]);
      OrderlyRun(After(s, steps[0]), steps[1..]);
    }
  }

  // ---- Polls of several jobs ----

  function PollAll(jobs: seq<Id>, reply: Id -> Settlement): seq<Step> {
    if jobs == [] then [] else PollAll(jobs[..|jobs|-1], reply) + PollOf(jobs[|jobs|-1], reply(jobs[|jobs|-1]))
  }

  function SettledAll(a: Audit, jobs: seq<Id>, issued: Pending, reply: Id -> Settlement): Audit {
    if jobs == [] then a
    else
      var before, job := SettledAll(a, jobs[..|jobs|-1], issued, reply), jobs[|jobs|-1];
      if job in issued then SettledBy(before, job, issued[job], reply(job)) else before
  }

  lemma FilledMore(m: map<Id, Settlement>, jobs: set<Id>, job: Id, reply: Id -> Settlement)
    ensures var f := Filled(m, jobs, reply);
      (if job in f then f else f[job := reply(job)]) == Filled(m, jobs + {job}, reply)
  {
  }

  /** Jobs of the group that can be polled one after the other. */
  ghost predicate Pollable(s: State, jobs: seq<Id>, x: Id) {
    Distinct(jobs) && forall j :: j in jobs ==> j in s.pending && j in s.polled && j in JobsIn(s.issued, x)
  }

  /** The group after the polls of some jobs. */
  ghost predicate PolledOff(s: State, jobs: seq<Id>, reply: Id -> Settlement, x: Id, n: State)
    requires Find(s.audits, x).Some?
  {
    && Safe(n) && Orderly(n) && Idle(n)
    && n.pending == s.pending - Elements(jobs) && n.polled == s.polled && n.issued == s.issued
    && Find(n.audits, x) == Some(SettledAll(Find(s.audits, x).value, jobs, s.issued, reply))
  }

  lemma LastPollable(s: State, jobs: seq<Id>, job: Id, x: Id)
    requires Pollable(s, jobs + [job], x)
    ensures job !in Elements(jobs) && job in s.pending && job in s.polled && job in JobsIn(s.issued, x)
  {
    assert job in jobs + [job];
    forall i | 0 <= i < |jobs| ensures jobs[i] != job { assert (jobs + [job])[i] != (jobs + [job])[|jobs|]; }
  }

  lemma SettledAllMore(a: Audit, jobs: seq<Id>, job: Id, issued: Pending, reply: Id -> Settlement)
    requires job in issued
    ensures SettledAll(a, jobs + [job], issued, reply) == SettledBy(SettledAll(a, jobs, issued, reply), job, issued[job], reply(job))
  {
    assert (jobs + [job])[..|jobs|] == jobs;
  }

  lemma LessPending(p: Pending, jobs: seq<Id>, job: Id)
    requires job in p && job !in Elements(jobs)
    ensures job in p - Elements(jobs) && p - Elements(jobs) - {job} == p - Elements(jobs + [job])
  {
    AppendElements(jobs, job);
  }

  lemma PollOneMore(s: State, jobs: seq<Id>, job: Id, reply: Id -> Settlement, x: Id, m: State, v: Seen)
    returns (n: State, w: Seen)
    requires Find(s.audits, x).Some? && Pollable(s, jobs + [job], x) && PolledOff(s, jobs, reply, x, m)
    ensures Leads(m, PollOf(job, reply(job)), n, x, v, w) && PolledOff(s, jobs + [job], reply, x, n)
    ensures w.log == v.log && w.answers == if job in v.answers then v.answers else v.answers[job := reply(job)]
  {
    LastPollable(s, jobs, job, x);
    LessPending(s.pending, jobs, job);
    n, w := PollLeads(m, job, reply(job), x, v);
    SettledAllMore(Find(s.audits, x).value, jobs, job, s.issued, reply);
  }

  lemma PollablePrefix(s: State, jobs: seq<Id>, x: Id)
    requires jobs != [] && Pollable(s, jobs, x)
    ensures Pollable(s, jobs[..|jobs|-1], x)
  {
  }

  lemma {:induction false} PollAllLeads(s: State, jobs: seq<Id>, reply: Id -> Settlement, x: Id, o: Seen) returns (n: State, w: Seen)
    requires Safe(s) && Orderly(s) && Idle(s) && Find(s.audits, x).Some? && Pollable(s, jobs, x)
    ensures Leads(s, PollAll(jobs, reply), n, x, o, w) && PolledOff(s, jobs, reply, x, n)
    ensures w.log == o.log && w.answers == Filled(o.answers, Elements(jobs), reply)
    decreases |jobs|
  {
    if jobs == [] {
      n, w := s, o;
      assert o.answers == Filled(o.answers, Elements(jobs), reply);
    } else {
      var init, last := jobs[..|jobs|-1], jobs[|jobs|-1];
      assert jobs == init + [last];
      PollablePrefix(s, jobs, x);
      var m, v := PollAllLeads(s, init, reply, x, o);
      n, w := PollOneMore(s, init, last, reply, x, m, v);
      AppendElements(init, last);
      FilledMore(o.answers, Elements(init), last, reply);
      Then(s, PollAll(init, reply), m, PollOf(last, reply(last)), n, x, o, v, w);
    }
  }

  // ---- A restart ----

  lemma {:induction false} ListOf(ids: set<Id>) returns (list: seq<Id>)
    ensures Distinct(list) && Elements(list) == ids
    decreases |ids|
  {
    if ids == {} {
      list := [];
    } else {
      var id :| id in ids;
      var rest := ListOf(ids - {id});
      list := rest + [id];
      assert id !in Elements(rest);
      AppendElements(rest, id);
    }
  }

  /** A working recovery without anything beside it. */
  ghost predicate Recovering(s: State, p: Pending, left: seq<Audit>) {
    s.tasks == map[] && s.recovery == Working(p, left) && Safe(s) && Orderly(s)
  }

  /** Recovery treats the next audit that it has read, and shows its outcome if that ended it. */
  lemma TreatNext(s: State, p: Pending, left: seq<Audit>, x: Id, o: Seen) returns (steps: seq<Step>, n: State, w: Seen, accepted: seq<Id>)
    requires Recovering(s, p, left) && left != [] && Find(s.audits, x).Some?
    ensures Leads(s, steps, n, x, o, w) && Recovering(n, p, left[1..])
    ensures n.pending == s.pending && n.polled == s.polled && n.issued == s.issued
    ensures Elements(accepted) == JobsIn(p, left[0].id)
    ensures var a := Find(s.audits, x).value;
      Find(n.audits, x) == Some(if left[0].id == x then TreatedAudit(a, left[0], accepted) else a)
    ensures w == o.(log := o.log + if left[0].id == x then [Revisited] else [])
  {
    accepted := ListOf(JobsIn(p, left[0].id));
    var step := Recover(0, accepted);
    assert forall j :: j in accepted <==> j in Elements(accepted);
    assert Enabled(s, step);
    var m := After(s, step);
    w := See(s, step, x, o);
    TreatView(s, step, x);
    NotifyRecovered(s, step, x, w);
    n := After(m, Notify(0));
    steps := [step] + [Notify(0)];
    OneLeads(s, step, x, o);
    OneLeads(m, Notify(0), x, w);
    Then(s, [step], m, [Notify(0)], n, x, o, w, w);
    SafeOne(s, step);
    SafeOne(m, Notify(0));
  }

  lemma TreatView(s: State, step: Step, x: Id)
    requires Safe(s) && Enabled(s, step) && step.Recover? && Find(s.audits, x).Some?
    ensures var a, read := Find(s.audits, x).value, s.recovery.left[0];
      Find(After(s, step).audits, x) == Some(if read.id == x then TreatedAudit(a, read, step.accepted) else a)
  {
    EditTarget(s, step);
    StepMoves(s, step, x);
    FindId(s.audits, x);
    FindId(s.audits, s.recovery.left[0].id);
  }

  lemma NotifyRecovered(s: State, step: Step, x: Id, w: Seen)
    requires Enabled(s, step) && step.Recover? && step.t == 0 && s.tasks == map[]
    ensures var m := After(s, step); var n := After(m, Notify(0));
      && n.tasks == map[] && n.audits == m.audits && n.pending == s.pending && n.polled == s.polled && n.issued == s.issued
      && n.recovery == Working(s.recovery.pending, s.recovery.left[1..]) && See(m, Notify(0), x, w) == w
  {
    var m := After(s, step);
    assert w.log + [] == w.log;
    if Goes(s, step).Some? {
      assert m.tasks == map[0 := Goes(s, step).value];
    } else {
      assert m.tasks == map[];
    }
  }

  /** The accepted jobs of a group that is not listed do not matter. */
  function Revisit(a: Audit, left: seq<Audit>, x: Id, accepted: seq<Id>): Audit {
    if left == [] then a
    else if left[0].id == x then TreatedAudit(a, left[0], accepted)
    else Revisit(a, left[1..], x, accepted)
  }

  lemma {:induction false} TreatAll(s: State, p: Pending, left: seq<Audit>, x: Id, o: Seen)
    returns (steps: seq<Step>, n: State, w: Seen, accepted: seq<Id>)
    requires Recovering(s, p, left) && Find(s.audits, x).Some? && UniqueIds(left)
    ensures Leads(s, steps, n, x, o, w) && Recovering(n, p, [])
    ensures n.pending == s.pending && n.polled == s.polled && n.issued == s.issued
    ensures Elements(accepted) == JobsIn(p, x)
    ensures Find(n.audits, x) == Some(Revisit(Find(s.audits, x).value, left, x, accepted))
    ensures w == o.(log := o.log + if Listed(left, x) then [Revisited] else [])
    decreases |left|
  {
    if left == [] {
      steps, n, w := [], s, o;
      accepted := ListOf(JobsIn(p, x));
      assert o.log + [] == o.log;
    } else {
      var first, m, v, here := TreatNext(s, p, left, x, o);
      var rest, e, u, there := TreatAll(m, p, left[1..], x, v);
      Then(s, first, m, rest, e, x, o, v, u);
      steps, n, w, accepted := first + rest, e, u, if left[0].id == x then here else there;
      LogOnce(o.log, left, x);
      RevisitNext(Find(s.audits, x).value, left, x, here, there);
    }
  }

  lemma LogOnce(log: seq<Milestone>, left: seq<Audit>, x: Id)
    requires left != [] && UniqueIds(left)
    ensures log + (if left[0].id == x then [Revisited] else []) + (if Listed(left[1..], x) then [Revisited] else [])
         == log + if Listed(left, x) then [Revisited] else []
  {
    ListedOnce(left, x);
    if left[0].id == x { assert Listed(left, x); }
  }

  lemma RevisitNext(a: Audit, left: seq<Audit>, x: Id, here: seq<Id>, there: seq<Id>)
    requires left != [] && UniqueIds(left)
    ensures Revisit(if left[0].id == x then TreatedAudit(a, left[0], here) else a, left[1..], x, there)
         == Revisit(a, left, x, if left[0].id == x then here else there)
  {
    ListedOnce(left, x);
    if left[0].id == x { RevisitElsewhere(TreatedAudit(a, left[0], here), left[1..], x, there); }
  }

  lemma {:induction false} RevisitElsewhere(a: Audit, left: seq<Audit>, x: Id, accepted: seq<Id>)
    requires !Listed(left, x)
    ensures Revisit(a, left, x, accepted) == a
  {
    if left != [] {
      assert left[0].id != x;
      forall i | 0 <= i < |left[1..]| ensures left[1..][i].id != x { assert left[i + 1].id != x; }
      RevisitElsewhere(a, left[1..], x, accepted);
    }
  }

  lemma {:induction false} RevisitFound(a: Audit, left: seq<Audit>, x: Id, accepted: seq<Id>)
    requires Find(left, x) == Some(a)
    ensures Revisit(a, left, x, accepted) == TreatedAudit(a, a, accepted)
  {
    if left[0].id != x { RevisitFound(a, left[1..], x, accepted); }
  }

  lemma ReadingSteps(s: State, x: Id, o: Seen)
    ensures var p, q, n := s.(tasks := map[], recovery := Waiting), s.(tasks := map[], recovery := HasJobs(s.pending)),
        s.(tasks := map[], recovery := Working(s.pending, s.audits));
      && After(s, Crash) == p && After(p, ReadJobs) == q && After(q, ReadAudits) == n
      && See(s, Crash, x, o) == o && See(p, ReadJobs, x, o) == o && See(q, ReadAudits, x, o) == o
  {
    assert o.log + [] == o.log;
  }

  /** The worker dies; its successor reads the receipts and the audits. */
  lemma RestartReads(s: State, x: Id, o: Seen) returns (n: State)
    requires Safe(s) && Orderly(s)
    ensures Leads(s, [Crash] + [ReadJobs] + [ReadAudits], n, x, o, o) && Recovering(n, s.pending, s.audits)
    ensures n.audits == s.audits && n.pending == s.pending && n.polled == s.polled && n.issued == s.issued
  {
    var p, q := s.(tasks := map[], recovery := Waiting), s.(tasks := map[], recovery := HasJobs(s.pending));
    n := s.(tasks := map[], recovery := Working(s.pending, s.audits));
    ReadingSteps(s, x, o);
    OneLeads(s, Crash, x, o);
    OneLeads(p, ReadJobs, x, o);
    OneLeads(q, ReadAudits, x, o);
    Then(s, [Crash], p, [ReadJobs], q, x, o, o, o);
    Then(s, [Crash] + [ReadJobs], q, [ReadAudits], n, x, o, o, o);
    SafeOne(s, Crash);
    SafeOne(p, ReadJobs);
    SafeOne(q, ReadAudits);
  }

  lemma RestartEnds(s: State, p: Pending, x: Id, o: Seen) returns (n: State)
    requires Recovering(s, p, [])
    ensures Leads(s, [EndRecovery], n, x, o, o) && Idle(n) && Safe(n) && Orderly(n)
    ensures n.audits == s.audits && n.pending == s.pending && n.polled == s.polled + p.Keys && n.issued == s.issued
  {
    n := After(s, EndRecovery);
    assert o.log + [] == o.log;
    OneLeads(s, EndRecovery, x, o);
    SafeOne(s, EndRecovery);
  }

  /** A restart whose recovery comes by every group and gives every receipt a poller. */
  lemma RestartLeads(s: State, x: Id, o: Seen) returns (steps: seq<Step>, n: State, w: Seen, accepted: seq<Id>)
    requires Safe(s) && Orderly(s) && Find(s.audits, x).Some?
    ensures Leads(s, steps, n, x, o, w) && Safe(n) && Orderly(n) && Idle(n)
    ensures n.pending == s.pending && n.polled == s.polled + s.pending.Keys && n.issued == s.issued
    ensures Elements(accepted) == JobsIn(s.pending, x)
    ensures Find(n.audits, x) == Some(TreatedAudit(Find(s.audits, x).value, Find(s.audits, x).value, accepted))
    ensures w == o.(log := o.log + [Revisited])
  {
    var m := RestartReads(s, x, o);
    var mid, e, v, acc := TreatAll(m, s.pending, s.audits, x, o);
    n := RestartEnds(e, s.pending, x, v);
    w, accepted := v, acc;
    FindListed(s.audits, x);
    RevisitFound(Find(s.audits, x).value, s.audits, x, acc);
    var first := [Crash] + [ReadJobs] + [ReadAudits];
    Then(s, first, m, mid, e, x, o, o, v);
    Then(s, first + mid, e, [EndRecovery], n, x, o, v, v);
    steps := first + mid + [EndRecovery];
  }

  // ---- A restart with a single audit ----

  function RestartOne(accepted: seq<Id>): seq<Step> {
    [Crash] + [ReadJobs] + [ReadAudits] + ([Recover(0, accepted)] + [Notify(0)]) + [EndRecovery]
  }

  lemma Alone(audits: seq<Audit>, x: Id)
    requires |audits| == 1 && Find(audits, x).Some?
    ensures audits == [Find(audits, x).value] && audits[1..] == []
  {
  }

  /** Recovery treats the only audit. */
  lemma TreatOne(s: State, p: Pending, x: Id, accepted: seq<Id>, o: Seen) returns (n: State, w: Seen)
    requires Recovering(s, p, s.audits) && |s.audits| == 1 && Find(s.audits, x).Some?
    requires Distinct(accepted) && Elements(accepted) == JobsIn(p, x)
    ensures Leads(s, [Recover(0, accepted)] + [Notify(0)], n, x, o, w) && Recovering(n, p, [])
    ensures n.pending == s.pending && n.polled == s.polled && n.issued == s.issued && |n.audits| == 1
    ensures var a := Find(s.audits, x).value; Find(n.audits, x) == Some(TreatedAudit(a, a, accepted))
  {
    var step := Recover(0, accepted);
    Alone(s.audits, x);
    FindId(s.audits, x);
    assert forall j :: j in accepted <==> j in Elements(accepted);
    assert Enabled(s, step);
    var m := After(s, step);
    w := See(s, step, x, o);
    TreatView(s, step, x);
    PutSize(s, step);
    NotifyRecovered(s, step, x, w);
    n := After(m, Notify(0));
    OneLeads(s, step, x, o);
    OneLeads(m, Notify(0), x, w);
    Then(s, [step], m, [Notify(0)], n, x, o, w, w);
    SafeOne(s, step);
    SafeOne(m, Notify(0));
  }

  lemma RestartOneLeads(s: State, x: Id, accepted: seq<Id>, o: Seen) returns (n: State, w: Seen)
    requires Safe(s) && Orderly(s) && |s.audits| == 1 && Find(s.audits, x).Some?
    requires Distinct(accepted) && Elements(accepted) == JobsIn(s.pending, x)
    ensures Leads(s, RestartOne(accepted), n, x, o, w) && Safe(n) && Orderly(n) && Idle(n)
    ensures n.pending == s.pending && n.polled == s.polled + s.pending.Keys && n.issued == s.issued && |n.audits| == 1
    ensures var a := Find(s.audits, x).value; Find(n.audits, x) == Some(TreatedAudit(a, a, accepted))
  {
    var first, mid := [Crash] + [ReadJobs] + [ReadAudits], [Recover(0, accepted)] + [Notify(0)];
    var m := RestartReads(s, x, o);
    var e, v := TreatOne(m, s.pending, x, accepted, o);
    n := RestartEnds(e, s.pending, x, v);
    w := v;
    Then(s, first, m, mid, e, x, o, o, v);
    Then(s, first + mid, e, [EndRecovery], n, x, o, v, v);
  }
}
