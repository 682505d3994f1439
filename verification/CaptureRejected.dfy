/** Two runs each in which the order of two settlements shows: a receipt is stored, and the write that would register
    its job is rejected, or lost with the worker. */
module CaptureRejected {
  import opened CaptureAudits
  import opened CaptureProtocol
  import opened CaptureRestart
  import opened CaptureSubmission
  import opened CaptureTheorems
  import opened CaptureTracking
  import opened Options
  import opened Sorting

  /** A worker starts with empty stores, and a capture of two chunks begins. */
  function Opens(x: Id): seq<Step> { FirstStart() + [Capture(0, x, 2, None)] + [Start(0)] }

  /** The job of a chunk is issued and its receipt stored. */
  function Receives(j: Id): seq<Step> { [Post(0, Some(j))] + [Track(0, true)] }

  function Found(entities: nat): Settlement { Settlement(ChunkSuccess, entities, 0) }

  // ---- The states on the way to the second receipt ----

  function Opened(x: Id): State {
    Init().(recovery := Recovered, used := {x}, audits := [Started(NewAudit(x, Submitting), None, 2)],
            tasks := map[0 := Posting(x, 2, None, [])])
  }

  lemma Captures(x: Id)
    requires x != []
    ensures var s := Init().(recovery := Recovered);
      After(s, Capture(0, x, 2, None))
      == s.(used := {x}, audits := [NewAudit(x, Submitting)], tasks := map[0 := Opening(x, 2, None)])
  {
    assert Prepend([], NewAudit(x, Submitting)) == [NewAudit(x, Submitting)];
  }

  lemma Via(s: State, p: seq<Step>, m: State, q: seq<Step>, n: State)
    requires Exec(s, p) == m && Exec(m, q) == n
    ensures Exec(s, p + q) == n
  {
    ExecConcat(s, p, q);
  }

  lemma One(s: State, step: Step)
    ensures Exec(s, [step]) == After(s, step)
  {
    assert [step][1..] == [];
  }

  lemma ReachesOpened(x: Id)
    requires x != []
    ensures Exec(Init(), Opens(x)) == Opened(x)
  {
    var s := Init().(recovery := Recovered);
    var m := After(s, Capture(0, x, 2, None));
    FirstStarts();
    Captures(x);
    One(s, Capture(0, x, 2, None));
    One(m, Start(0));
    Via(Init(), FirstStart(), s, [Capture(0, x, 2, None)], m);
    Via(Init(), FirstStart() + [Capture(0, x, 2, None)], m, [Start(0)], Opened(x));
  }

  /** The server has issued the job of the next chunk. */
  function Posted(s: State, x: Id, jobs: seq<Id>, j: Id): State {
    s.(tasks := map[0 := Tracking(x, 2, None, jobs, j)], issued := s.issued[j := JobInfo(x, |jobs| + 1, 2, None)])
  }

  lemma Posts(s: State, x: Id, jobs: seq<Id>, j: Id)
    requires s.tasks == map[0 := Posting(x, 2, None, jobs)] && j !in s.issued
    ensures After(s, Post(0, Some(j))) == Posted(s, x, jobs, j)
  {
  }

  lemma Tracks(s: State, x: Id, jobs: seq<Id>, j: Id)
    requires s.tasks == map[0 := Posting(x, 2, None, jobs)] && j !in s.issued
    ensures var info := JobInfo(x, |jobs| + 1, 2, None);
      Exec(s, Receives(j))
      == s.(tasks := map[0 := Registering(x, 2, None, jobs, j)], issued := s.issued[j := info], pending := s.pending[j := info])
  {
    var m := Posted(s, x, jobs, j);
    Posts(s, x, jobs, j);
    One(s, Post(0, Some(j)));
    One(m, Track(0, true));
    ExecConcat(s, [Post(0, Some(j))], [Track(0, true)]);
  }

  /** The first job is registered, and so has a poller. */
  function FirstAudit(x: Id, j1: Id): Audit {
    Started(NewAudit(x, Submitting), None, 2).(status := Queued, submitted := 1, jobIds := [j1])
  }

  function FirstIn(x: Id, j1: Id): State {
    Opened(x).(
      audits := [FirstAudit(x, j1)], tasks := map[0 := Posting(x, 2, None, [j1])], polled := {j1},
      issued := map[j1 := JobInfo(x, 1, 2, None)], pending := map[j1 := JobInfo(x, 1, 2, None)])
  }

  function FirstReceived(x: Id, j1: Id): State {
    Opened(x).(tasks := map[0 := Registering(x, 2, None, [], j1)],
               issued := map[j1 := JobInfo(x, 1, 2, None)], pending := map[j1 := JobInfo(x, 1, 2, None)])
  }

  lemma ReceivesFirst(x: Id, j1: Id)
    ensures Exec(Opened(x), Receives(j1)) == FirstReceived(x, j1)
  {
    Tracks(Opened(x), x, [], j1);
  }

  lemma RegistersFirst(x: Id, j1: Id)
    ensures After(FirstReceived(x, j1), Register(0, true, false)) == FirstIn(x, j1)
  {
    assert [] + [j1] == [j1];
    assert {} + {j1} == {j1};
  }

  lemma ReachesFirst(x: Id, j1: Id)
    requires x != []
    ensures Exec(Init(), Opens(x) + Receives(j1) + [Register(0, true, false)]) == FirstIn(x, j1)
  {
    ReachesOpened(x);
    ReceivesFirst(x, j1);
    RegistersFirst(x, j1);
    One(FirstReceived(x, j1), Register(0, true, false));
    Via(Init(), Opens(x), Opened(x), Receives(j1), FirstReceived(x, j1));
    Via(Init(), Opens(x) + Receives(j1), FirstReceived(x, j1), [Register(0, true, false)], FirstIn(x, j1));
  }

  function Jobs(x: Id, j1: Id, j2: Id): Pending { map[j1 := JobInfo(x, 1, 2, None)][j2 := JobInfo(x, 2, 2, None)] }

  /** The second receipt is stored, its job is not registered yet. */
  function SecondOut(x: Id, j1: Id, j2: Id): State {
    FirstIn(x, j1).(tasks := map[0 := Registering(x, 2, None, [j1], j2)], issued := Jobs(x, j1, j2), pending := Jobs(x, j1, j2))
  }

  function TwoReceipts(x: Id, j1: Id, j2: Id): seq<Step> {
    Opens(x) + Receives(j1) + [Register(0, true, false)] + Receives(j2)
  }

  lemma ReachesSecond(x: Id, j1: Id, j2: Id)
    requires x != [] && j1 != j2
    ensures Exec(Init(), TwoReceipts(x, j1, j2)) == SecondOut(x, j1, j2)
  {
    ReachesFirst(x, j1);
    Tracks(FirstIn(x, j1), x, [j1], j2);
    Via(Init(), Opens(x) + Receives(j1) + [Register(0, true, false)], FirstIn(x, j1), Receives(j2), SecondOut(x, j1, j2));
  }

  // ---- The registration is rejected ----

  /** The rejected registration gives the second job no poller; the submission is marked, and the worker restarts. */
  function Rejected(x: Id, j1: Id, j2: Id): seq<Step> {
    TwoReceipts(x, j1, j2) + [Register(0, false, false)] + [Mark(0)] + RestartOne([j1, j2])
  }

  function InDoubt(x: Id, j1: Id): Audit {
    FirstAudit(x, j1).(submissionUncertain := true, uncertainChunks := 1, unconfirmed := [2])
  }

  function MarkedBoth(x: Id, j1: Id, j2: Id): State { SecondOut(x, j1, j2).(audits := [InDoubt(x, j1)], tasks := map[]) }

  lemma UnionOne(j: Id)
    ensures Union([j], [j]) == [j]
  {
    assert [j][..0] == [];
    assert Dedupe([j]) == [j];
  }

  function Refused(x: Id, j1: Id, j2: Id): State { SecondOut(x, j1, j2).(tasks := map[0 := Marking(x, 2, [j1])]) }

  lemma Refuses(x: Id, j1: Id, j2: Id)
    ensures After(SecondOut(x, j1, j2), Register(0, false, false)) == Refused(x, j1, j2)
  {
  }

  lemma MarkOfOne(x: Id, j1: Id)
    ensures Marked(FirstAudit(x, j1), [j1], 2, [2]) == InDoubt(x, j1)
  {
    UnionOne(j1);
  }

  lemma MarkEdit(x: Id, j1: Id, j2: Id)
    requires x != []
    ensures Enabled(Refused(x, j1, j2), Mark(0)) && EditOf(Refused(x, j1, j2), Mark(0)) == Put(x, InDoubt(x, j1))
  {
    assert Open([FirstAudit(x, j1)], x) == Some(FirstAudit(x, j1));
    assert seq(2 - |[j1]|, i => |[j1]| + i + 1) == [2];
    MarkOfOne(x, j1);
  }

  lemma Marks(x: Id, j1: Id, j2: Id)
    requires x != []
    ensures After(Refused(x, j1, j2), Mark(0)) == MarkedBoth(x, j1, j2)
  {
    MarkEdit(x, j1, j2);
    assert Store([FirstAudit(x, j1)], x, InDoubt(x, j1)) == [InDoubt(x, j1)];
  }

  lemma ReachesMark(x: Id, j1: Id, j2: Id)
    requires x != [] && j1 != j2
    ensures Exec(Init(), TwoReceipts(x, j1, j2) + [Register(0, false, false)] + [Mark(0)]) == MarkedBoth(x, j1, j2)
  {
    var s, m := SecondOut(x, j1, j2), Refused(x, j1, j2);
    ReachesSecond(x, j1, j2);
    Refuses(x, j1, j2);
    Marks(x, j1, j2);
    One(s, Register(0, false, false));
    One(m, Mark(0));
    Via(Init(), TwoReceipts(x, j1, j2), s, [Register(0, false, false)], m);
    Via(Init(), TwoReceipts(x, j1, j2) + [Register(0, false, false)], m, [Mark(0)], MarkedBoth(x, j1, j2));
  }

  lemma BothListed(x: Id, j1: Id, j2: Id)
    requires j1 != j2
    ensures Distinct([j1, j2]) && Elements([j1, j2]) == JobsIn(Jobs(x, j1, j2), x) == {j1, j2}
    ensures Elements([j1]) == {j1} && Elements([j2]) == {j2}
  {
  }

  /** A worker that holds both receipts and polls both jobs, with the given audit. */
  ghost predicate Holds2(n: State, x: Id, j1: Id, j2: Id, a: Audit) {
    && Safe(n) && Orderly(n) && Idle(n) && |n.audits| == 1 && Find(n.audits, x) == Some(a)
    && n.pending == Jobs(x, j1, j2) && n.issued == Jobs(x, j1, j2) && {j1, j2} <= n.polled
  }

  lemma ReachableSafe(steps: seq<Step>)
    ensures Safe(Exec(Init(), steps)) && Orderly(Exec(Init(), steps))
  {
    SafeInit();
    SafeRun(Init(), steps);
    OrderlyRun(Init(), steps);
  }

  lemma ReachesRejected(x: Id, j1: Id, j2: Id) returns (n: State)
    requires x != [] && j1 != j2
    ensures Exec(Init(), Rejected(x, j1, j2)) == n && Holds2(n, x, j1, j2, InDoubt(x, j1))
  {
    var before := TwoReceipts(x, j1, j2) + [Register(0, false, false)] + [Mark(0)];
    ReachesMark(x, j1, j2);
    ReachableSafe(before);
    BothListed(x, j1, j2);
    var w;
    n, w := RestartOneLeads(MarkedBoth(x, j1, j2), x, [j1, j2], NOTHING);
    Via(Init(), before, MarkedBoth(x, j1, j2), RestartOne([j1, j2]), n);
  }

  lemma PollsTwo(n: State, x: Id, j1: Id, j2: Id, a: Audit, j: Id, r: Settlement, k: Id, q: Settlement) returns (e: State)
    requires Holds2(n, x, j1, j2, a) && j1 != j2 && {j, k} == {j1, j2} && j != k
    ensures Exec(n, PollOf(j, r) + PollOf(k, q)) == e
    ensures Find(e.audits, x) == Some(SettledBy(SettledBy(a, j, n.issued[j], r), k, n.issued[k], q))
  {
    var m, v := PollLeads(n, j, r, x, NOTHING);
    var d, w := PollLeads(m, k, q, x, v);
    e := d;
    Via(n, PollOf(j, r), m, PollOf(k, q), d);
  }

  /** The first of two settlements ends a marked group that accepted one job. */
  lemma FirstEnds(x: Id, j1: Id, j: Id, info: JobInfo, k: Id, other: JobInfo, r: Settlement, q: Settlement)
    requires r.status == ChunkSuccess
    ensures var a := SettledBy(SettledBy(InDoubt(x, j1), j, info, r), k, other, q);
      a.status == Uncertain && a.entities == r.entities && a.completed == [j]
  {
    assert [] + [j] == [j];
  }

  /** Two chunks, the second registration rejected, the worker restarted: the same answers in two orders end the
      group uncertain, once with the first job and its entities, once with the second and its own. */
  lemma RejectedWriteShows(x: Id, j1: Id, j2: Id)
    requires x != [] && j1 != j2
    ensures var p := Find(Exec(Init(), Rejected(x, j1, j2) + (PollOf(j1, Found(5)) + PollOf(j2, Found(7)))).audits, x);
      p.Some? && p.value.status == Uncertain && p.value.entities == 5 && p.value.completed == [j1]
    ensures var q := Find(Exec(Init(), Rejected(x, j1, j2) + (PollOf(j2, Found(7)) + PollOf(j1, Found(5)))).audits, x);
      q.Some? && q.value.status == Uncertain && q.value.entities == 7 && q.value.completed == [j2]
  {
    var n := ReachesRejected(x, j1, j2);
    var d := PollsTwo(n, x, j1, j2, InDoubt(x, j1), j1, Found(5), j2, Found(7));
    var e := PollsTwo(n, x, j1, j2, InDoubt(x, j1), j2, Found(7), j1, Found(5));
    Via(Init(), Rejected(x, j1, j2), n, PollOf(j1, Found(5)) + PollOf(j2, Found(7)), d);
    Via(Init(), Rejected(x, j1, j2), n, PollOf(j2, Found(7)) + PollOf(j1, Found(5)), e);
    FirstEnds(x, j1, j1, n.issued[j1], j2, n.issued[j2], Found(5), Found(7));
    FirstEnds(x, j1, j2, n.issued[j2], j1, n.issued[j1], Found(7), Found(5));
  }

  // ---- The registration is lost ----

  /** The worker dies between the second receipt and its registration. */
  function Lost(x: Id, j1: Id, j2: Id): seq<Step> { TwoReceipts(x, j1, j2) + RestartOne([j1, j2]) }

  lemma UnionTwo(j1: Id, j2: Id)
    requires j1 != j2
    ensures Union([j1], [j1, j2]) == [j1, j2] && Union([j1], [j2]) == [j1, j2]
  {
    assert [j1, j2][..1] == [j1] && [j2][..0] == [];
    UnionOne(j1);
    assert Union([j1], [j1, j2][..1]) == [j1];
    assert Dedupe([j1]) == [j1];
  }

  /** Two receipts for two chunks: recovery leaves the queued group as it is, the second job unregistered. */
  lemma TwoAreLeft(a: Audit, j1: Id, j2: Id, accepted: seq<Id>)
    requires a.status == Queued && !a.submissionUncertain && a.jobIds == [j1] && a.expected == 2 && j1 != j2
    requires accepted == [j1, j2] || accepted == [j2]
    ensures TreatedAudit(a, a, accepted) == a
  {
    UnionTwo(j1, j2);
  }

  lemma ReachesLost(x: Id, j1: Id, j2: Id) returns (n: State)
    requires x != [] && j1 != j2
    ensures Exec(Init(), Lost(x, j1, j2)) == n && Holds2(n, x, j1, j2, FirstAudit(x, j1))
  {
    ReachesSecond(x, j1, j2);
    ReachableSafe(TwoReceipts(x, j1, j2));
    BothListed(x, j1, j2);
    TwoAreLeft(FirstAudit(x, j1), j1, j2, [j1, j2]);
    var w;
    n, w := RestartOneLeads(SecondOut(x, j1, j2), x, [j1, j2], NOTHING);
    Via(Init(), TwoReceipts(x, j1, j2), SecondOut(x, j1, j2), RestartOne([j1, j2]), n);
  }

  lemma OtherLeft(x: Id, j1: Id, j2: Id, j: Id, k: Id)
    requires j1 != j2 && {j, k} == {j1, j2} && j != k
    ensures var jobs := Jobs(x, j1, j2);
      && j in jobs && k in jobs - {j} && j in JobsIn(jobs, x) && k in JobsIn(jobs, x) && JobsIn(jobs - {j}, x) == Elements([k])
  {
    assert Elements([k]) == {k};
    assert j == j1 || j == j2;
    assert k == j1 || k == j2;
  }

  lemma PollRestartsPoll(n: State, x: Id, j1: Id, j2: Id, a: Audit, j: Id, r: Settlement, k: Id, q: Settlement) returns (e: State)
    requires Holds2(n, x, j1, j2, a) && j1 != j2 && {j, k} == {j1, j2} && j != k
    ensures Exec(n, PollOf(j, r) + RestartOne([k]) + PollOf(k, q)) == e
    ensures j in n.issued && k in n.issued
    ensures var b := SettledBy(a, j, n.issued[j], r);
      Find(e.audits, x) == Some(SettledBy(TreatedAudit(b, b, [k]), k, n.issued[k], q))
  {
    OtherLeft(x, j1, j2, j, k);
    assert j in n.polled && k in n.polled;
    var m, v := PollLeads(n, j, r, x, NOTHING);
    var c, u := RestartOneLeads(m, x, [k], v);
    var d, w := PollLeads(c, k, q, x, u);
    e := d;
    Via(n, PollOf(j, r), m, RestartOne([k]), c);
    Via(n, PollOf(j, r) + RestartOne([k]), c, PollOf(k, q), d);
  }

  /** With the first job settled, recovery finds the second receipt, and both count. */
  lemma FirstThenBoth(x: Id, j1: Id, j2: Id, info: JobInfo, other: JobInfo)
    requires j1 != j2
    ensures var b := SettledBy(FirstAudit(x, j1), j1, info, Found(5));
      var n := SettledBy(TreatedAudit(b, b, [j2]), j2, other, Found(7));
      n.status == Success && n.entities == 12 && n.completed == [j1, j2]
  {
    var b := SettledBy(FirstAudit(x, j1), j1, info, Found(5));
    assert [] + [j1] == [j1];
    assert b.status == Queued && b.jobIds == [j1] && b.settled == [j1];
    TwoAreLeft(b, j1, j2, [j2]);
    assert [j1] + [j2] == [j1, j2];
  }

  /** With the second job settled, recovery finds one receipt for two chunks, and marks the group. */
  lemma SecondThenMarked(x: Id, j1: Id, j2: Id, info: JobInfo, other: JobInfo)
    requires j1 != j2
    ensures var b := SettledBy(FirstAudit(x, j1), j2, info, Found(7));
      var n := SettledBy(TreatedAudit(b, b, [j1]), j1, other, Found(5));
      n.status == Uncertain && n.entities == 7 && n.completed == [j2]
  {
    var b := SettledBy(FirstAudit(x, j1), j2, info, Found(7));
    assert [] + [j2] == [j2];
    assert b.status == Queued && b.jobIds == [j1] && b.settled == [j2];
    UnionOne(j1);
    assert TreatedAudit(b, b, [j1]).status == Uncertain;
  }

  /** Two chunks, the second registration lost in a crash, and a restart between the settlements: the same answers
      end the group as a success with both jobs, or uncertain with the second only, as the order has it. */
  lemma LostWriteShows(x: Id, j1: Id, j2: Id)
    requires x != [] && j1 != j2
    ensures var p := Find(Exec(Init(), Lost(x, j1, j2) + (PollOf(j1, Found(5)) + RestartOne([j2]) + PollOf(j2, Found(7)))).audits, x);
      p.Some? && p.value.status == Success && p.value.entities == 12 && p.value.completed == [j1, j2]
    ensures var q := Find(Exec(Init(), Lost(x, j1, j2) + (PollOf(j2, Found(7)) + RestartOne([j1]) + PollOf(j1, Found(5)))).audits, x);
      q.Some? && q.value.status == Uncertain && q.value.entities == 7 && q.value.completed == [j2]
  {
    var n := ReachesLost(x, j1, j2);
    var d := PollRestartsPoll(n, x, j1, j2, FirstAudit(x, j1), j1, Found(5), j2, Found(7));
    var e := PollRestartsPoll(n, x, j1, j2, FirstAudit(x, j1), j2, Found(7), j1, Found(5));
    Via(Init(), Lost(x, j1, j2), n, PollOf(j1, Found(5)) + RestartOne([j2]) + PollOf(j2, Found(7)), d);
    Via(Init(), Lost(x, j1, j2), n, PollOf(j2, Found(7)) + RestartOne([j1]) + PollOf(j1, Found(5)), e);
    FirstThenBoth(x, j1, j2, n.issued[j1], n.issued[j2]);
    SecondThenMarked(x, j1, j2, n.issued[j2], n.issued[j1]);
  }
}
