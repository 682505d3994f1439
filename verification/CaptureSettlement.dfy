/** Settling a capture group: when the order in which its jobs settle, and where registrations and the uncertain
    mark fall among them, show in what the group comes to. */
module CaptureSettlement {
  import opened CaptureAudits
  import opened Options
  import opened Sorting

  /** What can happen to a group after its submission has started. */
  datatype Event =
    | Settle(job: Id, s: Settlement)
    | Register(job: Id)
    | Enqueue(jobs: seq<Id>, submitted: nat)
    | Mark(jobs: seq<Id>, unconfirmed: seq<nat>)

  /** A terminal audit and a settled job are left alone. */
  function Step(a: Audit, e: Event): Audit {
    if IsTerminal(a.status) then a
    else
      match e
      case Settle(job, s) => if job in a.settled then a else Settled(a, job, JobInfo(a.id, 1, a.expected, a.signature), s)
      case Register(job) => Registered(a, job, a.expected)
      case Enqueue(jobs, submitted) => Enqueued(a, jobs, submitted)
      case Mark(jobs, unconfirmed) => Marked(a, jobs, a.expected, unconfirmed)
  }

  function Run(a: Audit, es: seq<Event>): Audit {
    if es == [] then a else Step(Run(a, es[..|es|-1]), es[|es|-1])
  }

  /** A group of `n` chunks at the start of its submission. */
  function Group(id: Id, signature: Option<Signature>, n: nat): Audit { Started(NewAudit(id, Submitting), signature, n) }

  // ---- What an event list comes to ----

  type Outcome = (Id, Settlement)

  function Jobs(os: seq<Outcome>): seq<Id> { if os == [] then [] else Jobs(os[..|os|-1]) + [os[|os|-1].0] }

  /** The first recorded outcome of every job. */
  function Firsts(es: seq<Event>): seq<Outcome> {
    if es == [] then []
    else
      var before, e := Firsts(es[..|es|-1]), es[|es|-1];
      if e.Settle? && e.job !in Jobs(before) then before + [(e.job, e.s)] else before
  }

  function Marks(es: seq<Event>): seq<Event> {
    if es == [] then [] else Marks(es[..|es|-1]) + if es[|es|-1].Mark? then [es[|es|-1]] else []
  }

  function With(os: seq<Outcome>, status: ChunkStatus): seq<Id> {
    if os == [] then []
    else With(os[..|os|-1], status) + if os[|os|-1].1.status == status then [os[|os|-1].0] else []
  }

  function Entities(os: seq<Outcome>): nat {
    if os == [] then 0
    else Entities(os[..|os|-1]) + if os[|os|-1].1.status.ChunkFailed? then 0 else os[|os|-1].1.entities
  }

  function Relationships(os: seq<Outcome>): nat {
    if os == [] then 0
    else Relationships(os[..|os|-1]) + if os[|os|-1].1.status.ChunkFailed? then 0 else os[|os|-1].1.relationships
  }

  function FinalOf(os: seq<Outcome>, uncertain: nat): Status {
    FinalStatus(|With(os, ChunkSuccess)|, |With(os, ChunkPartial)|, |With(os, ChunkFailed)|, uncertain)
  }

  /** The accepted jobs that the events leave, those of the mark included. */
  function AcceptedBy(es: seq<Event>): seq<Id> {
    if es == [] then []
    else
      var before := AcceptedBy(es[..|es|-1]);
      match es[|es|-1]
      case Settle(_, _) => before
      case Register(job) => if job in before then before else before + [job]
      case Enqueue(jobs, _) => jobs
      case Mark(jobs, _) => Union(before, jobs)
  }

  // ---- The groups considered ----

  /** The submission ends with the mark, if there is one, and a mark leaves some chunk unconfirmed. */
  ghost predicate Tidy(es: seq<Event>) {
    es == [] ||
    (Tidy(es[..|es|-1]) && (es[|es|-1].Settle? || Marks(es[..|es|-1]) == []) && (es[|es|-1].Mark? ==> es[|es|-1].unconfirmed != []))
  }

  /** The events before the mark, all of them if there is none. */
  function BeforeMark(es: seq<Event>): seq<Event> {
    if es == [] then []
    else if Marks(es[..|es|-1]) != [] then BeforeMark(es[..|es|-1])
    else if es[|es|-1].Mark? then es[..|es|-1]
    else es
  }

  /** No more jobs settle than there are chunks; if the group is marked, fewer settle before the mark, and all that
      settle are accepted. */
  ghost predicate Covered(n: nat, es: seq<Event>) {
    if Marks(es) == [] then |Firsts(es)| <= n
    else |Firsts(BeforeMark(es))| < n && forall j :: j in Jobs(Firsts(es)) ==> j in AcceptedBy(es)
  }

  ghost predicate HoldsTallies(x: Audit, os: seq<Outcome>) {
    && x.settled == Jobs(os)
    && x.completed == With(os, ChunkSuccess) && x.partials == With(os, ChunkPartial) && x.failures == With(os, ChunkFailed)
    && x.completedChunks == |x.completed| && x.partialChunks == |x.partials| && x.failedChunks == |x.failures|
    && x.entities == Entities(os) && x.relationships == Relationships(os)
  }

  /** What the audit of a group of `n` chunks holds after the events. */
  ghost predicate Holds(x: Audit, n: nat, es: seq<Event>) {
    var os, marks, accepted := Firsts(es), Marks(es), AcceptedBy(es);
    && HoldsTallies(x, os) && x.expected == n
    && x.submissionUncertain == (marks != [])
    && x.uncertainChunks == (if marks != [] && marks[0].Mark? then |marks[0].unconfirmed| else 0)
    && if marks != [] then
         x.jobIds == accepted && x.submitted == |accepted| && x.status == if |os| >= |accepted| then Uncertain else Queued
       else if |os| >= n then x.status == FinalOf(os, 0)
       else !IsTerminal(x.status) && x.jobIds == accepted
  }

  // ---- One settlement ----

  /** How many settled jobs end a group: those submitted, if it is marked; else the chunks that it expects, or else those that
      the receipt names, and one if none does. */
  ghost function Awaited(a: Audit, info: JobInfo): nat {
    if a.submissionUncertain then (if a.submitted > 0 then a.submitted else |a.jobIds|)
    else if a.expected > 0 then a.expected else if info.totalChunks > 0 then info.totalChunks else 1
  }

  /** What one settlement makes of any audit. The group ends when as many jobs have settled as are awaited; the partial
      flag says of every settlement whether the group would end partial with it. */
  lemma SettlementMeaning(a: Audit, job: Id, info: JobInfo, s: Settlement)
    ensures var n, awaited := Settled(a, job, info, s), Awaited(a, info);
      var good, some, bad := |n.completed|, |n.partials|, |n.failures|;
      && n.settled == a.settled + [job]
      && n.completed == a.completed + (if s.status == ChunkSuccess then [job] else [])
      && n.partials == a.partials + (if s.status == ChunkPartial then [job] else [])
      && n.failures == a.failures + (if s.status == ChunkFailed then [job] else [])
      && n.completedChunks == good && n.partialChunks == some && n.failedChunks == bad
      && n.entities == a.entities + (if s.status == ChunkFailed then 0 else s.entities)
      && n.relationships == a.relationships + (if s.status == ChunkFailed then 0 else s.relationships)
      && (n.partial <==> a.uncertainChunks == 0 && (some > 0 || (good > 0 && bad > 0)))
      && n.status == (if awaited == 0 || |a.settled| + 1 < awaited then a.status
                      else if a.uncertainChunks > 0 then Uncertain
                      else if some > 0 || (good > 0 && bad > 0) then Partial
                      else if bad > 0 then Failed
                      else Success)
      && n.id == a.id && n.signature == a.signature && n.expected == a.expected && n.submitted == a.submitted
      && n.jobIds == a.jobIds && n.submissionUncertain == a.submissionUncertain
      && n.uncertainChunks == a.uncertainChunks && n.unconfirmed == a.unconfirmed
  {
  }

  // ---- Lists of ids ----

  lemma {:induction false} JobsIndex(os: seq<Outcome>, j: Id)
    ensures |Jobs(os)| == |os|
    ensures j in Jobs(os) ==> exists i :: 0 <= i < |os| && os[i].0 == j
  {
    if os != [] {
      JobsIndex(os[..|os|-1], j);
      if os[|os|-1].0 == j { assert os[|os|-1].0 == j; }
    }
  }

  /** Distinct ids from a list are no more than the list has. */
  lemma Pigeons(ids: seq<Id>, among: seq<Id>)
    requires Distinct(ids) && forall j :: j in ids ==> j in among
    ensures |ids| <= |among|
  {
    ElementsSize(ids);
    ElementsSize(among);
    SubsetSize(Elements(ids), Elements(among));
  }

  lemma {:induction false} DedupeMeaning(a: seq<Id>)
    ensures Distinct(Dedupe(a)) && Elements(Dedupe(a)) == Elements(a)
  {
    if a != [] {
      var init, last := a[..|a|-1], a[|a|-1];
      DedupeMeaning(init);
      assert a == init + [last];
      assert last in Dedupe(init) <==> last in Elements(Dedupe(init));
      assert Elements(a) == Elements(init) + {last} && Elements(Dedupe(init) + [last]) == Elements(Dedupe(init)) + {last};
    }
  }

  lemma {:induction false} UnionMeaning(a: seq<Id>, b: seq<Id>)
    ensures Distinct(Union(a, b)) && Elements(Union(a, b)) == Elements(a) + Elements(b)
  {
    if b == [] {
      DedupeMeaning(a);
    } else {
      var init, last := b[..|b|-1], b[|b|-1];
      UnionMeaning(a, init);
      assert b == init + [last];
      var u := Union(a, init);
      assert last in u <==> last in Elements(u);
      assert Elements(b) == Elements(init) + {last} && Elements(u + [last]) == Elements(u) + {last};
    }
  }

  /** The union of two lists is their concatenation without repetitions. */
  lemma {:induction false} UnionIsDedupe(a: seq<Id>, b: seq<Id>)
    ensures Union(a, b) == Dedupe(a + b)
  {
    if b == [] {
      assert a + b == a;
    } else {
      UnionIsDedupe(a, b[..|b|-1]);
      assert (a + b)[..|a + b|-1] == a + b[..|b|-1];
    }
  }

  predicate Settles(es: seq<Event>, job: Id) {
    es != [] && ((es[|es|-1].Settle? && es[|es|-1].job == job) || Settles(es[..|es|-1], job))
  }

  lemma {:induction false} SettlesSomewhere(es: seq<Event>, job: Id) returns (i: nat)
    requires Settles(es, job)
    ensures i < |es| && es[i].Settle? && es[i].job == job
  {
    if es[|es|-1].Settle? && es[|es|-1].job == job { i := |es| - 1; } else { i := SettlesSomewhere(es[..|es|-1], job); }
  }

  lemma {:induction false} FirstsSettle(es: seq<Event>, job: Id)
    ensures job in Jobs(Firsts(es)) <==> Settles(es, job)
  {
    if es != [] {
      var before, e := Firsts(es[..|es|-1]), es[|es|-1];
      FirstsSettle(es[..|es|-1], job);
      if e.Settle? { TallyOne(before, (e.job, e.s), ChunkSuccess); }
    }
  }

  lemma {:induction false} FirstsDistinct(es: seq<Event>)
    ensures Distinct(Jobs(Firsts(es)))
  {
    if es != [] {
      var before, e := Firsts(es[..|es|-1]), es[|es|-1];
      FirstsDistinct(es[..|es|-1]);
      if e.Settle? { TallyOne(before, (e.job, e.s), ChunkSuccess); }
    }
  }

  // ---- The closed form ----

  lemma TallyOne(os: seq<Outcome>, o: Outcome, status: ChunkStatus)
    ensures Jobs(os + [o]) == Jobs(os) + [o.0]
    ensures With(os + [o], status) == With(os, status) + if o.1.status == status then [o.0] else []
    ensures Entities(os + [o]) == Entities(os) + if o.1.status.ChunkFailed? then 0 else o.1.entities
    ensures Relationships(os + [o]) == Relationships(os) + if o.1.status.ChunkFailed? then 0 else o.1.relationships
  {
    assert (os + [o])[..|os|] == os;
  }

  lemma SettleTallies(x: Audit, os: seq<Outcome>, job: Id, info: JobInfo, s: Settlement)
    requires HoldsTallies(x, os)
    ensures HoldsTallies(Settled(x, job, info, s), os + [(job, s)])
  {
    TallyOne(os, (job, s), ChunkSuccess);
    TallyOne(os, (job, s), ChunkPartial);
    TallyOne(os, (job, s), ChunkFailed);
  }

  /** Under a tidy mark the accepted jobs are listed once each. */
  lemma {:induction false} MarkedAccepted(es: seq<Event>)
    requires Tidy(es) && Marks(es) != []
    ensures Distinct(AcceptedBy(es)) && |Marks(es)| == 1 && Marks(es)[0].Mark? && Marks(es)[0].unconfirmed != []
  {
    var init, e := es[..|es|-1], es[|es|-1];
    if e.Mark? { UnionMeaning(AcceptedBy(init), e.jobs); } else { MarkedAccepted(init); }
  }

  lemma OutcomesFit(n: nat, es: seq<Event>)
    requires Covered(n, es)
    ensures Distinct(Jobs(Firsts(es))) && |Jobs(Firsts(es))| == |Firsts(es)|
    ensures |Firsts(es)| <= if Marks(es) == [] then n else |AcceptedBy(es)|
  {
    FirstsDistinct(es);
    JobsIndex(Firsts(es), []);
    if Marks(es) != [] { Pigeons(Jobs(Firsts(es)), AcceptedBy(es)); }
  }

  lemma CoveredPrefix(n: nat, es: seq<Event>)
    requires es != [] && Tidy(es) && Covered(n, es)
    ensures Covered(n, es[..|es|-1]) && (es[|es|-1].Mark? ==> |Firsts(es)| < n)
  {
    OutcomesFit(n, es);
    var before, e := Firsts(es[..|es|-1]), es[|es|-1];
    if e.Settle? { TallyOne(before, (e.job, e.s), ChunkSuccess); }
  }

  lemma SettleHolds(x: Audit, n: nat, init: seq<Event>, e: Event)
    requires e.Settle? && Holds(x, n, init) && Tidy(init + [e]) && Covered(n, init + [e])
    ensures Holds(Step(x, e), n, init + [e])
  {
    var es := init + [e];
    assert es[..|es|-1] == init;
    var os := Firsts(init);
    JobsIndex(os, e.job);
    OutcomesFit(n, es);
    if Marks(init) != [] { MarkedAccepted(init); }
    if e.job !in Jobs(os) {
      SettleTallies(x, os, e.job, JobInfo(x.id, 1, x.expected, x.signature), e.s);
    }
  }

  lemma MarkHolds(x: Audit, n: nat, init: seq<Event>, e: Event)
    requires e.Mark? && Holds(x, n, init) && Tidy(init + [e]) && Covered(n, init + [e]) && |Firsts(init)| < n
    ensures Holds(Step(x, e), n, init + [e])
  {
    var es := init + [e];
    assert es[..|es|-1] == init;
    JobsIndex(Firsts(init), []);
  }

  lemma SubmissionHolds(x: Audit, n: nat, init: seq<Event>, e: Event)
    requires (e.Register? || e.Enqueue?) && Holds(x, n, init) && Tidy(init + [e]) && n > 0
    ensures Holds(Step(x, e), n, init + [e])
  {
    var es := init + [e];
    assert es[..|es|-1] == init;
  }

  /** Whatever the order of settlements, registrations and the mark, the audit holds what each job's first outcome,
      the accepted jobs and the mark determine. */
  lemma {:induction false} RunHolds(id: Id, signature: Option<Signature>, n: nat, es: seq<Event>)
    requires n > 0 && Tidy(es) && Covered(n, es)
    ensures Holds(Run(Group(id, signature, n), es), n, es)
  {
    if es != [] {
      var init, e := es[..|es|-1], es[|es|-1];
      assert es == init + [e];
      CoveredPrefix(n, es);
      RunHolds(id, signature, n, init);
      var x := Run(Group(id, signature, n), init);
      if e.Settle? { SettleHolds(x, n, init, e); }
      else if e.Mark? { MarkHolds(x, n, init, e); }
      else { SubmissionHolds(x, n, init, e); }
    }
  }

  // ---- Permutations ----

  /** What a list of outcomes adds up to. */
  datatype Total = Total(
    successes: multiset<Id>, partials: multiset<Id>, failures: multiset<Id>, entities: nat, relationships: nat)

  ghost function One(o: Outcome): Total {
    var (job, s) := o;
    match s.status
    case ChunkSuccess => Total(multiset{job}, multiset{}, multiset{}, s.entities, s.relationships)
    case ChunkPartial => Total(multiset{}, multiset{job}, multiset{}, s.entities, s.relationships)
    case ChunkFailed => Total(multiset{}, multiset{}, multiset{job}, 0, 0)
  }

  ghost function Add(x: Total, y: Total): Total {
    Total(x.successes + y.successes, x.partials + y.partials, x.failures + y.failures,
          x.entities + y.entities, x.relationships + y.relationships)
  }

  ghost function TotalOf(os: seq<Outcome>): Total {
    if os == [] then Total(multiset{}, multiset{}, multiset{}, 0, 0) else Add(TotalOf(os[..|os|-1]), One(os[|os|-1]))
  }

  lemma AddSwap(x: Total, y: Total, z: Total)
    ensures Add(Add(x, y), z) == Add(Add(x, z), y)
  {
  }

  function RemoveAt(os: seq<Outcome>, i: nat): seq<Outcome>
    requires i < |os|
    decreases |os|
  {
    if i == |os| - 1 then os[..i] else RemoveAt(os[..|os|-1], i) + [os[|os|-1]]
  }

  /** An outcome counts the same wherever it stands. */
  lemma {:induction false} TotalRemove(os: seq<Outcome>, i: nat)
    requires i < |os|
    ensures TotalOf(os) == Add(TotalOf(RemoveAt(os, i)), One(os[i]))
    decreases |os|
  {
    if i < |os| - 1 {
      var init, last := os[..|os|-1], os[|os|-1];
      TotalRemove(init, i);
      var r := RemoveAt(init, i);
      assert (r + [last])[..|r|] == r;
      AddSwap(TotalOf(r), One(os[i]), One(last));
    }
  }

  lemma {:induction false} RemoveAtElements(os: seq<Outcome>, i: nat)
    requires i < |os|
    ensures multiset(os) == multiset(RemoveAt(os, i)) + multiset{os[i]}
    decreases |os|
  {
    var init, last := os[..|os|-1], os[|os|-1];
    assert os == init + [last];
    if i < |os| - 1 { RemoveAtElements(init, i); }
  }

  lemma Cancel<T(!new)>(x: multiset<T>, y: multiset<T>, t: T)
    requires x + multiset{t} == y + multiset{t}
    ensures x == y
  {
    forall e ensures x[e] == y[e] { assert (x + multiset{t})[e] == (y + multiset{t})[e]; }
  }

  lemma {:induction false} TotalPermutation(p: seq<Outcome>, q: seq<Outcome>)
    requires multiset(p) == multiset(q)
    ensures TotalOf(p) == TotalOf(q)
    decreases |p|
  {
    SameSize(p, q);
    if p != [] {
      var init, last := p[..|p|-1], p[|p|-1];
      assert p == init + [last];
      assert last in multiset(q);
      var i :| 0 <= i < |q| && q[i] == last;
      RemoveAtElements(q, i);
      assert multiset(p) == multiset(init) + multiset{last};
      Cancel(multiset(init), multiset(RemoveAt(q, i)), last);
      TotalPermutation(init, RemoveAt(q, i));
      TotalRemove(q, i);
    }
  }

  lemma SameSize<T>(p: seq<T>, q: seq<T>)
    requires multiset(p) == multiset(q)
    ensures |p| == |q|
  {
    assert |multiset(p)| == |p| && |multiset(q)| == |q|;
  }

  ghost function Part(t: Total, status: ChunkStatus): multiset<Id> {
    match status case ChunkSuccess => t.successes case ChunkPartial => t.partials case ChunkFailed => t.failures
  }

  lemma {:induction false} TotalWith(os: seq<Outcome>, status: ChunkStatus)
    ensures Part(TotalOf(os), status) == multiset(With(os, status))
  {
    if os != [] {
      TotalWith(os[..|os|-1], status);
      assert Part(One(os[|os|-1]), status) == multiset(if os[|os|-1].1.status == status then [os[|os|-1].0] else []);
    }
  }

  lemma {:induction false} TotalSums(os: seq<Outcome>)
    ensures TotalOf(os).entities == Entities(os) && TotalOf(os).relationships == Relationships(os)
  {
    if os != [] { TotalSums(os[..|os|-1]); }
  }

  /** Everything an audit reports, except texts, the `partial` flag, and the order of its lists. */
  ghost predicate ComesToTheSame(x: Audit, y: Audit) {
    && (x.status == y.status || (!IsTerminal(x.status) && !IsTerminal(y.status)))
    && |x.settled| == |y.settled|
    && multiset(x.completed) == multiset(y.completed)
    && multiset(x.partials) == multiset(y.partials)
    && multiset(x.failures) == multiset(y.failures)
    && x.completedChunks == y.completedChunks && x.partialChunks == y.partialChunks && x.failedChunks == y.failedChunks
    && x.uncertainChunks == y.uncertainChunks && x.submissionUncertain == y.submissionUncertain
    && x.entities == y.entities && x.relationships == y.relationships
  }

  /** The marks of two interleavings leave as many chunks unconfirmed and accept the same jobs. */
  ghost predicate SameMark(p: seq<Event>, q: seq<Event>) {
    && |Marks(p)| == |Marks(q)|
    && (Marks(p) != [] && Marks(q) != [] && Marks(p)[0].Mark? && Marks(q)[0].Mark? ==>
          |Marks(p)[0].unconfirmed| == |Marks(q)[0].unconfirmed| && Elements(AcceptedBy(p)) == Elements(AcceptedBy(q)))
  }

  /** Two interleavings in which every job's first outcome is the same, and the uncertain mark if there is one,
      bring the group to the same end. */
  lemma OrderIndependence(id: Id, signature: Option<Signature>, n: nat, p: seq<Event>, q: seq<Event>)
    requires n > 0 && Tidy(p) && Covered(n, p) && Tidy(q) && Covered(n, q)
    requires multiset(Firsts(p)) == multiset(Firsts(q)) && SameMark(p, q)
    ensures ComesToTheSame(Run(Group(id, signature, n), p), Run(Group(id, signature, n), q))
  {
    RunHolds(id, signature, n, p);
    RunHolds(id, signature, n, q);
    SameTallies(Firsts(p), Firsts(q));
    if Marks(p) != [] {
      MarkedAccepted(p);
      MarkedAccepted(q);
      ElementsSize(AcceptedBy(p));
      ElementsSize(AcceptedBy(q));
    }
  }

  lemma SameTallies(p: seq<Outcome>, q: seq<Outcome>)
    requires multiset(p) == multiset(q)
    ensures |p| == |q| && |Jobs(p)| == |p| && |Jobs(q)| == |q|
    ensures forall status :: multiset(With(p, status)) == multiset(With(q, status)) && |With(p, status)| == |With(q, status)|
    ensures Entities(p) == Entities(q) && Relationships(p) == Relationships(q)
  {
    TotalPermutation(p, q);
    TotalSums(p);
    TotalSums(q);
    SameSize(p, q);
    JobsIndex(p, []);
    JobsIndex(q, []);
    forall status ensures multiset(With(p, status)) == multiset(With(q, status)) && |With(p, status)| == |With(q, status)| {
      TotalWith(p, status);
      TotalWith(q, status);
      SameSize(With(p, status), With(q, status));
    }
  }

  // ---- How a group ends ----

  ghost predicate All(os: seq<Outcome>, status: ChunkStatus) { forall i :: 0 <= i < |os| ==> os[i].1.status == status }

  lemma {:induction false} WithSizes(os: seq<Outcome>, status: ChunkStatus)
    ensures |With(os, ChunkSuccess)| + |With(os, ChunkPartial)| + |With(os, ChunkFailed)| == |os|
    ensures |With(os, status)| <= |os| && (|With(os, status)| == |os| <==> All(os, status))
  {
    if os != [] {
      var init := os[..|os|-1];
      WithSizes(init, status);
      assert forall i :: 0 <= i < |init| ==> init[i] == os[i];
      assert All(os, status) <==> All(init, status) && os[|os|-1].1.status == status;
    }
  }

  /** Once every accepted job has settled: a marked group is uncertain; an unmarked one succeeds exactly when every
      chunk succeeded, fails exactly when every chunk failed, and is partial otherwise. */
  lemma GroupEnds(id: Id, signature: Option<Signature>, n: nat, es: seq<Event>)
    requires n > 0 && Tidy(es) && Covered(n, es) && |Firsts(es)| == if Marks(es) == [] then n else |AcceptedBy(es)|
    ensures var end := Run(Group(id, signature, n), es).status;
      if Marks(es) != [] then end == Uncertain
      else
        && (end == Success <==> All(Firsts(es), ChunkSuccess))
        && (end == Failed <==> All(Firsts(es), ChunkFailed))
        && end in {Success, Failed, Partial}
  {
    RunHolds(id, signature, n, es);
    WithSizes(Firsts(es), ChunkSuccess);
    WithSizes(Firsts(es), ChunkFailed);
  }
}
