/** Runs of the protocol that differ in when the jobs of a group are polled: when they bring the group to the same end. */
module CaptureOrder {
  import opened CaptureAudits
  import opened CaptureInvariant
  import opened CaptureProtocol
  import opened CaptureSubmission
  import opened CaptureTheorems
  import opened CaptureTracking
  import opened Options
  import opened Sorting
  import G = CaptureSettlement
  import H = CaptureHistory

  // ---- Outcomes that answer the same ----

  lemma DistinctInit(ids: seq<Id>, x: Id)
    requires Distinct(ids + [x])
    ensures Distinct(ids) && x !in ids
  {
    assert forall i :: 0 <= i < |ids| ==> (ids + [x])[i] == ids[i];
    assert (ids + [x])[|ids|] == x;
  }

  lemma {:induction false} CountOutcome(os: seq<G.Outcome>, m: map<Id, Settlement>, o: G.Outcome)
    requires Distinct(G.Jobs(os)) && Matches(os, m)
    ensures multiset(os)[o] == if o.0 in G.Jobs(os) && o.0 in m && o.1 == m[o.0] then 1 else 0
  {
    G.JobsIndex(os, o.0);
    if os != [] {
      var init, last := os[..|os|-1], os[|os|-1];
      assert os == init + [last] && G.Jobs(os) == G.Jobs(init) + [last.0];
      G.JobsIndex(init, o.0);
      DistinctInit(G.Jobs(init), last.0);
      CountOutcome(init, m, o);
    }
  }

  lemma SameOutcomes(p: seq<G.Outcome>, q: seq<G.Outcome>, m: map<Id, Settlement>)
    requires Distinct(G.Jobs(p)) && Distinct(G.Jobs(q)) && Elements(G.Jobs(p)) == Elements(G.Jobs(q)) && Matches(p, m) && Matches(q, m)
    ensures multiset(p) == multiset(q)
  {
    forall o ensures multiset(p)[o] == multiset(q)[o] {
      CountOutcome(p, m, o);
      CountOutcome(q, m, o);
      assert o.0 in G.Jobs(p) <==> o.0 in Elements(G.Jobs(p));
      assert o.0 in G.Jobs(q) <==> o.0 in Elements(G.Jobs(q));
    }
  }

  // ---- How a followed group stands ----

  /** A group in a reachable state, all of whose jobs settled in time. */
  ghost predicate Stands(s: State, x: Id, a: Audit, o: Seen, life: H.History) {
    Followed(s, x, o, life) && o.prompt && Find(s.audits, x) == Some(a) && a.expected > 0
  }

  function ChunksOf(issued: Pending, jobs: set<Id>): set<nat> { set j | j in jobs && j in issued :: issued[j].chunkIndex }

  lemma {:induction false} ChunksApart(s: State, x: Id, jobs: set<Id>)
    requires JobsOk(s) && jobs <= JobsIn(s.issued, x)
    ensures |ChunksOf(s.issued, jobs)| == |jobs|
    decreases |jobs|
  {
    if jobs != {} {
      var j :| j in jobs;
      ChunksApart(s, x, jobs - {j});
      assert ChunksOf(s.issued, jobs) == ChunksOf(s.issued, jobs - {j}) + {s.issued[j].chunkIndex};
      assert s.issued[j].chunkIndex !in ChunksOf(s.issued, jobs - {j});
    }
  }

  /** A group never has more jobs than chunks. */
  lemma FewJobs(s: State, x: Id, a: Audit)
    requires Sound(s) && Find(s.audits, x) == Some(a)
    ensures |JobsIn(s.issued, x)| <= a.expected
  {
    var jobs := JobsIn(s.issued, x);
    FindId(s.audits, x);
    ChunksApart(s, x, jobs);
    forall k | k in ChunksOf(s.issued, jobs) ensures 1 <= k <= a.expected {}
    RangeTooSmall(a.expected, ChunksOf(s.issued, jobs));
  }

  lemma StandsCore(s: State, x: Id, a: Audit, o: Seen, life: H.History)
    requires Stands(s, x, a, o, life)
    ensures Core(ViewOf(s, x), ProgressOf(o.log)) && a.id == x && H.Tells(a, life)
    ensures Elements(a.settled) <= JobsIn(s.issued, x) && |a.settled| <= a.expected && |JobsIn(s.issued, x)| <= a.expected
  {
    FindId(s.audits, x);
    FewJobs(s, x, a);
    FewerSettled(a.settled, JobsIn(s.issued, x));
  }

  lemma StandsHolds(s: State, x: Id, a: Audit, o: Seen, life: H.History)
    requires Stands(s, x, a, o, life)
    ensures G.Tidy(life) && G.Covered(a.expected, life) && G.Holds(a, a.expected, life)
    ensures a == G.Run(G.Group(x, a.signature, a.expected), life) && a.jobIds == G.AcceptedBy(life)
  {
    StandsCore(s, x, a, o, life);
    forall j | a.submissionUncertain && j in a.settled ensures j in a.jobIds {
      assert j in Elements(a.settled) && j in Elements(a.jobIds);
    }
    H.HeededCovered(a, life);
    H.HeededMeaning(H.GroupOf(a), life);
    G.RunHolds(x, a.signature, a.expected, life);
  }

  lemma SameSize(p: set<Id>, q: set<Id>)
    requires p <= q && |q| <= |p|
    ensures p == q
  {
    assert q == p + (q - p);
  }

  /** Which answers are recorded: all, until a marked group has ended; then those of the accepted jobs. */
  lemma AnswersRecorded(s: State, x: Id, a: Audit, o: Seen, life: H.History)
    requires Stands(s, x, a, o, life)
    ensures Elements(a.settled) <= o.answers.Keys
    ensures IsOpen(a) || !a.submissionUncertain ==> Elements(a.settled) == o.answers.Keys
    ensures a.submissionUncertain ==> Elements(a.settled) <= Elements(a.jobIds)
    ensures !IsOpen(a) && a.submissionUncertain ==> Elements(a.settled) == Elements(a.jobIds)
  {
    StandsCore(s, x, a, o, life);
    SettledAreFirsts(s, x, life);
    forall j | j in a.settled ensures j in o.answers { MatchesJobs(G.Firsts(life), o.answers, j); }
    ElementsSize(a.settled);
    if !IsOpen(a) {
      if a.submissionUncertain {
        ElementsSize(a.jobIds);
        SameSize(Elements(a.settled), Elements(a.jobIds));
      } else {
        SubsetSize(o.answers.Keys, JobsIn(s.issued, x));
        SameSize(Elements(a.settled), o.answers.Keys);
      }
    }
  }

  lemma SameSettled(s: State, a: Audit, o: Seen, life: H.History, r: State, b: Audit, q: Seen, m: H.History, x: Id)
    requires Stands(s, x, a, o, life) && Stands(r, x, b, q, m) && o.log == q.log && o.answers == q.answers
    ensures Elements(a.settled) == Elements(b.settled)
    ensures a.submissionUncertain == b.submissionUncertain && a.uncertainChunks == b.uncertainChunks
    ensures a.expected == b.expected && a.signature == b.signature
    ensures a.submissionUncertain ==> Elements(a.jobIds) == Elements(b.jobIds)
  {
    StandsCore(s, x, a, o, life);
    StandsCore(r, x, b, q, m);
    AnswersRecorded(s, x, a, o, life);
    AnswersRecorded(r, x, b, q, m);
  }

  lemma SameMarks(a: Audit, life: H.History, b: Audit, m: H.History)
    requires G.Tidy(life) && G.Tidy(m) && G.Holds(a, a.expected, life) && G.Holds(b, b.expected, m)
    requires a.submissionUncertain == b.submissionUncertain && a.uncertainChunks == b.uncertainChunks
    requires a.submissionUncertain ==> Elements(a.jobIds) == Elements(b.jobIds)
    ensures G.SameMark(life, m)
  {
    if G.Marks(life) != [] {
      G.MarkedAccepted(life);
      G.MarkedAccepted(m);
    }
  }

  lemma StandAlike(s: State, a: Audit, o: Seen, life: H.History, r: State, b: Audit, q: Seen, m: H.History, x: Id)
    requires Stands(s, x, a, o, life) && Stands(r, x, b, q, m) && o.log == q.log && o.answers == q.answers
    ensures G.ComesToTheSame(a, b)
  {
    SameSettled(s, a, o, life, r, b, q, m, x);
    StandsHolds(s, x, a, o, life);
    StandsHolds(r, x, b, q, m);
    SameMarks(a, life, b, m);
    G.FirstsDistinct(life);
    G.FirstsDistinct(m);
    SameOutcomes(G.Firsts(life), G.Firsts(m), o.answers);
    G.OrderIndependence(x, a.signature, a.expected, life, m);
  }

  // ---- Two runs ----

  lemma RunStands(steps: seq<Step>, x: Id, a: Audit)
    requires Find(Exec(Init(), steps).audits, x) == Some(a) && a.expected > 0 && SeenOf(Init(), steps, x, NOTHING).prompt
    ensures Stands(Exec(Init(), steps), x, a, SeenOf(Init(), steps, x, NOTHING), H.HistoryOf(Init(), steps, x, []))
  {
    FollowedInit(x);
    FollowedRun(Init(), steps, x, NOTHING, []);
  }

  /** Two runs in which the submission of a group goes the same way and its jobs get the same answers, while polls,
      crashes and recoveries may fall differently among them: if in neither a job settles before it is registered or
      named by the mark, both have the same mark and bring the group to the same end. */
  lemma PromptRunsAgree(p: seq<Step>, q: seq<Step>, x: Id, a: Audit, b: Audit)
    requires Find(Exec(Init(), p).audits, x) == Some(a) && Find(Exec(Init(), q).audits, x) == Some(b)
    requires a.expected > 0 && b.expected > 0
    requires var o, r := SeenOf(Init(), p, x, NOTHING), SeenOf(Init(), q, x, NOTHING);
      o.log == r.log && o.answers == r.answers && o.prompt && r.prompt
    ensures a.submissionUncertain == b.submissionUncertain && a.uncertainChunks == b.uncertainChunks
    ensures a.submissionUncertain ==> Elements(a.jobIds) == Elements(b.jobIds)
    ensures G.ComesToTheSame(a, b)
  {
    RunStands(p, x, a);
    RunStands(q, x, b);
    var o, r := SeenOf(Init(), p, x, NOTHING), SeenOf(Init(), q, x, NOTHING);
    var l, m := H.HistoryOf(Init(), p, x, []), H.HistoryOf(Init(), q, x, []);
    SameSettled(Exec(Init(), p), a, o, l, Exec(Init(), q), b, r, m, x);
    StandAlike(Exec(Init(), p), a, o, l, Exec(Init(), q), b, r, m, x);
  }
}
