/** What the worker does when nothing comes between: a poll from the receipt to its release, a submission from the
    capture to the queued audit, and a capture from its text to the outcome shown. */
module CaptureUndisturbed {
  import opened CaptureAudits
  import opened CaptureProtocol
  import opened CaptureRestart
  import opened CaptureTheorems
  import opened Options

  ghost predicate Via(s: State, p: seq<Step>, n: State) { Exec(s, p) == n }

  lemma One(s: State, step: Step, n: State)
    requires After(s, step) == n
    ensures Via(s, [step], n)
  {
    assert [step][1..] == [];
  }

  lemma Both(s: State, p: seq<Step>, m: State, q: seq<Step>, n: State)
    requires Via(s, p, m) && Via(m, q, n)
    ensures Via(s, p + q, n)
  {
    ExecConcat(s, p, q);
  }

  // ---- What follows a settlement ----

  const ENDING: seq<Step> := [Commit(0, true)] + [Notify(0)] + [Untrack(0)]

  lemma Ending(s: State, c: State, d: State, n: State)
    requires After(s, Commit(0, true)) == c && After(c, Notify(0)) == d && After(d, Untrack(0)) == n
    ensures Via(s, ENDING, n)
  {
    One(s, Commit(0, true), c);
    One(c, Notify(0), d);
    One(d, Untrack(0), n);
    Both(s, [Commit(0, true)], c, [Notify(0)], d);
    Both(s, [Commit(0, true)] + [Notify(0)], d, [Untrack(0)], n);
  }

  lemma CommitWrites(s: State, job: Id, x: Id, signature: Signature, first: bool)
    requires s.tasks == map[0 := Committing(job, first)] && job in s.issued
    requires s.issued[job].auditId == x && s.issued[job].signature == Some(signature)
    ensures After(s, Commit(0, true)) == s.(tasks := map[0 := if first then Notifying(x, Some(job)) else Untracking(job)],
      signatures := Committed(s.signatures, signature), written := s.written + [(x, signature)])
  {
  }

  lemma NotifyShows(s: State, x: Id, job: Id)
    requires s.tasks == map[0 := Notifying(x, Some(job))]
    ensures After(s, Notify(0)) == s.(tasks := map[0 := Untracking(job)], notes := s.notes + [x])
  {
  }

  lemma UntrackReleases(s: State, job: Id)
    requires s.tasks == map[0 := Untracking(job)]
    ensures After(s, Untrack(0)) == s.(tasks := map[], pending := s.pending - {job})
  {
  }

  /** A success with a signature: it is written, the outcome shown, the receipt released. */
  lemma EndsInSuccess(s: State, job: Id, x: Id, signature: Signature)
    requires s.tasks == map[0 := Committing(job, true)] && job in s.issued
    requires s.issued[job].auditId == x && s.issued[job].signature == Some(signature)
    ensures Via(s, ENDING, s.(tasks := map[], pending := s.pending - {job},
      signatures := Committed(s.signatures, signature), written := s.written + [(x, signature)], notes := s.notes + [x]))
  {
    var c := s.(tasks := map[0 := Notifying(x, Some(job))],
      signatures := Committed(s.signatures, signature), written := s.written + [(x, signature)]);
    var d := c.(tasks := map[0 := Untracking(job)], notes := s.notes + [x]);
    CommitWrites(s, job, x, signature, true);
    NotifyShows(c, x, job);
    UntrackReleases(d, job);
    Ending(s, c, d, d.(tasks := map[], pending := s.pending - {job}));
  }

  /** Any other end: the outcome is shown and the receipt released. */
  lemma EndsOtherwise(s: State, job: Id, x: Id)
    requires s.tasks == map[0 := Notifying(x, Some(job))]
    ensures Via(s, ENDING, s.(tasks := map[], pending := s.pending - {job}, notes := s.notes + [x]))
  {
    var d := s.(tasks := map[0 := Untracking(job)], notes := s.notes + [x]);
    assert After(s, Commit(0, true)) == s;
    NotifyShows(s, x, job);
    UntrackReleases(d, job);
    Ending(s, s, d, d.(tasks := map[], pending := s.pending - {job}));
  }

  /** The replay of a success: its signature is written again and the receipt released. */
  lemma EndsReplay(s: State, job: Id, x: Id, signature: Signature)
    requires s.tasks == map[0 := Committing(job, false)] && job in s.issued
    requires s.issued[job].auditId == x && s.issued[job].signature == Some(signature)
    ensures Via(s, ENDING, s.(tasks := map[], pending := s.pending - {job},
      signatures := Committed(s.signatures, signature), written := s.written + [(x, signature)]))
  {
    var c := s.(tasks := map[0 := Untracking(job)],
      signatures := Committed(s.signatures, signature), written := s.written + [(x, signature)]);
    CommitWrites(s, job, x, signature, false);
    assert After(c, Notify(0)) == c;
    UntrackReleases(c, job);
    Ending(s, c, c, c.(tasks := map[], pending := s.pending - {job}));
  }

  lemma EndsQuietly(s: State, job: Id)
    requires s.tasks == map[0 := Untracking(job)]
    ensures Via(s, ENDING, s.(tasks := map[], pending := s.pending - {job}))
  {
    assert After(s, Commit(0, true)) == s;
    assert After(s, Notify(0)) == s;
    UntrackReleases(s, job);
    Ending(s, s, s, s.(tasks := map[], pending := s.pending - {job}));
  }

  /** A failed write of the signature still shows the outcome, and keeps the receipt. */
  lemma UnwrittenEnd(s: State, job: Id, x: Id)
    requires s.tasks == map[0 := Committing(job, true)] && job in s.issued && s.issued[job].auditId == x
    ensures Via(s, [Commit(0, false)] + [Notify(0)], s.(tasks := map[], notes := s.notes + [x]))
  {
    var c := s.(tasks := map[0 := Notifying(x, None)]);
    var n := c.(tasks := map[], notes := s.notes + [x]);
    assert After(s, Commit(0, false)) == c;
    assert After(c, Notify(0)) == n;
    One(s, Commit(0, false), c);
    One(c, Notify(0), n);
    Both(s, [Commit(0, false)], c, [Notify(0)], n);
  }

  // ---- A poll ----

  lemma {:induction false} StoreFound(audits: seq<Audit>, x: Id)
    requires Find(audits, x).Some?
    ensures Store(audits, x, Find(audits, x).value) == audits
  {
    if audits[0].id != x { StoreFound(audits[1..], x); }
  }

  /** The group after the poll of a job. */
  ghost function PolledTo(s: State, job: Id, x: Id, signature: Option<Signature>, was: Status, b: Audit): State {
    var ended := was in {Submitting, Queued} && b.status in {Success, Failed, Partial, Uncertain, Blocked};
    var signs := b.status == Success && signature.Some?;
    s.(audits := Store(s.audits, x, b), pending := s.pending - {job},
       finals := if ended then s.finals + [(x, b.status)] else s.finals,
       notes := if ended then s.notes + [x] else s.notes,
       written := if signs then s.written + [(x, signature.value)] else s.written,
       signatures := if signs then Committed(s.signatures, signature.value) else s.signatures)
  }

  lemma SettledQuietly(s: State, job: Id, r: Settlement, x: Id, a: Audit)
    requires s.tasks == map[0 := Polled(job)] && job in s.issued && s.issued[job].auditId == x && x != []
    requires Find(s.audits, x) == Some(a) && (IsTerminal(a.status) || job in a.settled)
    ensures var signature := s.issued[job].signature;
      After(s, Settle(0, r)) == s.(tasks := map[0 :=
        if a.status == Success && signature.Some? then Committing(job, false) else Untracking(job)])
  {
  }

  lemma SettledAnew(s: State, job: Id, r: Settlement, x: Id, a: Audit)
    requires s.tasks == map[0 := Polled(job)] && job in s.issued && s.issued[job].auditId == x && x != []
    requires Find(s.audits, x) == Some(a) && !IsTerminal(a.status) && job !in a.settled
    ensures var signature, b := s.issued[job].signature, Settled(a, job, s.issued[job], r);
      After(s, Settle(0, r)) == s.(audits := Store(s.audits, x, b),
        finals := if IsTerminal(b.status) then s.finals + [(x, b.status)] else s.finals,
        tasks := map[0 :=
          if !IsTerminal(b.status) then Untracking(job)
          else if b.status == Success && signature.Some? then Committing(job, true)
          else Notifying(x, Some(job))])
  {
  }

  lemma PollTakes(s: State, job: Id)
    requires Idle(s) && job in s.pending && job in s.polled
    ensures After(s, Poll(0, job)) == s.(tasks := map[0 := Polled(job)])
  {
  }

  /** A poll that nothing disturbs, by what it leaves everywhere: the group with the settlement recorded; a terminal
      outcome reported and shown once, when it comes; the signature of a success written, also on a replay; and the
      receipt released. */
  lemma UndisturbedPoll(s: State, job: Id, r: Settlement, x: Id, a: Audit)
    requires Safe(s) && Idle(s) && job in s.pending && job in s.polled && s.pending[job].auditId == x && Find(s.audits, x) == Some(a)
    ensures var info := s.pending[job];
      var b := if a.status in {Submitting, Queued} && job !in a.settled then Settled(a, job, info, r) else a;
      Exec(s, PollOf(job, r)) == PolledTo(s, job, x, info.signature, a.status, b)
  {
    var info := s.pending[job];
    var p := s.(tasks := map[0 := Polled(job)]);
    var q := After(p, Settle(0, r));
    assert x in s.used && s.issued[job] == info;
    PollTakes(s, job);
    One(s, Poll(0, job), p);
    One(p, Settle(0, r), q);
    if a.status in {Submitting, Queued} && job !in a.settled {
      SettledAnew(p, job, r, x, a);
      var b := Settled(a, job, info, r);
      if !IsTerminal(b.status) { EndsQuietly(q, job); }
      else if b.status == Success && info.signature.Some? { EndsInSuccess(q, job, x, info.signature.value); }
      else { EndsOtherwise(q, job, x); }
    } else {
      SettledQuietly(p, job, r, x, a);
      StoreFound(s.audits, x);
      if a.status == Success && info.signature.Some? { EndsReplay(q, job, x, info.signature.value); }
      else { EndsQuietly(q, job); }
    }
    Both(s, [Poll(0, job)], p, [Settle(0, r)], q);
    Both(s, [Poll(0, job)] + [Settle(0, r)], q, ENDING, Exec(q, ENDING));
  }

  /** The poll of a job whose group has left the list only releases the receipt. */
  lemma PollOfForgotten(s: State, job: Id, r: Settlement)
    requires Safe(s) && Idle(s) && job in s.pending && job in s.polled && Find(s.audits, s.pending[job].auditId).None?
    ensures Exec(s, PollOf(job, r)) == s.(pending := s.pending - {job})
  {
    var p, q := s.(tasks := map[0 := Polled(job)]), s.(tasks := map[0 := Untracking(job)]);
    PollTakes(s, job);
    assert After(p, Settle(0, r)) == q;
    EndsQuietly(q, job);
    One(s, Poll(0, job), p);
    One(p, Settle(0, r), q);
    Both(s, [Poll(0, job)], p, [Settle(0, r)], q);
    Both(s, [Poll(0, job)] + [Settle(0, r)], q, ENDING, s.(pending := s.pending - {job}));
  }
}
