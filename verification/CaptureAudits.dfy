/** The persisted records of a capture and the operations of the service worker on them. */
module CaptureAudits {
  import opened JsText
  import opened Options
  import opened Sorting

  type Id = Str

  datatype Status = Submitting | Queued | Success | Failed | Partial | Uncertain | Blocked

  predicate IsTerminal(s: Status) { s in {Success, Failed, Partial, Uncertain, Blocked} }

  /** A signature that passed normalization. */
  datatype Signature = Signature(key: Str, sig: Str, count: nat)

  /** The record of one capture group. A number that the source leaves undefined is 0 here, which the source reads
      alike; a list it leaves undefined is empty. Error texts, file names and statistics are left out. */
  datatype Audit = Audit(
    id: Id, status: Status, signature: Option<Signature>,
    expected: nat, submitted: nat, jobIds: seq<Id>,
    settled: seq<Id>, completed: seq<Id>, partials: seq<Id>, failures: seq<Id>,
    completedChunks: nat, partialChunks: nat, failedChunks: nat, uncertainChunks: nat,
    submissionUncertain: bool, unconfirmed: seq<nat>, partial: bool, entities: nat, relationships: nat)

  /** The durable receipt of one accepted chunk. */
  datatype JobInfo = JobInfo(auditId: Id, chunkIndex: nat, totalChunks: nat, signature: Option<Signature>)

  type Pending = map<Id, JobInfo>

  const MAX_AUDITS := 200

  // ---- The audit list, newest first ----

  function Find(audits: seq<Audit>, id: Id): Option<Audit> {
    if audits == [] then None else if audits[0].id == id then Some(audits[0]) else Find(audits[1..], id)
  }

  /** Replaces the first audit with the id. */
  function Store(audits: seq<Audit>, id: Id, a: Audit): seq<Audit> {
    if audits == [] then []
    else if audits[0].id == id then [a] + audits[1..]
    else [audits[0]] + Store(audits[1..], id, a)
  }

  /** `unshift`, then the cap. */
  function Prepend(audits: seq<Audit>, a: Audit): seq<Audit> {
    var all := [a] + audits;
    if |all| > MAX_AUDITS then all[..MAX_AUDITS] else all
  }

  function NewAudit(id: Id, status: Status): Audit {
    Audit(id, status, None, 0, 0, [], [], [], [], [], 0, 0, 0, 0, false, [], false, 0, 0)
  }

  /** The stored audit if it may still change. */
  function Open(audits: seq<Audit>, id: Id): Option<Audit> {
    var found := Find(audits, id);
    if found.Some? && !IsTerminal(found.value.status) then found else None
  }

  // ---- Settling a job ----

  datatype ChunkStatus = ChunkSuccess | ChunkPartial | ChunkFailed

  datatype Settlement = Settlement(status: ChunkStatus, entities: nat, relationships: nat)

  function FinalStatus(completed: nat, partials: nat, failures: nat, uncertain: nat): Status {
    if uncertain > 0 then Uncertain
    else if partials > 0 || (completed > 0 && failures > 0) then Partial
    else if failures > 0 then Failed else Success
  }

  function ExpectedOf(a: Audit, info: JobInfo): nat {
    if a.expected > 0 then a.expected else if info.totalChunks > 0 then info.totalChunks else 1
  }

  function SubmittedOf(a: Audit): nat { if a.submitted > 0 then a.submitted else |a.jobIds| }

  /** How many settled jobs end the group. */
  function Target(a: Audit, info: JobInfo): nat { if a.submissionUncertain then SubmittedOf(a) else ExpectedOf(a, info) }

  function Settled(a: Audit, job: Id, info: JobInfo, s: Settlement): Audit {
    var target := Target(a, info);
    var complete := target > 0 && |a.settled| + 1 >= target;
    var completed := if s.status.ChunkSuccess? then a.completed + [job] else a.completed;
    var partials := if s.status.ChunkPartial? then a.partials + [job] else a.partials;
    var failures := if s.status.ChunkFailed? then a.failures + [job] else a.failures;
    var final := FinalStatus(|completed|, |partials|, |failures|, a.uncertainChunks);
    a.(status := if complete then final else a.status,
       settled := a.settled + [job], completed := completed, partials := partials, failures := failures,
       completedChunks := |completed|, partialChunks := |partials|, failedChunks := |failures|,
       partial := final == Partial,
       entities := a.entities + (if s.status.ChunkFailed? then 0 else s.entities),
       relationships := a.relationships + (if s.status.ChunkFailed? then 0 else s.relationships))
  }

  /** What recording an outcome reports: `Final` when it ended the group. */
  datatype Reported = Ignored | StillPending | Replayed | Final(status: Status)

  predicate CanSettle(audits: seq<Audit>, job: Id, info: JobInfo) {
    var open := Open(audits, info.auditId);
    info.auditId != [] && open.Some? && job !in open.value.settled
  }

  function RecordOutcome(audits: seq<Audit>, job: Id, info: JobInfo, s: Settlement): (seq<Audit>, Reported) {
    if CanSettle(audits, job, info) then
      var next := Settled(Open(audits, info.auditId).value, job, info, s);
      (Store(audits, info.auditId, next), if IsTerminal(next.status) then Final(next.status) else StillPending)
    else
      var found := Find(audits, info.auditId);
      (audits, if info.auditId != [] && found.Some? && found.value.status == Success && info.signature.Some? then Replayed else Ignored)
  }

  // ---- Submission ----

  /** Set semantics of a concatenation: the first list without repetitions, then what the second adds. */
  function Union(a: seq<Id>, b: seq<Id>): seq<Id> {
    if b == [] then Dedupe(a)
    else
      var u := Union(a, b[..|b|-1]);
      if b[|b|-1] in u then u else u + [b[|b|-1]]
  }

  function Marked(a: Audit, jobs: seq<Id>, expected: nat, unconfirmed: seq<nat>): Audit {
    var accepted := Union(a.jobIds, jobs);
    a.(status := if |a.settled| >= |accepted| then Uncertain else Queued,
       submissionUncertain := true, submitted := |accepted|, expected := expected, jobIds := accepted,
       uncertainChunks := |unconfirmed|, unconfirmed := unconfirmed,
       partial := |a.completed| > 0 && |a.failures| > 0)
  }

  function MarkUncertain(audits: seq<Audit>, id: Id, jobs: seq<Id>, expected: nat, unconfirmed: seq<nat>): (seq<Audit>, Reported) {
    var open := Open(audits, id);
    if id == [] || open.None? then (audits, Ignored)
    else
      var next := Marked(open.value, jobs, expected, unconfirmed);
      (Store(audits, id, next), if next.status == Uncertain then Final(Uncertain) else StillPending)
  }

  /** The first update of a submission. */
  function Started(a: Audit, signature: Option<Signature>, chunks: nat): Audit {
    NewAudit(a.id, Submitting).(signature := signature, expected := chunks,
      submissionUncertain := a.submissionUncertain, partial := a.partial)
  }

  /** An accepted chunk is added to the group. */
  function Registered(a: Audit, job: Id, totalChunks: nat): Audit {
    var jobs := if job in a.jobIds then a.jobIds else a.jobIds + [job];
    a.(status := Queued, expected := if a.expected > 0 then a.expected else totalChunks, submitted := |jobs|, jobIds := jobs)
  }

  /** All chunks are submitted, or recovery found that they were. */
  function Enqueued(a: Audit, jobs: seq<Id>, submitted: nat): Audit {
    a.(status := Queued, jobIds := jobs, submitted := submitted)
  }

  function FailedGroup(a: Audit, jobs: seq<Id>, expected: nat): Audit {
    a.(status := Failed, partial := |jobs| > 0, expected := expected, submitted := |jobs|, jobIds := jobs)
  }

  /** Applies an update to an audit that may still change. */
  function Update(audits: seq<Audit>, id: Id, f: Audit -> Audit): seq<Audit> {
    var open := Open(audits, id);
    if id == [] || open.None? then audits else Store(audits, id, f(open.value))
  }

  // ---- The signature map ----

  /** Own property keys come in this order: array indices ascending, then the others as they were created. */
  type Signatures = seq<Signature>

  const MAX_SIGNATURES := 200

  const MAX_INDEX: nat := 0xFFFF_FFFE

  predicate Digits(s: Str) { forall i :: 0 <= i < |s| ==> 0x30 <= s[i] <= 0x39 }

  function ValueOf(s: Str): nat
    requires Digits(s)
  {
    if s == [] then 0 else 10 * ValueOf(s[..|s|-1]) + (s[|s|-1] - 0x30)
  }

  /** A canonical array index: decimal digits without a leading zero, below 2^32 - 1. */
  predicate IsIndex(key: Str) {
    key != [] && Digits(key) && (key[0] != 0x30 || |key| == 1) && ValueOf(key) <= MAX_INDEX
  }

  /** Would a new key be listed before an existing one? */
  predicate ListedBefore(key: Str, other: Str) {
    IsIndex(key) && (!IsIndex(other) || ValueOf(key) < ValueOf(other))
  }

  function PutSignature(m: Signatures, s: Signature): Signatures {
    if m == [] then [s]
    else if m[0].key == s.key then [s] + m[1..]
    else if ListedBefore(s.key, m[0].key) && !HasKey(m, s.key) then [s] + m
    else [m[0]] + PutSignature(m[1..], s)
  }

  predicate HasKey(m: Signatures, key: Str) { if m == [] then false else m[0].key == key || HasKey(m[1..], key) }

  function Evicted(m: Signatures): Signatures { if |m| > MAX_SIGNATURES then m[|m|-MAX_SIGNATURES..] else m }

  function Committed(m: Signatures, s: Signature): Signatures { Evicted(PutSignature(m, s)) }

  // ---- Places in the audit list ----

  ghost predicate NoneBefore(audits: seq<Audit>, id: Id, i: int)
    requires i <= |audits|
  {
    forall k :: 0 <= k < i ==> audits[k].id != id
  }

  ghost predicate FirstAt(audits: seq<Audit>, id: Id, i: int) {
    0 <= i < |audits| && audits[i].id == id && NoneBefore(audits, id, i)
  }

  lemma {:induction false} FindNone(audits: seq<Audit>, id: Id)
    requires NoneBefore(audits, id, |audits|)
    ensures Find(audits, id).None?
  {
    if audits != [] { FindNone(audits[1..], id); }
  }

  lemma {:induction false} FindAt(audits: seq<Audit>, id: Id, i: int)
    requires FirstAt(audits, id, i)
    ensures Find(audits, id) == Some(audits[i])
  {
    if i > 0 { FindAt(audits[1..], id, i - 1); }
  }

  lemma {:induction false} StoreAt(audits: seq<Audit>, id: Id, i: int, a: Audit)
    requires FirstAt(audits, id, i)
    ensures Store(audits, id, a) == audits[i := a]
  {
    if i > 0 {
      StoreAt(audits[1..], id, i - 1, a);
      assert [audits[0]] + audits[1..][i-1 := a] == audits[i := a];
    }
  }

  // ---- The worker's storage ----

  class CaptureStorage {
    var audits: seq<Audit>
    var pending: Pending
    var signatures: Signatures

    constructor ()
      ensures audits == [] && pending == map[] && signatures == []
    {
      audits, pending, signatures := [], map[], [];
    }

    method AppendAudit(id: Id, status: Status)
      modifies this`audits
      ensures audits == Prepend(old(audits), NewAudit(id, status))
    {
      audits := [NewAudit(id, status)] + audits;
      if |audits| > MAX_AUDITS { audits := audits[..MAX_AUDITS]; }
    }

    /** `findIndex`. */
    method IndexOf(id: Id) returns (index: int)
      ensures -1 <= index < |audits|
      ensures if index < 0 then Find(audits, id).None? else FirstAt(audits, id, index)
    {
      index := 0;
      while index < |audits|
        invariant 0 <= index <= |audits| && NoneBefore(audits, id, index)
      {
        if audits[index].id == id { return; }
        index := index + 1;
      }
      FindNone(audits, id);
      index := -1;
    }

    method RecordCaptureChunkOutcome(job: Id, info: JobInfo, s: Settlement) returns (reported: Reported)
      modifies this`audits
      ensures (audits, reported) == RecordOutcome(old(audits), job, info, s)
    {
      if info.auditId == [] { return Ignored; }
      var index := IndexOf(info.auditId);
      if index < 0 { return Ignored; }
      FindAt(audits, info.auditId, index);
      var current := audits[index];
      if IsTerminal(current.status) {
        return if current.status == Success && info.signature.Some? then Replayed else Ignored;
      }
      if job in current.settled { return Ignored; }
      var next := Settled(current, job, info, s);
      StoreAt(audits, info.auditId, index, next);
      audits := audits[index := next];
      reported := if IsTerminal(next.status) then Final(next.status) else StillPending;
    }

    method MarkCaptureSubmissionUncertain(id: Id, jobs: seq<Id>, expected: nat, unconfirmed: seq<nat>) returns (reported: Reported)
      modifies this`audits
      ensures (audits, reported) == MarkUncertain(old(audits), id, jobs, expected, unconfirmed)
    {
      if id == [] { return Ignored; }
      var index := IndexOf(id);
      if index < 0 { return Ignored; }
      FindAt(audits, id, index);
      if IsTerminal(audits[index].status) { return Ignored; }
      var next := Marked(audits[index], jobs, expected, unconfirmed);
      StoreAt(audits, id, index, next);
      audits := audits[index := next];
      reported := if next.status == Uncertain then Final(Uncertain) else StillPending;
    }

    /** The place of an audit that may still change, if there is one. */
    method OpenIndex(id: Id) returns (index: int)
      ensures if index < 0 then Open(audits, id).None? else FirstAt(audits, id, index) && Open(audits, id) == Some(audits[index])
    {
      index := IndexOf(id);
      if index >= 0 {
        FindAt(audits, id, index);
        if IsTerminal(audits[index].status) { index := -1; }
      }
    }

    /** The update with which a submission starts: every count and list is reset. */
    method StartSubmission(id: Id, signature: Option<Signature>, chunks: nat)
      modifies this`audits
      ensures audits == Update(old(audits), id, a => Started(a, signature, chunks))
    {
      var index := OpenIndex(id);
      if id == [] || index < 0 { return; }
      var current := audits[index];
      var next := current.(
        status := Submitting, signature := signature, expected := chunks, submitted := 0,
        completedChunks := 0, partialChunks := 0, failedChunks := 0, uncertainChunks := 0,
        jobIds := [], settled := [], completed := [], partials := [], failures := [], unconfirmed := [],
        entities := 0, relationships := 0);
      StoreAt(audits, id, index, next);
      audits := audits[index := next];
    }

    method RecordSubmittedCaptureJob(id: Id, job: Id, totalChunks: nat)
      modifies this`audits
      ensures audits == if Open(old(audits), id).None? then old(audits)
                        else Store(old(audits), id, Registered(Open(old(audits), id).value, job, totalChunks))
    {
      var index := OpenIndex(id);
      if index < 0 { return; }
      var current := audits[index];
      var jobs := current.jobIds;
      if job !in jobs { jobs := jobs + [job]; }
      var next := current.(
        status := Queued, expected := if current.expected != 0 then current.expected else totalChunks,
        submitted := |jobs|, jobIds := jobs);
      StoreAt(audits, id, index, next);
      audits := audits[index := next];
    }

    /** The update that ends a submission, and the one with which recovery queues a completed one again. */
    method QueueSubmission(id: Id, jobs: seq<Id>, submitted: nat)
      modifies this`audits
      ensures audits == Update(old(audits), id, a => Enqueued(a, jobs, submitted))
    {
      var index := OpenIndex(id);
      if id == [] || index < 0 { return; }
      var next := audits[index].(status := Queued, jobIds := jobs, submitted := submitted);
      StoreAt(audits, id, index, next);
      audits := audits[index := next];
    }

    method FailCaptureGroup(id: Id, jobs: seq<Id>, expected: nat) returns (failed: bool)
      modifies this`audits
      ensures audits == Update(old(audits), id, a => FailedGroup(a, jobs, expected))
      ensures failed <==> id != [] && Open(old(audits), id).Some?
    {
      var index := OpenIndex(id);
      if id == [] || index < 0 { return false; }
      var next := audits[index].(
        status := Failed, partial := |jobs| > 0, expected := expected, submitted := |jobs|, jobIds := jobs);
      StoreAt(audits, id, index, next);
      audits := audits[index := next];
      failed := true;
    }

    method TrackPendingJob(job: Id, info: JobInfo)
      modifies this`pending
      ensures pending == old(pending)[job := info]
    {
      pending := pending[job := info];
    }

    method UntrackPendingJob(job: Id)
      modifies this`pending
      ensures pending == old(pending) - {job}
    {
      pending := pending - {job};
    }

    /** The new key is written, then the first keys are deleted until the bound holds. */
    method CommitCaptureSignature(s: Signature)
      modifies this`signatures
      ensures signatures == Committed(old(signatures), s)
    {
      var m := PutSignature(signatures, s);
      ghost var all := m;
      while |m| > MAX_SIGNATURES
        invariant |m| <= |all| && m == all[|all|-|m|..] && (|all| > MAX_SIGNATURES ==> |m| >= MAX_SIGNATURES)
        invariant |all| <= MAX_SIGNATURES ==> m == all
      {
        m := m[1..];
      }
      signatures := m;
    }
  }

  // ---- Splitting ----

  /** Chunks of at most `size` code units, in order. */
  function Chunks(text: Str, size: nat): seq<Str>
    requires size > 0
    decreases |text|
  {
    if text == [] then [] else if |text| <= size then [text] else [text[..size]] + Chunks(text[size..], size)
  }

  function Concat(chunks: seq<Str>): Str { if chunks == [] then [] else chunks[0] + Concat(chunks[1..]) }

  method SplitCaptureText(text: Str, size: nat) returns (chunks: seq<Str>)
    requires size > 0
    ensures chunks == Chunks(text, size)
  {
    chunks := [];
    var offset := 0;
    while offset < |text|
      invariant if offset <= |text| then chunks + Chunks(text[offset..], size) == Chunks(text, size)
                else chunks == Chunks(text, size)
    {
      var end := if offset + size < |text| then offset + size else |text|;
      var rest := text[offset..];
      ghost var before := chunks;
      if |rest| > size {
        assert rest[..size] == text[offset..end] && rest[size..] == text[end..];
        assert before + ([rest[..size]] + Chunks(rest[size..], size)) == before + [rest[..size]] + Chunks(rest[size..], size);
      } else {
        assert rest == text[offset..end] && Chunks(rest, size) == [rest];
        assert offset + size == |text| ==> text[offset + size..] == [];
      }
      chunks := chunks + [text[offset..end]];
      offset := offset + size;
    }
  }

  /** The chunks put together are the text, and none is empty or too long. */
  lemma {:induction false} ChunksRoundTrip(text: Str, size: nat)
    requires size > 0
    ensures Concat(Chunks(text, size)) == text
    ensures forall i :: 0 <= i < |Chunks(text, size)| ==> 0 < |Chunks(text, size)[i]| <= size
    decreases |text|
  {
    if |text| > size {
      ChunksRoundTrip(text[size..], size);
      var rest := Chunks(text[size..], size);
      assert Chunks(text, size) == [text[..size]] + rest;
      assert text == text[..size] + text[size..];
    } else if text != [] {
      assert Concat([text]) == text + Concat([]);
    }
  }
}
