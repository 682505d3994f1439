/** Candidates that pass every schema, with which the coverage builder throws over its limits. */
module CoverageLimit {
  import opened CoverageBuilder
  import opened CoverageTheorems
  import opened JsText
  import opened Options
  import Id = EvidenceId

  /** A candidate that passes its schema, by what its evidence id is made of. */
  datatype Sourced = Sourced(subject: Str, item: Str, digest: Str)

  function SourcedId(hash: Id.Bytes -> Str, p: Provider, classId: Str, c: Sourced): Str {
    var id := Id.BuildEvidenceId(hash, [p.id, classId, c.subject, c.item, c.digest]);
    if id.Some? then id.value else []
  }

  /** An id of one ideograph. */
  function ItemName(n: nat): Str { if n <= MAX_ENTRY_IDS then [0x4E00 + n] else [0x4E00] }

  lemma ItemNameWell(n: nat)
    requires n <= MAX_ENTRY_IDS
    ensures Id.ValidComponent(ItemName(n)) && Id.WellFormed(ItemName(n))
  {
    assert ItemName(n)[1..] == [];
  }

  lemma SourcedApart(hash: Id.Bytes -> Str, p: Provider, classId: Str, subject: Str, digest: Str, i: nat, j: nat)
    requires Id.Injective(hash) && i < j <= MAX_ENTRY_IDS
    requires Id.ValidComponent(p.id) && Id.ValidComponent(classId) && Id.ValidComponent(subject) && Id.ValidComponent(digest)
    ensures SourcedId(hash, p, classId, Sourced(subject, ItemName(i), digest))
         != SourcedId(hash, p, classId, Sourced(subject, ItemName(j), digest))
  {
    var a: Id.Identity, b: Id.Identity := [p.id, classId, subject, ItemName(i), digest], [p.id, classId, subject, ItemName(j), digest];
    ItemNameWell(i);
    ItemNameWell(j);
    Id.EvidenceIdIdentifies(hash, a, b);
    if Id.BuildEvidenceId(hash, a) == Id.BuildEvidenceId(hash, b) {
      assert a[3] == ItemName(i) && b[3] == ItemName(j) && a[3][0] != b[3][0];
      Id.ScalarsUnique(a[3], b[3]);
    }
  }

  /** A thousand and one candidates with source items of their own. */
  function SourcedBatch(p: Provider, classId: Str, subject: Str, digest: Str): Batch<Sourced> {
    Batch(p, classId, subject, seq(1001, i requires 0 <= i < 1001 => Sourced(subject, ItemName(i), digest)), None, [])
  }

  /** The reported id of the n-th candidate. */
  lemma ReportedId(calls: Calls<Sourced>, b: Batch<Sourced>, n: nat)
    requires n < |b.candidates|
    ensures |LimitIds(calls, b.classId, b.subject, [b])| == |b.candidates|
    ensures LimitIds(calls, b.classId, b.subject, [b])[n] == calls.limitId(b.provider, b.classId, b.subject, b.candidates[n])
  {
    SingleBatch(b);
  }

  lemma SourcedIdsApart(
    calls: Calls<Sourced>, hash: Id.Bytes -> Str, p: Provider, classId: Str, subject: Str, digest: Str, i: nat, j: nat)
    requires Id.Injective(hash) && forall c :: calls.limitId(p, classId, subject, c) == SourcedId(hash, p, classId, c)
    requires Id.ValidComponent(p.id) && Id.ValidComponent(classId) && Id.ValidComponent(subject) && Id.ValidComponent(digest)
    requires i < j < 1001
    ensures var ids := LimitIds(calls, classId, subject, [SourcedBatch(p, classId, subject, digest)]);
      |ids| == 1001 && ids[i] != ids[j]
  {
    var b := SourcedBatch(p, classId, subject, digest);
    ReportedId(calls, b, i);
    ReportedId(calls, b, j);
    SourcedApart(hash, p, classId, subject, digest, i, j);
  }

  /** With a collision-free hash, one such batch of any provider is enough. */
  lemma OverLimitHappens(
    calls: Calls<Sourced>, hash: Id.Bytes -> Str, p: Provider, classId: Str, subject: Str, digest: Str, now: int)
    requires Id.Injective(hash) && forall c :: calls.limitId(p, classId, subject, c) == SourcedId(hash, p, classId, c)
    requires Id.ValidComponent(p.id) && Id.ValidComponent(classId) && Id.ValidComponent(subject) && Id.ValidComponent(digest)
    ensures BuildCoverage(calls, [Requirement(classId, None)], [SourcedBatch(p, classId, subject, digest)], DEFAULT_LIMITS, now)
         == SnapshotRejected
  {
    var b := SourcedBatch(p, classId, subject, digest);
    var ids := LimitIds(calls, classId, subject, [b]);
    ReportedId(calls, b, 0);
    forall i, j | 0 <= i < j < |ids| ensures ids[i] != ids[j] {
      SourcedIdsApart(calls, hash, p, classId, subject, digest, i, j);
    }
    OverLimitThrows(calls, b, None, now);
  }
}
