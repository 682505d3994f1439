/** The bounded in-memory store of authorization records. */
module ApprovalStore {
  import opened AuthorizationRecords
  import opened JsText
  import opened Sorting
  import opened StringOrder

  function Inserted(m: Records, bound: nat, r: Record): Result<Records> {
    if PlanId(r) in m then Err(StoreConflict)
    else if |m| >= bound then Err(StoreFull)
    else Ok(m[PlanId(r) := r])
  }

  function Replaced(m: Records, r: Record): Result<Records> {
    if PlanId(r) in m then Ok(m[PlanId(r) := r]) else Err(PlanNotFound)
  }

  /** Only a record that is still awaiting its first approval may be discarded. */
  predicate Discardable(r: Record, decisionId: Str) {
    && r.plan.terms.decisionId == decisionId
    && r.plan.state == Awaiting
    && r.plan.approval.None?
    && r.grant.None?
    && r.request.Some? && r.request.value.status == Pending
  }

  function Discarded(m: Records, planId: Str, decisionId: Str): (Records, bool) {
    if planId in m && Discardable(m[planId], decisionId) then (m - {planId}, true) else (m, false)
  }

  ghost predicate Keyed(m: Records) { forall id :: id in m ==> PlanId(m[id]) == id }

  /** All records, in ascending order of their plan ids. */
  ghost predicate Lists(m: Records, ids: seq<Str>, rs: seq<Record>) {
    && Ascending(Less, ids) && Elements(ids) == m.Keys
    && |rs| == |ids| && forall i :: 0 <= i < |ids| ==> ids[i] in m && rs[i] == m[ids[i]]
  }

  lemma OneMore(ids: seq<Str>, id: Str)
    requires Distinct(ids) && id !in Elements(ids)
    ensures Distinct(ids + [id]) && Elements(ids + [id]) == Elements(ids) + {id}
  {
    forall i | 0 <= i < |ids| ensures ids[i] != id { assert ids[i] in Elements(ids); }
  }

  method SortedIds(keys: set<Str>) returns (ids: seq<Str>)
    ensures Ascending(Less, ids) && Elements(ids) == keys
  {
    var unsorted, left := [], keys;
    while left != {}
      invariant Distinct(unsorted) && Elements(unsorted) + left == keys && Elements(unsorted) !! left
      decreases |left|
    {
      var id :| id in left;
      OneMore(unsorted, id);
      unsorted, left := unsorted + [id], left - {id};
    }
    LessOrders(keys);
    SortAscending(Less, unsorted, keys);
    SameElements(Sort(Less, unsorted), unsorted);
    ids := Sort(Less, unsorted);
  }

  class AuthorizationStore {
    var records: Records
    const maxRecords: nat

    constructor (maxRecords: nat)
      requires maxRecords > 0
      ensures records == map[] && this.maxRecords == maxRecords
    {
      records := map[];
      this.maxRecords := maxRecords;
    }

    method Put(r: Record) returns (outcome: Result<()>)
      modifies this
      ensures match Inserted(old(records), maxRecords, r)
              case Ok(m) => outcome.Ok? && records == m
              case Err(e) => outcome == Err(e) && records == old(records)
    {
      if PlanId(r) in records { return Err(StoreConflict); }
      if |records| >= maxRecords { return Err(StoreFull); }
      records := records[PlanId(r) := r];
      outcome := Ok(());
    }

    method Replace(r: Record) returns (outcome: Result<()>)
      modifies this
      ensures match Replaced(old(records), r)
              case Ok(m) => outcome.Ok? && records == m
              case Err(e) => outcome == Err(e) && records == old(records)
    {
      if PlanId(r) !in records { return Err(PlanNotFound); }
      records := records[PlanId(r) := r];
      outcome := Ok(());
    }

    method DiscardUncommitted(planId: Str, decisionId: Str) returns (discarded: bool)
      modifies this
      ensures (records, discarded) == Discarded(old(records), planId, decisionId)
    {
      if planId !in records || !Discardable(records[planId], decisionId) { return false; }
      records := records - {planId};
      discarded := true;
    }

    method List() returns (rs: seq<Record>)
      ensures exists ids :: Lists(records, ids, rs)
    {
      var sorted := SortedIds(records.Keys);
      rs := [];
      for i := 0 to |sorted|
        invariant |rs| == i && forall k :: 0 <= k < i ==> sorted[k] in records && rs[k] == records[sorted[k]]
      {
        assert sorted[i] in Elements(sorted);
        rs := rs + [records[sorted[i]]];
      }
      assert Lists(records, sorted, rs);
    }
  }
}
