/** The default order of strings is a strict total order. */
module StringOrder {
  import opened JsText
  import opened Sorting

  lemma LessOrders(s: set<Str>)
    ensures Orders(Less, s)
  {
    forall x, y ensures x != y ==> Less(x, y) != Less(y, x) { LessTotal(x, y); }
    forall x ensures !Less(x, x) { LessTotal(x, x); }
    forall x, y, z | Chain(Less, x, y, z) ensures Less(x, z) { LessTransitive(x, y, z); }
  }

  /** The strings agree up to `k`; there the first one ends, or has the lesser unit. */
  ghost predicate FirstDifference(a: Str, b: Str, k: nat) {
    && k <= |a| && k <= |b| && a[..k] == b[..k]
    && ((k == |a| && k < |b|) || (k < |a| && k < |b| && a[k] < b[k]))
  }

  lemma SameFirst(a: Str, b: Str, k: nat)
    requires 0 < k <= |a| && k <= |b| && a[..k] == b[..k]
    ensures a[0] == b[0]
  {
    assert a[..k][0] == b[..k][0];
  }

  /** The order is that of dictionaries, by code unit. */
  lemma {:induction false} LessExactly(a: Str, b: Str)
    ensures Less(a, b) <==> exists k: nat :: FirstDifference(a, b, k)
  {
    if a == [] || b == [] || a[0] != b[0] {
      if Less(a, b) { assert FirstDifference(a, b, 0); }
      if k: nat :| FirstDifference(a, b, k) && k > 0 { SameFirst(a, b, k); }
    } else {
      LessExactly(a[1..], b[1..]);
      if k: nat :| FirstDifference(a[1..], b[1..], k) {
        assert a[..k+1] == [a[0]] + a[1..][..k] && b[..k+1] == [b[0]] + b[1..][..k];
        assert FirstDifference(a, b, k + 1);
      }
      if k: nat :| FirstDifference(a, b, k) && k > 0 {
        assert a[1..][..k-1] == a[..k][1..] && b[1..][..k-1] == b[..k][1..];
        assert FirstDifference(a[1..], b[1..], k - 1);
      }
    }
  }
}
