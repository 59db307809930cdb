/** Restricting a delegate priority order to the delegates a caller allows.

    A priority order is a sequence of tiers, most preferred first; a tier is
    the sequence of delegates that must all initialise together (a Java
    `DelegateType[]`). The filter keeps exactly the tiers whose delegates are
    all enabled, in their original order. It is written here over any
    element type so that its properties do not depend on the catalogue. */
module TierFilter {

  /** Every delegate of `tier` is in `enabled` (Java `containsAll`). */
  predicate Allowed<T(!new)>(tier: seq<T>, enabled: set<T>)
  {
    forall d :: d in tier ==> d in enabled
  }

  /** The stream filter of a priority order: the allowed tiers, in order. */
  function Filter<T(!new)>(order: seq<seq<T>>, enabled: set<T>): (r: seq<seq<T>>)
    ensures |r| <= |order|
    ensures forall t :: t in r <==> t in order && Allowed(t, enabled)
  {
    if |order| == 0 then []
    else if Allowed(order[0], enabled) then [order[0]] + Filter(order[1..], enabled)
    else Filter(order[1..], enabled)
  }

  /** `a` is the subsequence of `b` picked out by the strictly increasing
      positions `idx`. */
  ghost predicate SelectedBy<T>(a: seq<T>, b: seq<T>, idx: seq<int>)
  {
    && |idx| == |a|
    && (forall k :: 0 <= k < |idx| ==> 0 <= idx[k] < |b| && a[k] == b[idx[k]])
    && (forall k, l :: 0 <= k < l < |idx| ==> idx[k] < idx[l])
  }

  /** Positions shifted by one. */
  function Shift(idx: seq<int>): (r: seq<int>)
    ensures |r| == |idx|
  {
    seq(|idx|, k requires 0 <= k < |idx| => idx[k] + 1)
  }

  /** A selection from the tail of `b` is a selection from `b` at the
      shifted positions. */
  lemma ShiftSelection<T>(a: seq<T>, b: seq<T>, idx: seq<int>)
    requires |b| > 0 && SelectedBy(a, b[1..], idx)
    ensures SelectedBy(a, b, Shift(idx))
    ensures forall j :: 1 <= j < |b| ==> (j in Shift(idx) <==> j - 1 in idx)
    ensures forall j :: j in Shift(idx) ==> j >= 1
  {
  }

  /** Selecting the head of `b` in front of a selection that avoids
      position 0. */
  lemma PrependSelection<T>(a: seq<T>, b: seq<T>, idx: seq<int>)
    requires |b| > 0 && SelectedBy(a, b, idx)
    requires forall j :: j in idx ==> j >= 1
    ensures SelectedBy([b[0]] + a, b, [0] + idx)
  {
    var r := [0] + idx;
    forall k, l | 0 <= k < l < |r|
      ensures r[k] < r[l]
    {
      if k == 0 {
        assert r[l] == idx[l - 1] && idx[l - 1] in idx;
      }
    }
  }

  /** The filtered order is the input order restricted to exactly the
      positions whose tier is allowed: a subsequence that keeps relative
      order, drops only disallowed tiers and introduces nothing new. */
  lemma {:induction false} FilterSelectsAllowedPositions<T(!new)>(order: seq<seq<T>>, enabled: set<T>)
    returns (idx: seq<int>)
    ensures SelectedBy(Filter(order, enabled), order, idx)
    ensures forall j :: 0 <= j < |order| ==> (j in idx <==> Allowed(order[j], enabled))
  {
    if |order| == 0 {
      idx := [];
    } else {
      var tail := FilterSelectsAllowedPositions(order[1..], enabled);
      ShiftSelection(Filter(order[1..], enabled), order, tail);
      var shifted := Shift(tail);
      if Allowed(order[0], enabled) {
        PrependSelection(Filter(order[1..], enabled), order, shifted);
        idx := [0] + shifted;
      } else {
        idx := shifted;
      }
      forall j | 1 <= j < |order|
        ensures j in idx <==> Allowed(order[j], enabled)
      {
        assert order[1..][j - 1] == order[j];
      }
    }
  }

  /** Filtering the concatenation of two orders filters each part. */
  lemma {:induction false} FilterAppend<T(!new)>(a: seq<seq<T>>, b: seq<seq<T>>, enabled: set<T>)
    ensures Filter(a + b, enabled) == Filter(a, enabled) + Filter(b, enabled)
  {
    if |a| == 0 {
      assert a + b == b;
    } else {
      assert (a + b)[0] == a[0];
      assert (a + b)[1..] == a[1..] + b;
      FilterAppend(a[1..], b, enabled);
    }
  }

  /** An order whose tiers are all allowed passes through unchanged. */
  lemma {:induction false} FilterKeepsAllowedOrder<T(!new)>(order: seq<seq<T>>, enabled: set<T>)
    requires forall t :: t in order ==> Allowed(t, enabled)
    ensures Filter(order, enabled) == order
  {
    if |order| > 0 {
      assert order[0] in order;
      FilterKeepsAllowedOrder(order[1..], enabled);
      assert [order[0]] + order[1..] == order;
    }
  }

  /** Filtering twice with the same enabled set changes nothing more. */
  lemma {:induction false} FilterIdempotent<T(!new)>(order: seq<seq<T>>, enabled: set<T>)
    ensures Filter(Filter(order, enabled), enabled) == Filter(order, enabled)
  {
    FilterKeepsAllowedOrder(Filter(order, enabled), enabled);
  }

  /** The filter keeps every tier exactly when every tier is allowed. */
  lemma {:induction false} FilterKeepsAllIff<T(!new)>(order: seq<seq<T>>, enabled: set<T>)
    ensures Filter(order, enabled) == order <==> forall t :: t in order ==> Allowed(t, enabled)
  {
    if forall t :: t in order ==> Allowed(t, enabled) {
      FilterKeepsAllowedOrder(order, enabled);
    }
  }

  /** An order that ends with the empty (CPU-only) tier still ends with it
      after filtering, whatever is enabled, so the result is never empty. */
  lemma {:induction false} FilterKeepsCpuFallback<T(!new)>(order: seq<seq<T>>, enabled: set<T>)
    requires |order| > 0 && order[|order| - 1] == []
    ensures |Filter(order, enabled)| > 0
    ensures Filter(order, enabled)[|Filter(order, enabled)| - 1] == []
  {
    var n := |order| - 1;
    assert order == order[..n] + [order[n]];
    FilterAppend(order[..n], [order[n]], enabled);
    assert Filter([order[n]], enabled) == [[]] by {
      assert Allowed(order[n], enabled);
      assert [order[n]][1..] == [];
    }
  }
}
