/**
 * The pattern every builder of the label uses: a fixed, ordered list of
 * candidates, each pushed onto the output only when its condition holds.
 * `Select` is that output, defined one push at a time; `SelectedIndices`
 * says which candidates made it, and `SelectCharacterization` pins the
 * output down completely (length, contents, order, presence).  `MapAll`
 * is the unconditional variant: every element pushed, transformed.
 */
module Selection {

  /** The candidates whose flag is set, in candidate order (built by appending, as a push would). */
  function Select<T>(items: seq<T>, keep: seq<bool>): (r: seq<T>)
    requires |items| == |keep|
    ensures |r| <= |items|
    decreases |items|
  {
    if |items| == 0 then []
    else Select(items[..|items| - 1], keep[..|keep| - 1])
         + (if keep[|keep| - 1] then [items[|items| - 1]] else [])
  }

  /** Number of set flags. */
  function Count(keep: seq<bool>): nat
    decreases |keep|
  {
    if |keep| == 0 then 0
    else Count(keep[..|keep| - 1]) + (if keep[|keep| - 1] then 1 else 0)
  }

  /** Positions of the set flags, ascending. */
  function SelectedIndices(keep: seq<bool>): seq<nat>
    decreases |keep|
  {
    if |keep| == 0 then []
    else SelectedIndices(keep[..|keep| - 1]) + (if keep[|keep| - 1] then [|keep| - 1] else [])
  }

  lemma {:induction false} SelectLength<T>(items: seq<T>, keep: seq<bool>)
    requires |items| == |keep|
    ensures |Select(items, keep)| == |SelectedIndices(keep)| == Count(keep) <= |keep|
    decreases |keep|
  {
    if |keep| > 0 {
      var n := |keep| - 1;
      SelectLength(items[..n], keep[..n]);
    }
  }

  /** The recorded positions are in range, flagged and strictly ascending. */
  lemma {:induction false} SelectedIndicesAscending(keep: seq<bool>)
    ensures forall j :: 0 <= j < |SelectedIndices(keep)| ==>
              SelectedIndices(keep)[j] < |keep| && keep[SelectedIndices(keep)[j]]
    ensures forall j1, j2 :: 0 <= j1 < j2 < |SelectedIndices(keep)| ==>
              SelectedIndices(keep)[j1] < SelectedIndices(keep)[j2]
    decreases |keep|
  {
    if |keep| > 0 {
      var n := |keep| - 1;
      SelectedIndicesAscending(keep[..n]);
      var idx := SelectedIndices(keep[..n]);
      forall j | 0 <= j < |idx| ensures idx[j] < n && keep[idx[j]] {
        assert keep[..n][idx[j]] == keep[idx[j]];
      }
    }
  }

  /** A position is recorded exactly when its flag is set. */
  lemma {:induction false} SelectedIndicesMembership(keep: seq<bool>)
    ensures forall k :: 0 <= k < |keep| ==> (keep[k] <==> k in SelectedIndices(keep))
    decreases |keep|
  {
    if |keep| > 0 {
      var n := |keep| - 1;
      SelectedIndicesMembership(keep[..n]);
      SelectedIndicesAscending(keep[..n]);
      forall k | 0 <= k < |keep|
        ensures keep[k] <==> k in SelectedIndices(keep)
      {
        if k < n {
          assert keep[..n][k] == keep[k];
        }
      }
    }
  }

  /** The j-th output is the candidate at the j-th recorded position. */
  lemma {:induction false} SelectAt<T>(items: seq<T>, keep: seq<bool>)
    requires |items| == |keep|
    ensures |Select(items, keep)| == |SelectedIndices(keep)|
    ensures forall j :: 0 <= j < |SelectedIndices(keep)| ==>
              SelectedIndices(keep)[j] < |items| && Select(items, keep)[j] == items[SelectedIndices(keep)[j]]
    decreases |keep|
  {
    SelectLength(items, keep);
    SelectedIndicesAscending(keep);
    if |keep| > 0 {
      var n := |keep| - 1;
      SelectAt(items[..n], keep[..n]);
      SelectedIndicesAscending(keep[..n]);
    }
  }

  /**
   * Select keeps exactly the flagged candidates, in their original order:
   * the j-th output is the candidate at the j-th flagged position.
   */
  lemma SelectCharacterization<T>(items: seq<T>, keep: seq<bool>)
    requires |items| == |keep|
    ensures |Select(items, keep)| == |SelectedIndices(keep)| == Count(keep) <= |keep|
    ensures forall j :: 0 <= j < |SelectedIndices(keep)| ==>
              SelectedIndices(keep)[j] < |keep| && keep[SelectedIndices(keep)[j]]
              && Select(items, keep)[j] == items[SelectedIndices(keep)[j]]
    ensures forall j1, j2 :: 0 <= j1 < j2 < |SelectedIndices(keep)| ==>
              SelectedIndices(keep)[j1] < SelectedIndices(keep)[j2]
    ensures forall k :: 0 <= k < |keep| ==> (keep[k] <==> k in SelectedIndices(keep))
  {
    SelectLength(items, keep);
    SelectedIndicesAscending(keep);
    SelectedIndicesMembership(keep);
    SelectAt(items, keep);
  }

  /** No flag set, no output; some flag set, some output. */
  lemma SelectEmptyIff<T>(items: seq<T>, keep: seq<bool>)
    requires |items| == |keep|
    ensures Select(items, keep) == [] <==> forall k :: 0 <= k < |keep| ==> !keep[k]
  {
    SelectCharacterization(items, keep);
    if Select(items, keep) != [] {
      var k := SelectedIndices(keep)[0];
      assert keep[k];
    }
  }

  /** With every flag set, every candidate is output unchanged. */
  lemma {:induction false} SelectAll<T>(items: seq<T>, keep: seq<bool>)
    requires |items| == |keep|
    requires forall k :: 0 <= k < |keep| ==> keep[k]
    ensures Select(items, keep) == items
    decreases |items|
  {
    if |items| > 0 {
      var n := |items| - 1;
      SelectAll(items[..n], keep[..n]);
      assert items == items[..n] + [items[n]];
    }
  }

  /**
   * One more candidate considered: `acc` followed by the selection from the
   * first k+1 candidates is `acc` followed by the selection from the first k,
   * then `x` when the k-th flag is set (x being that candidate).
   */
  lemma SelectPushStep<T>(acc: seq<T>, items: seq<T>, keep: seq<bool>, k: nat, x: T)
    requires |items| == |keep| && k < |items|
    requires keep[k] ==> x == items[k]
    ensures acc + Select(items[..k + 1], keep[..k + 1])
            == if keep[k] then acc + Select(items[..k], keep[..k]) + [x]
               else acc + Select(items[..k], keep[..k])
  {
    assert items[..k + 1][..k] == items[..k];
    assert keep[..k + 1][..k] == keep[..k];
  }

  /** Three candidates, spelled out: each one present exactly when its flag is set, in candidate order. */
  lemma SelectThree<T>(items: seq<T>, keep: seq<bool>)
    requires |items| == |keep| == 3
    ensures Select(items, keep) == (if keep[0] then [items[0]] else [])
                                   + (if keep[1] then [items[1]] else [])
                                   + (if keep[2] then [items[2]] else [])
  {
    assert items[..2][..1] == items[..1] && keep[..2][..1] == keep[..1];
    assert items[..1][..0] == [] && keep[..1][..0] == [];
    assert Select(items[..1], keep[..1]) == if keep[0] then [items[0]] else [];
    assert Select(items[..2], keep[..2]) == Select(items[..1], keep[..1]) + (if keep[1] then [items[1]] else []);
    assert items[..3] == items && keep[..3] == keep;
  }

  /** `xs.map(f)`, and a `forEach` pushing `f(x)` for each `x`: one result per element, in order. */
  function MapAll<A, B>(xs: seq<A>, f: A -> B): (r: seq<B>)
    ensures |r| == |xs|
    ensures forall i :: 0 <= i < |xs| ==> r[i] == f(xs[i])
  {
    seq(|xs|, i requires 0 <= i < |xs| => f(xs[i]))
  }

  /** One more element, one more result at the end. */
  lemma MapAllSnoc<A, B>(xs: seq<A>, k: nat, f: A -> B)
    requires k < |xs|
    ensures MapAll(xs[..k + 1], f) == MapAll(xs[..k], f) + [f(xs[k])]
  {
    var longer, shorter := MapAll(xs[..k + 1], f), MapAll(xs[..k], f);
    forall i | 0 <= i < k ensures longer[i] == shorter[i] {
      assert xs[..k + 1][i] == xs[..k][i];
    }
  }
}
