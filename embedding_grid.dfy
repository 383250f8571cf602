/**
 * The grid of embedding candidates the auto-embedding search visits: history
 * length k from 1 to kMax and, for each k, delay tau from 1 to tauMax, except
 * that k = 1 is tried with tau = 1 only (a one-sample history has no delay).
 */
module EmbeddingGrid {

  /** An embedding: history length k and embedding delay tau. */
  datatype Embedding = Embedding(k: int, tau: int)

  /** The conservative floor committed when no candidate improves on the sentinel. */
  const Origin: Embedding := Embedding(1, 1)

  /** The candidates the inner loop visits for history length k, taus 1..tauMax ascending. */
  function Row(k: int, tauMax: int): seq<Embedding>
    decreases tauMax
  {
    if tauMax < 1 then []
    else if k == 1 then [Origin]
    else Row(k, tauMax - 1) + [Embedding(k, tauMax)]
  }

  /** Every candidate the nested loops visit, in visiting order. */
  function Traversal(kMax: int, tauMax: int): seq<Embedding>
    decreases kMax
  {
    if kMax < 1 then [] else Traversal(kMax - 1, tauMax) + Row(kMax, tauMax)
  }

  /** The cells of the grid: (1, 1) and every (k, tau) with 2 <= k <= kMax, 1 <= tau <= tauMax. */
  predicate InGrid(e: Embedding, kMax: int, tauMax: int)
  {
    1 <= e.k <= kMax && 1 <= e.tau <= tauMax && (e.k == 1 ==> e.tau == 1)
  }

  /** Visiting order: smaller k first, then smaller tau. */
  predicate Before(a: Embedding, b: Embedding)
  {
    a.k < b.k || (a.k == b.k && a.tau < b.tau)
  }

  lemma {:induction false} RowShape(k: int, tauMax: int)
    ensures forall e :: e in Row(k, tauMax) <==>
      e.k == k && 1 <= e.tau <= tauMax && (k == 1 ==> e.tau == 1)
    ensures forall i, j :: 0 <= i < j < |Row(k, tauMax)| ==> Before(Row(k, tauMax)[i], Row(k, tauMax)[j])
    ensures |Row(k, tauMax)| == if tauMax < 1 then 0 else if k == 1 then 1 else tauMax
    decreases tauMax
  {
    if tauMax >= 1 && k != 1 {
      RowShape(k, tauMax - 1);
    }
  }

  /** A candidate is visited exactly when it is a cell of the grid; no (1, tau > 1) is ever visited. */
  lemma {:induction false} TraversalCoversGrid(kMax: int, tauMax: int)
    ensures forall e :: e in Traversal(kMax, tauMax) <==> InGrid(e, kMax, tauMax)
    decreases kMax
  {
    if kMax >= 1 {
      TraversalCoversGrid(kMax - 1, tauMax);
      RowShape(kMax, tauMax);
    }
  }

  /** Candidates are visited in strictly increasing (k, tau) order, so none is visited twice. */
  lemma {:induction false} TraversalIsOrdered(kMax: int, tauMax: int)
    ensures forall i, j :: 0 <= i < j < |Traversal(kMax, tauMax)| ==>
      Before(Traversal(kMax, tauMax)[i], Traversal(kMax, tauMax)[j])
    decreases kMax
  {
    if kMax >= 1 {
      var prefix, row := Traversal(kMax - 1, tauMax), Row(kMax, tauMax);
      TraversalIsOrdered(kMax - 1, tauMax);
      TraversalCoversGrid(kMax - 1, tauMax);
      RowShape(kMax, tauMax);
      var t := prefix + row;
      forall i, j | 0 <= i < j < |t| ensures Before(t[i], t[j]) {
        if j < |prefix| {
          assert t[i] == prefix[i] && t[j] == prefix[j];
        } else if i >= |prefix| {
          assert t[i] == row[i - |prefix|] && t[j] == row[j - |prefix|];
        } else {
          assert t[i] == prefix[i] && t[i] in prefix;
          assert t[j] == row[j - |prefix|] && t[j] in row;
        }
      }
    }
  }

  /** The number of candidates evaluated when no evaluation fails. */
  lemma {:induction false} TraversalLength(kMax: int, tauMax: int)
    ensures |Traversal(kMax, tauMax)| ==
      if kMax < 1 || tauMax < 1 then 0 else 1 + (kMax - 1) * tauMax
    decreases kMax
  {
    if kMax >= 1 {
      TraversalLength(kMax - 1, tauMax);
      RowShape(kMax, tauMax);
      if kMax >= 2 && tauMax >= 1 {
        assert (kMax - 1) * tauMax == (kMax - 2) * tauMax + tauMax;
      }
    }
  }

  /** The search starts at (1, 1) whenever the grid is non-empty. */
  lemma {:induction false} TraversalStartsAtOrigin(kMax: int, tauMax: int)
    requires kMax >= 1 && tauMax >= 1
    ensures Traversal(kMax, tauMax) != [] && Traversal(kMax, tauMax)[0] == Origin
    decreases kMax
  {
    if kMax > 1 {
      TraversalStartsAtOrigin(kMax - 1, tauMax);
    }
  }

  /** Pointwise form of TraversalCoversGrid: where a grid cell stands in the traversal. */
  lemma GridCellIndex(kMax: int, tauMax: int, e: Embedding) returns (j: int)
    requires InGrid(e, kMax, tauMax)
    ensures 0 <= j < |Traversal(kMax, tauMax)| && Traversal(kMax, tauMax)[j] == e
  {
    TraversalCoversGrid(kMax, tauMax);
    j :| 0 <= j < |Traversal(kMax, tauMax)| && Traversal(kMax, tauMax)[j] == e;
  }

  /** Pointwise form of TraversalCoversGrid: every visited candidate is a grid cell. */
  lemma VisitedCellInGrid(kMax: int, tauMax: int, j: int)
    requires 0 <= j < |Traversal(kMax, tauMax)|
    ensures InGrid(Traversal(kMax, tauMax)[j], kMax, tauMax)
  {
    TraversalCoversGrid(kMax, tauMax);
    assert Traversal(kMax, tauMax)[j] in Traversal(kMax, tauMax);
  }

  /** Pointwise form of TraversalIsOrdered: a cell visited before another precedes it in (k, tau) order. */
  lemma VisitedInOrder(kMax: int, tauMax: int, i: int, j: int)
    requires 0 <= i < |Traversal(kMax, tauMax)| && 0 <= j < |Traversal(kMax, tauMax)|
    ensures i < j <==> Before(Traversal(kMax, tauMax)[i], Traversal(kMax, tauMax)[j])
  {
    TraversalIsOrdered(kMax, tauMax);
    if j < i {
      assert Before(Traversal(kMax, tauMax)[j], Traversal(kMax, tauMax)[i]);
    }
  }
}
