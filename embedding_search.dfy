/**
 * The two auto-embedding search strategies. Each visits the candidates of
 * EmbeddingGrid.Traversal in order, scores each with an estimator standing
 * for numeric work done outside this model, keeps the running best under a
 * strict comparison, and aborts at the first candidate whose evaluation
 * fails.
 */
module EmbeddingSearch {
  import opened Wrappers
  import opened EmbeddingGrid

  /** The score of one candidate, or the exception raised while computing it. */
  datatype Eval = Scored(score: real) | Failed

  type Positive = n: int | n >= 1 witness 1

  /**
   * What the Ragwitz criterion reads from a nearest-neighbour estimator
   * prepared for one candidate: the first entry of its prediction errors and
   * the number of observations usable at that embedding.
   */
  datatype Prediction = Predicted(error: real, numObservations: Positive) | PredictionFailed

  /**
   * A search strategy with the estimator it consults: Ragwitz minimises the
   * normalised prediction error, MAX_CORR_AIS maximises the bias-corrected
   * storage estimate.
   */
  datatype Strategy = Ragwitz(predict: Embedding -> Prediction) | MaxCorrAis(ais: Embedding -> Eval)

  /** The score a strategy gives one candidate; Ragwitz divides the error by the observation count. */
  function Score(s: Strategy, e: Embedding): Eval
  {
    match s
    case Ragwitz(predict) => if predict(e).Predicted? then Scored(NormalisedError(predict(e))) else Failed
    case MaxCorrAis(ais) => ais(e)
  }

  /** Ragwitz's score: the first prediction error divided by the number of observations. */
  function NormalisedError(p: Prediction): (v: real)
    requires p.Predicted?
    ensures p.error >= 0.0 ==> v >= 0.0
  {
    p.error / (p.numObservations as real)
  }

  /** The strict comparison by which a candidate replaces the running best. */
  predicate Improves(s: Strategy, candidate: real, best: real)
  {
    match s
    case Ragwitz(_) => candidate < best
    case MaxCorrAis(_) => candidate > best
  }

  /**
   * The state of a search after some prefix of the traversal: the running
   * best and its score (None is the initial infinite sentinel, which every
   * score beats), or the candidate whose evaluation aborted the search.
   */
  datatype Progress = Running(best: Embedding, bestScore: Option<real>) | Aborted(at: Embedding)

  /** One candidate's effect on the search: the body of either strategy's inner loop. */
  function Step(p: Progress, candidate: Embedding, e: Eval, s: Strategy): Progress
  {
    match p
    case Aborted(_) => p
    case Running(_, bestScore) =>
      match e
      case Failed => Aborted(candidate)
      case Scored(v) =>
        if bestScore.None? || Improves(s, v, bestScore.value) then Running(candidate, Some(v))
        else p
  }

  /** The search, as a function of the candidates visited so far. */
  function Run(cells: seq<Embedding>, s: Strategy): Progress
    decreases |cells|
  {
    if cells == [] then Running(Origin, None)
    else
      var last := cells[|cells| - 1];
      Step(Run(cells[..|cells| - 1], s), last, Score(s, last), s)
  }

  /** What a finished search reports: the candidate to commit, or the failing candidate. */
  datatype SearchResult = Committed(best: Embedding) | CandidateFailed(at: Embedding)

  function Conclusion(p: Progress): SearchResult
  {
    match p
    case Running(best, _) => Committed(best)
    case Aborted(at) => CandidateFailed(at)
  }

  ghost predicate AllScored(cells: seq<Embedding>, s: Strategy)
  {
    forall j :: 0 <= j < |cells| ==> Score(s, cells[j]).Scored?
  }

  /** cells[i] fails and every earlier candidate was scored. */
  ghost predicate FirstFailure(cells: seq<Embedding>, s: Strategy, i: int)
  {
    0 <= i < |cells| && Score(s, cells[i]).Failed? &&
    forall j :: 0 <= j < i ==> Score(s, cells[j]).Scored?
  }

  /**
   * cells[i] scores at least as well as every candidate, and strictly better
   * than every candidate visited before it.
   */
  ghost predicate EarliestOptimum(cells: seq<Embedding>, s: Strategy, i: int)
  {
    AllScored(cells, s) && 0 <= i < |cells| &&
    (forall j :: 0 <= j < |cells| ==> !Improves(s, Score(s, cells[j]).score, Score(s, cells[i]).score)) &&
    (forall j :: 0 <= j < i ==> Improves(s, Score(s, cells[i]).score, Score(s, cells[j]).score))
  }

  lemma RunExtend(cells: seq<Embedding>, candidate: Embedding, s: Strategy)
    ensures Run(cells + [candidate], s) == Step(Run(cells, s), candidate, Score(s, candidate), s)
  {
    assert (cells + [candidate])[..|cells|] == cells;
  }

  /** The search aborts exactly when some candidate fails, and it aborts at the first one. */
  lemma {:induction false} RunAbortsAtFirstFailure(cells: seq<Embedding>, s: Strategy)
    ensures Run(cells, s).Aborted? <==> !AllScored(cells, s)
    ensures Run(cells, s).Aborted? ==> exists i :: FirstFailure(cells, s, i) && cells[i] == Run(cells, s).at
    decreases |cells|
  {
    if cells != [] {
      var n := |cells|;
      var prefix, last := cells[..n - 1], cells[n - 1];
      RunAbortsAtFirstFailure(prefix, s);
      assert forall j :: 0 <= j < n - 1 ==> prefix[j] == cells[j];
      if Run(prefix, s).Aborted? {
        var i :| FirstFailure(prefix, s, i) && prefix[i] == Run(prefix, s).at;
        assert FirstFailure(cells, s, i);
      } else if Score(s, last).Failed? {
        assert FirstFailure(cells, s, n - 1);
      } else {
        assert AllScored(cells, s) by {
          forall j | 0 <= j < n ensures Score(s, cells[j]).Scored? {
            if j < n - 1 { assert cells[j] == prefix[j]; }
          }
        }
      }
    }
  }

  /**
   * A search in which every candidate is scored commits (1, 1) when there is
   * no candidate, and otherwise the earliest candidate with the optimal score.
   */
  lemma {:induction false} RunFindsEarliestOptimum(cells: seq<Embedding>, s: Strategy)
    requires AllScored(cells, s)
    ensures cells == [] ==> Run(cells, s) == Running(Origin, None)
    ensures cells != [] ==>
      exists i :: EarliestOptimum(cells, s, i) && Run(cells, s) == Running(cells[i], Some(Score(s, cells[i]).score))
    decreases |cells|
  {
    if cells != [] {
      var n := |cells|;
      var prefix := cells[..n - 1];
      assert AllScored(prefix, s) by {
        forall j | 0 <= j < n - 1 ensures Score(s, prefix[j]).Scored? {
          assert prefix[j] == cells[j];
        }
      }
      RunFindsEarliestOptimum(prefix, s);
      if prefix == [] {
        assert EarliestOptimum(cells, s, 0);
      } else {
        var i0 :| EarliestOptimum(prefix, s, i0) &&
          Run(prefix, s) == Running(prefix[i0], Some(Score(s, prefix[i0]).score));
        var i := ExtendOptimum(cells, s, i0);
      }
    }
  }

  /** One more scored candidate either becomes the new earliest optimum or leaves the old one. */
  lemma ExtendOptimum(cells: seq<Embedding>, s: Strategy, i0: int) returns (i: int)
    requires |cells| >= 2 && AllScored(cells, s)
    requires EarliestOptimum(cells[..|cells| - 1], s, i0)
    ensures EarliestOptimum(cells, s, i)
    ensures var v, v0 := Score(s, cells[|cells| - 1]).score, Score(s, cells[i0]).score;
      i == if Improves(s, v, v0) then |cells| - 1 else i0
  {
    var n := |cells|;
    var prefix := cells[..n - 1];
    assert prefix[i0] == cells[i0];
    var v, v0 := Score(s, cells[n - 1]).score, Score(s, cells[i0]).score;
    if Improves(s, v, v0) {
      i := n - 1;
      forall j | 0 <= j < n - 1
        ensures !Improves(s, Score(s, cells[j]).score, v) && Improves(s, v, Score(s, cells[j]).score)
      {
        assert prefix[j] == cells[j];
        assert !Improves(s, Score(s, prefix[j]).score, v0);
      }
    } else {
      i := i0;
      forall j | 0 <= j < n
        ensures !Improves(s, Score(s, cells[j]).score, v0)
      {
        if j < n - 1 {
          assert prefix[j] == cells[j];
        }
      }
      forall j | 0 <= j < i0
        ensures Improves(s, v0, Score(s, cells[j]).score)
      {
        assert prefix[j] == cells[j];
      }
    }
  }

  /** Once a search has aborted, visiting further candidates does not change its outcome. */
  lemma {:induction false} RunStaysAborted(prefix: seq<Embedding>, cells: seq<Embedding>, s: Strategy)
    requires prefix <= cells && Run(prefix, s).Aborted?
    ensures Run(cells, s) == Run(prefix, s)
    decreases |cells|
  {
    if |cells| > |prefix| {
      assert prefix <= cells[..|cells| - 1];
      RunStaysAborted(prefix, cells[..|cells| - 1], s);
    } else {
      assert prefix == cells;
    }
  }

  /**
   * A search over the grid that is not aborted commits (1, 1) when the grid
   * is empty; otherwise it commits a grid cell whose score is at least as good
   * as that of every cell, and strictly better than that of every cell visited
   * before it (ties go to the earliest visited).
   */
  lemma CommitsEarliestBestCell(kMax: int, tauMax: int, s: Strategy)
    requires Run(Traversal(kMax, tauMax), s).Running?
    ensures var b := Run(Traversal(kMax, tauMax), s).best;
      (kMax < 1 || tauMax < 1 ==> b == Origin) &&
      (kMax >= 1 && tauMax >= 1 ==>
        InGrid(b, kMax, tauMax) && Score(s, b).Scored? &&
        (forall e :: InGrid(e, kMax, tauMax) ==> Score(s, e).Scored? && !Improves(s, Score(s, e).score, Score(s, b).score)) &&
        (forall e :: InGrid(e, kMax, tauMax) && Before(e, b) ==> Improves(s, Score(s, b).score, Score(s, e).score)))
  {
    var t := Traversal(kMax, tauMax);
    RunAbortsAtFirstFailure(t, s);
    RunFindsEarliestOptimum(t, s);
    TraversalLength(kMax, tauMax);
    if kMax >= 1 && tauMax >= 1 {
      var i :| EarliestOptimum(t, s, i) && Run(t, s) == Running(t[i], Some(Score(s, t[i]).score));
      VisitedCellInGrid(kMax, tauMax, i);
      forall e | InGrid(e, kMax, tauMax)
        ensures Score(s, e).Scored? && !Improves(s, Score(s, e).score, Score(s, t[i]).score)
        ensures Before(e, t[i]) ==> Improves(s, Score(s, t[i]).score, Score(s, e).score)
      {
        var j := GridCellIndex(kMax, tauMax, e);
        VisitedInOrder(kMax, tauMax, j, i);
      }
    }
  }

  /**
   * A search over the grid aborts exactly when some grid cell fails; the
   * cell it reports fails, and every cell visited before it was scored.
   */
  lemma ReportsFirstFailingCell(kMax: int, tauMax: int, s: Strategy)
    ensures Run(Traversal(kMax, tauMax), s).Aborted? <==>
      exists e :: InGrid(e, kMax, tauMax) && Score(s, e).Failed?
    ensures Run(Traversal(kMax, tauMax), s).Aborted? ==>
      var at := Run(Traversal(kMax, tauMax), s).at;
      InGrid(at, kMax, tauMax) && Score(s, at).Failed? &&
      forall e :: InGrid(e, kMax, tauMax) && Before(e, at) ==> Score(s, e).Scored?
  {
    var t := Traversal(kMax, tauMax);
    RunAbortsAtFirstFailure(t, s);
    if Run(t, s).Aborted? {
      var i :| FirstFailure(t, s, i) && t[i] == Run(t, s).at;
      VisitedCellInGrid(kMax, tauMax, i);
      forall e | InGrid(e, kMax, tauMax) && Before(e, t[i])
        ensures Score(s, e).Scored?
      {
        var j := GridCellIndex(kMax, tauMax, e);
        VisitedInOrder(kMax, tauMax, j, i);
      }
    } else {
      forall e | InGrid(e, kMax, tauMax) ensures Score(s, e).Scored? {
        var j := GridCellIndex(kMax, tauMax, e);
      }
    }
  }

  /** With kMax = tauMax = 1 the only candidate is (1, 1), so that is what is committed or reported. */
  lemma UnitGridYieldsOrigin(s: Strategy)
    ensures Conclusion(Run(Traversal(1, 1), s)) ==
      if Score(s, Origin).Failed? then CandidateFailed(Origin) else Committed(Origin)
  {
    assert Traversal(1, 1) == [Origin];
    assert [Origin][..0] == [];
  }

  /**
   * The Ragwitz search (the first branch of the auto-embedding): evaluates
   * the candidates in traversal order and commits the least normalised
   * prediction error under a strict comparison; evaluated is the candidates
   * evaluated, in order.
   */
  method RagwitzSearch(kMax: int, tauMax: int, predict: Embedding -> Prediction)
    returns (r: SearchResult, ghost evaluated: seq<Embedding>)
    ensures r == Conclusion(Run(Traversal(kMax, tauMax), Ragwitz(predict)))
    ensures evaluated <= Traversal(kMax, tauMax)
    ensures r.Committed? ==> evaluated == Traversal(kMax, tauMax)
    ensures r.CandidateFailed? ==> evaluated != [] && evaluated[|evaluated| - 1] == r.at
  {
    ghost var s := Ragwitz(predict);
    var kBest, tauBest := 1, 1;
    var bestError: Option<real> := None;  // +infinity
    evaluated := [];
    var kc := 1;
    while kc <= kMax
      invariant 1 <= kc <= if kMax >= 1 then kMax + 1 else 1
      invariant evaluated == Traversal(kc - 1, tauMax)
      invariant Run(evaluated, s) == Running(Embedding(kBest, tauBest), bestError)
    {
      var tc := 1;
      while tc <= tauMax
        invariant 1 <= tc <= if tauMax >= 1 then tauMax + 1 else 1
        invariant kc == 1 ==> tc == 1
        invariant evaluated == Traversal(kc - 1, tauMax) + Row(kc, tc - 1)
        invariant Run(evaluated, s) == Running(Embedding(kBest, tauBest), bestError)
      {
        var candidate := Embedding(kc, tc);
        var p := predict(candidate);
        RagwitzScore(predict, candidate);
        Visit(evaluated, kc, tc, tauMax, s, Embedding(kBest, tauBest), bestError);
        evaluated := evaluated + [candidate];
        if p.PredictionFailed? {
          r := CandidateFailed(candidate);
          AbortedAtVisited(kc, tc, kMax, tauMax, s);
          return;
        }
        var error := NormalisedError(p);
        if bestError.None? || error < bestError.value {
          bestError := Some(error);
          kBest, tauBest := kc, tc;
        }
        if kc == 1 {
          RowFinished(kc, tc + 1, tauMax);
          break;
        }
        tc := tc + 1;
      }
      if kc > 1 || tauMax < 1 {
        RowFinished(kc, tc, tauMax);  // the break above has already finished the row for k = 1
      }
      kc := kc + 1;
    }
    r := Committed(Embedding(kBest, tauBest));
  }

  /**
   * The MAX_CORR_AIS search (the second branch): evaluates the candidates in
   * traversal order and commits the greatest score under a strict
   * comparison. The caller passes the estimator with bias correction
   * already switched on.
   */
  method MaxCorrAisSearch(kMax: int, tauMax: int, ais: Embedding -> Eval)
    returns (r: SearchResult, ghost evaluated: seq<Embedding>)
    ensures r == Conclusion(Run(Traversal(kMax, tauMax), MaxCorrAis(ais)))
    ensures evaluated <= Traversal(kMax, tauMax)
    ensures r.Committed? ==> evaluated == Traversal(kMax, tauMax)
    ensures r.CandidateFailed? ==> evaluated != [] && evaluated[|evaluated| - 1] == r.at
  {
    ghost var s := MaxCorrAis(ais);
    var kBest, tauBest := 1, 1;
    var bestAis: Option<real> := None;  // -infinity
    evaluated := [];
    var kc := 1;
    while kc <= kMax
      invariant 1 <= kc <= if kMax >= 1 then kMax + 1 else 1
      invariant evaluated == Traversal(kc - 1, tauMax)
      invariant Run(evaluated, s) == Running(Embedding(kBest, tauBest), bestAis)
    {
      var tc := 1;
      while tc <= tauMax
        invariant 1 <= tc <= if tauMax >= 1 then tauMax + 1 else 1
        invariant kc == 1 ==> tc == 1
        invariant evaluated == Traversal(kc - 1, tauMax) + Row(kc, tc - 1)
        invariant Run(evaluated, s) == Running(Embedding(kBest, tauBest), bestAis)
      {
        var candidate := Embedding(kc, tc);
        var e := ais(candidate);
        Visit(evaluated, kc, tc, tauMax, s, Embedding(kBest, tauBest), bestAis);
        evaluated := evaluated + [candidate];
        if e.Failed? {
          r := CandidateFailed(candidate);
          AbortedAtVisited(kc, tc, kMax, tauMax, s);
          return;
        }
        if bestAis.None? || e.score > bestAis.value {
          bestAis := Some(e.score);
          kBest, tauBest := kc, tc;
        }
        if kc == 1 {
          RowFinished(kc, tc + 1, tauMax);
          break;
        }
        tc := tc + 1;
      }
      if kc > 1 || tauMax < 1 {
        RowFinished(kc, tc, tauMax);  // the break above has already finished the row for k = 1
      }
      kc := kc + 1;
    }
    r := Committed(Embedding(kBest, tauBest));
  }

  lemma RagwitzScore(predict: Embedding -> Prediction, e: Embedding)
    ensures Score(Ragwitz(predict), e) ==
      if predict(e).PredictionFailed? then Failed
      else Scored(NormalisedError(predict(e)))
  {
  }

  /**
   * Visiting (kc, tc) extends the visited candidates by one and the search by
   * one step: a failure aborts at (kc, tc), a score replaces the running best
   * when there is none yet or it improves on it.
   */
  lemma Visit(visited: seq<Embedding>, kc: int, tc: int, tauMax: int, s: Strategy,
              b: Embedding, best: Option<real>)
    requires tc >= 1 && (kc == 1 ==> tc == 1)
    requires visited == Traversal(kc - 1, tauMax) + Row(kc, tc - 1)
    requires Run(visited, s) == Running(b, best)
    ensures visited + [Embedding(kc, tc)] == Traversal(kc - 1, tauMax) + Row(kc, tc)
    ensures Score(s, Embedding(kc, tc)).Failed? ==>
      Run(visited + [Embedding(kc, tc)], s) == Aborted(Embedding(kc, tc))
    ensures Score(s, Embedding(kc, tc)).Scored? ==>
      var v := Score(s, Embedding(kc, tc)).score;
      Run(visited + [Embedding(kc, tc)], s) ==
        if best.None? || Improves(s, v, best.value) then Running(Embedding(kc, tc), Some(v))
        else Running(b, best)
  {
    RunExtend(visited, Embedding(kc, tc), s);
    RowStep(kc, tc);
    AppendAssociates(Traversal(kc - 1, tauMax), Row(kc, tc - 1), Embedding(kc, tc));
  }

  lemma AppendAssociates(a: seq<Embedding>, b: seq<Embedding>, e: Embedding)
    ensures a + b + [e] == a + (b + [e])
  {
  }

  /** A search aborted at (kc, tc) concludes there: later candidates are never evaluated. */
  lemma AbortedAtVisited(kc: int, tc: int, kMax: int, tauMax: int, s: Strategy)
    requires 1 <= kc <= kMax && 1 <= tc <= tauMax
    requires Run(Traversal(kc - 1, tauMax) + Row(kc, tc), s).Aborted?
    ensures Traversal(kc - 1, tauMax) + Row(kc, tc) <= Traversal(kMax, tauMax)
    ensures Run(Traversal(kMax, tauMax), s) == Run(Traversal(kc - 1, tauMax) + Row(kc, tc), s)
  {
    VisitedIsPrefix(kc, tc, kMax, tauMax);
    RunStaysAborted(Traversal(kc - 1, tauMax) + Row(kc, tc), Traversal(kMax, tauMax), s);
  }

  /** The inner loop has visited the whole row for k once tau passes tauMax, or after (1, 1). */
  lemma RowFinished(k: int, tc: int, tauMax: int)
    requires k >= 1 && 1 <= tc
    requires tc == (if tauMax >= 1 then tauMax + 1 else 1) || (k == 1 && tc == 2 && tauMax >= 1)
    ensures Traversal(k - 1, tauMax) + Row(k, tc - 1) == Traversal(k, tauMax)
  {
  }

  lemma RowStep(k: int, t: int)
    requires t >= 1 && (k == 1 ==> t == 1)
    ensures Row(k, t) == Row(k, t - 1) + [Embedding(k, t)]
  {
  }

  /** The candidates visited up to (kc, tc) are a prefix of the whole traversal. */
  lemma VisitedIsPrefix(kc: int, tc: int, kMax: int, tauMax: int)
    requires 1 <= kc <= kMax && 1 <= tc <= tauMax
    ensures Traversal(kc - 1, tauMax) + Row(kc, tc) <= Traversal(kMax, tauMax)
  {
    RowPrefix(kc, tc, tauMax);
    TraversalPrefix(kc, kMax, tauMax);
  }

  /** Extending a row by one more tau stays a prefix of the whole row. */
  lemma {:induction false} RowPrefix(k: int, t: int, tauMax: int)
    requires t <= tauMax
    ensures Row(k, t) <= Row(k, tauMax)
    decreases tauMax
  {
    if t < tauMax && tauMax >= 1 && k != 1 {
      RowPrefix(k, t, tauMax - 1);
    }
  }

  lemma {:induction false} TraversalPrefix(k: int, kMax: int, tauMax: int)
    requires k <= kMax
    ensures Traversal(k, tauMax) <= Traversal(kMax, tauMax)
    decreases kMax
  {
    if k < kMax && kMax >= 1 {
      TraversalPrefix(k, kMax - 1, tauMax);
    }
  }
}
