/**
 * What the auto-embedding step decides, as a function of the configuration
 * and of the estimators it consults: nothing for NONE, an error for an
 * unknown method name, and otherwise the outcome of the Ragwitz or
 * MAX_CORR_AIS search over the configured grid.
 */
module AutoEmbedding {
  import opened Wrappers
  import opened IgnoreCase
  import opened Decimal
  import opened EmbeddingGrid
  import opened EmbeddingSearch
  import opened PropertyStore

  datatype EmbedMethod = NoAutoEmbed | RagwitzMethod | MaxCorrAisMethod | UnknownMethod

  /** The method a configured name selects, compared in the order NONE, RAGWITZ, MAX_CORR_AIS, ignoring case. */
  function MethodOf(v: string): EmbedMethod
  {
    if SameIgnoringCase(v, AUTO_EMBED_METHOD_NONE) then NoAutoEmbed
    else if SameIgnoringCase(v, AUTO_EMBED_METHOD_RAGWITZ) then RagwitzMethod
    else if SameIgnoringCase(v, AUTO_EMBED_METHOD_MAX_CORR_AIS) then MaxCorrAisMethod
    else UnknownMethod
  }

  /**
   * The three method names are told apart whatever the order of the comparisons,
   * and names differing only in letter case select the same method.
   */
  lemma MethodSelection(v: string, w: string)
    ensures MethodOf(v) == NoAutoEmbed <==> SameIgnoringCase(v, AUTO_EMBED_METHOD_NONE)
    ensures MethodOf(v) == RagwitzMethod <==> SameIgnoringCase(v, AUTO_EMBED_METHOD_RAGWITZ)
    ensures MethodOf(v) == MaxCorrAisMethod <==> SameIgnoringCase(v, AUTO_EMBED_METHOD_MAX_CORR_AIS)
    ensures SameIgnoringCase(v, w) ==> MethodOf(v) == MethodOf(w)
  {
  }

  /**
   * The nearest-neighbour prediction of one candidate: the estimator is told
   * the neighbour count only when the count has been set (None asks for the
   * estimator's own default).
   */
  type Predictor = (Embedding, Option<Int32>) -> Prediction

  /** The MI estimator's local-average estimate at one candidate, under a bias-correction setting. */
  type AisEstimator = (Embedding, string) -> Eval

  function NeighbourCount(s: Settings): Option<Int32>
  {
    if s.ragwitzNumNnsSet then Some(s.ragwitzNumNns) else None
  }

  function RagwitzPredictor(predict: Predictor, nns: Option<Int32>): Embedding -> Prediction
  {
    e => predict(e, nns)
  }

  function AisUnderBias(ais: AisEstimator, biasCorrection: string): Embedding -> Eval
  {
    e => ais(e, biasCorrection)
  }

  /**
   * The name of the Gaussian MI estimator's bias-correction property, one of
   * the properties a calculator passes on to its estimator.
   */
  const PROP_BIAS_CORRECTION: string := "BIAS_CORRECTION"

  /** The bias-correction value forced on the estimator for the MAX_CORR_AIS search. */
  const BIAS_CORRECTION_ON: string := "true"

  datatype AutoEmbedError = UnexpectedMethod(value: string) | CandidateError(k: int, tau: int)

  /** Leave k and tau alone, commit a new embedding, or fail. */
  datatype AutoEmbedOutcome = Unchanged | Commit(best: Embedding) | Abort(error: AutoEmbedError)

  /** The search a configuration runs, when its method is a search. */
  function SearchStrategy(s: Settings, predict: Predictor, ais: AisEstimator): Strategy
    requires MethodOf(s.autoEmbeddingMethod) in {RagwitzMethod, MaxCorrAisMethod}
  {
    if MethodOf(s.autoEmbeddingMethod) == RagwitzMethod then Ragwitz(RagwitzPredictor(predict, NeighbourCount(s)))
    else MaxCorrAis(AisUnderBias(ais, BIAS_CORRECTION_ON))
  }

  function AutoEmbed(s: Settings, predict: Predictor, ais: AisEstimator): AutoEmbedOutcome
  {
    match MethodOf(s.autoEmbeddingMethod)
    case NoAutoEmbed => Unchanged
    case UnknownMethod => Abort(UnexpectedMethod(s.autoEmbeddingMethod))
    case _ =>
      match Conclusion(Run(Traversal(s.kSearchMax, s.tauSearchMax), SearchStrategy(s, predict, ais)))
      case Committed(best) => Commit(best)
      case CandidateFailed(at) => Abort(CandidateError(at.k, at.tau))
  }

  /**
   * NONE does nothing, and any unknown method name fails naming that value;
   * neither runs a search.
   */
  lemma AutoEmbedDispatch(s: Settings, predict: Predictor, ais: AisEstimator)
    ensures AutoEmbed(s, predict, ais) == Unchanged <==> SameIgnoringCase(s.autoEmbeddingMethod, AUTO_EMBED_METHOD_NONE)
    ensures AutoEmbed(s, predict, ais) == Abort(UnexpectedMethod(s.autoEmbeddingMethod)) <==>
      MethodOf(s.autoEmbeddingMethod) == UnknownMethod
  {
  }

  /**
   * A Ragwitz search that does not fail commits (1, 1) when the grid is
   * empty, and otherwise a grid cell whose normalised prediction error is no
   * greater than that of any grid cell and strictly less than that of every
   * cell visited before it.
   */
  lemma RagwitzCommitsLeastError(s: Settings, predict: Predictor, ais: AisEstimator)
    requires MethodOf(s.autoEmbeddingMethod) == RagwitzMethod && AutoEmbed(s, predict, ais).Commit?
    ensures var b, kMax, tauMax, nns := AutoEmbed(s, predict, ais).best, s.kSearchMax, s.tauSearchMax, NeighbourCount(s);
      (kMax < 1 || tauMax < 1 ==> b == Origin) &&
      (kMax >= 1 && tauMax >= 1 ==>
        InGrid(b, kMax, tauMax) && predict(b, nns).Predicted? &&
        (forall e :: InGrid(e, kMax, tauMax) ==>
          predict(e, nns).Predicted? && NormalisedError(predict(b, nns)) <= NormalisedError(predict(e, nns))) &&
        (forall e :: InGrid(e, kMax, tauMax) && Before(e, b) ==>
          NormalisedError(predict(b, nns)) < NormalisedError(predict(e, nns))))
  {
    var strategy := SearchStrategy(s, predict, ais);
    var nns := NeighbourCount(s);
    CommitsEarliestBestCell(s.kSearchMax, s.tauSearchMax, strategy);
    forall e ensures Score(strategy, e) == (if predict(e, nns).Predicted? then Scored(NormalisedError(predict(e, nns))) else Failed) {
      assert RagwitzPredictor(predict, nns)(e) == predict(e, nns);
    }
  }

  /**
   * A MAX_CORR_AIS search that does not fail commits (1, 1) when the grid is
   * empty, and otherwise a grid cell whose bias-corrected estimate is no
   * smaller than that of any grid cell and strictly greater than that of
   * every cell visited before it.
   */
  lemma MaxCorrAisCommitsGreatest(s: Settings, predict: Predictor, ais: AisEstimator)
    requires MethodOf(s.autoEmbeddingMethod) == MaxCorrAisMethod && AutoEmbed(s, predict, ais).Commit?
    ensures var b, kMax, tauMax := AutoEmbed(s, predict, ais).best, s.kSearchMax, s.tauSearchMax;
      (kMax < 1 || tauMax < 1 ==> b == Origin) &&
      (kMax >= 1 && tauMax >= 1 ==>
        InGrid(b, kMax, tauMax) && ais(b, BIAS_CORRECTION_ON).Scored? &&
        (forall e :: InGrid(e, kMax, tauMax) ==>
          ais(e, BIAS_CORRECTION_ON).Scored? && ais(b, BIAS_CORRECTION_ON).score >= ais(e, BIAS_CORRECTION_ON).score) &&
        (forall e :: InGrid(e, kMax, tauMax) && Before(e, b) ==>
          ais(b, BIAS_CORRECTION_ON).score > ais(e, BIAS_CORRECTION_ON).score))
  {
    var strategy := SearchStrategy(s, predict, ais);
    CommitsEarliestBestCell(s.kSearchMax, s.tauSearchMax, strategy);
    forall e ensures Score(strategy, e) == ais(e, BIAS_CORRECTION_ON) {
      assert AisUnderBias(ais, BIAS_CORRECTION_ON)(e) == ais(e, BIAS_CORRECTION_ON);
    }
  }

  /**
   * A search fails exactly when some grid cell cannot be evaluated; the
   * error names a grid cell that failed, and every cell visited before it
   * was evaluated.
   */
  lemma SearchFailsAtFirstFailingCell(s: Settings, predict: Predictor, ais: AisEstimator)
    requires MethodOf(s.autoEmbeddingMethod) in {RagwitzMethod, MaxCorrAisMethod}
    ensures var strategy, kMax, tauMax := SearchStrategy(s, predict, ais), s.kSearchMax, s.tauSearchMax;
      (AutoEmbed(s, predict, ais).Abort? <==> exists e :: InGrid(e, kMax, tauMax) && Score(strategy, e).Failed?) &&
      (AutoEmbed(s, predict, ais).Abort? ==>
        var at := Embedding(AutoEmbed(s, predict, ais).error.k, AutoEmbed(s, predict, ais).error.tau);
        AutoEmbed(s, predict, ais).error.CandidateError? &&
        InGrid(at, kMax, tauMax) && Score(strategy, at).Failed? &&
        forall e :: InGrid(e, kMax, tauMax) && Before(e, at) ==> Score(strategy, e).Scored?)
  {
    ReportsFirstFailingCell(s.kSearchMax, s.tauSearchMax, SearchStrategy(s, predict, ais));
  }

  /** With both search bounds 1, a search either commits (1, 1) or fails on (1, 1). */
  lemma UnitSearchCommitsOrigin(s: Settings, predict: Predictor, ais: AisEstimator)
    requires MethodOf(s.autoEmbeddingMethod) in {RagwitzMethod, MaxCorrAisMethod}
    requires s.kSearchMax == 1 && s.tauSearchMax == 1
    ensures AutoEmbed(s, predict, ais) in {Commit(Origin), Abort(CandidateError(1, 1))}
  {
    UnitGridYieldsOrigin(SearchStrategy(s, predict, ais));
  }
}
