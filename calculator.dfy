/**
 * The Gaussian active information storage calculator: its auto-embedding
 * configuration, the property setter that updates it, and the step run
 * before observations are finalised, which chooses the embedding length k
 * and delay tau.
 */
module GaussianAis {
  import opened Wrappers
  import opened IgnoreCase
  import opened Decimal
  import opened EmbeddingGrid
  import opened EmbeddingSearch
  import opened PropertyStore
  import opened AutoEmbedding

  class ActiveInfoStorageCalculatorGaussian {
    var autoEmbeddingMethod: string
    var kSearchMax: Int32
    var tauSearchMax: Int32
    var ragwitzNumNns: Int32
    var ragwitzNumNnsSet: bool
    /**
     * The properties handled by the parent calculator and its Gaussian MI
     * estimator, among them the estimator's bias correction.
     */
    var parentProperties: map<string, string>
    /** The embedding length and delay the inherited estimation uses. */
    var k: int
    var tau: int

    /** The configuration, as the property interface sees it. */
    function Config(): Settings
      reads this
    {
      Settings(autoEmbeddingMethod, kSearchMax, tauSearchMax, ragwitzNumNns, ragwitzNumNnsSet, parentProperties)
    }

    /** A calculator with the initial configuration; k, tau and the forwarded properties are the parent's. */
    constructor(parent: map<string, string>, k0: int, tau0: int)
      ensures Config() == Defaults(parent)
      ensures k == k0 && tau == tau0
    {
      autoEmbeddingMethod := AUTO_EMBED_METHOD_NONE;
      kSearchMax, tauSearchMax := 1, 1;
      ragwitzNumNns, ragwitzNumNnsSet := 1, false;
      parentProperties := parent;
      k, tau := k0, tau0;
    }

    /**
     * setProperty: the configuration, forwarded properties included, becomes
     * what Assign gives; a malformed int fails and leaves everything as it
     * was. The embedding is untouched.
     */
    method SetProperty(name: string, value: string) returns (r: Outcome<PropertyError>)
      modifies this`autoEmbeddingMethod, this`kSearchMax, this`tauSearchMax,
        this`ragwitzNumNns, this`ragwitzNumNnsSet, this`parentProperties
      ensures Assign(old(Config()), name, value).Ok? ==>
        r == Pass && Config() == Assign(old(Config()), name, value).value
      ensures Assign(old(Config()), name, value).Err? ==>
        r == Fail(Assign(old(Config()), name, value).error) && Config() == old(Config())
    {
      if SameIgnoringCase(name, PROP_AUTO_EMBED_METHOD) {
        autoEmbeddingMethod := value;
      } else if SameIgnoringCase(name, PROP_K_SEARCH_MAX) {
        var n := ParseInt(value);
        if n.None? {
          return Fail(MalformedInteger(value));
        }
        kSearchMax := n.value;
      } else if SameIgnoringCase(name, PROP_TAU_SEARCH_MAX) {
        var n := ParseInt(value);
        if n.None? {
          return Fail(MalformedInteger(value));
        }
        tauSearchMax := n.value;
      } else if SameIgnoringCase(name, PROP_RAGWITZ_NUM_NNS) {
        var n := ParseInt(value);
        if n.None? {
          return Fail(MalformedInteger(value));
        }
        ragwitzNumNns := n.value;
        ragwitzNumNnsSet := true;
      } else {
        parentProperties := parentProperties[name := value];
      }
      r := Pass;
    }

    /** getProperty, given the Kraskov estimator's default neighbour count. */
    function GetProperty(name: string, kraskovDefaultK: string): Option<string>
      reads this
    {
      Lookup(Config(), name, kraskovDefaultK)
    }

    /**
     * preFinaliseAddObservations: runs the configured search and commits its
     * result to k and tau. The error, k and tau are those AutoEmbed
     * determines from the configuration; a failure changes neither k nor
     * tau. MAX_CORR_AIS switches the estimator's bias correction on and
     * writes back the earlier setting only when its search completes, so a
     * failed search leaves it on. evaluated lists the candidates evaluated,
     * in order.
     */
    method PreFinaliseAddObservations(predict: Predictor, ais: AisEstimator)
      returns (r: Outcome<AutoEmbedError>, ghost evaluated: seq<Embedding>)
      modifies this`k, this`tau, this`parentProperties
      ensures var o := AutoEmbed(old(Config()), predict, ais);
        r == (if o.Abort? then Fail(o.error) else Pass) &&
        (o.Commit? ==> k == o.best.k && tau == o.best.tau) &&
        (!o.Commit? ==> k == old(k) && tau == old(tau))
      ensures parentProperties ==
        if MethodOf(old(autoEmbeddingMethod)) == MaxCorrAisMethod && r.Fail? then
          old(parentProperties)[PROP_BIAS_CORRECTION := BIAS_CORRECTION_ON]
        else old(parentProperties)
      ensures MethodOf(old(autoEmbeddingMethod)) in {NoAutoEmbed, UnknownMethod} ==> evaluated == []
      ensures evaluated <= Traversal(kSearchMax, tauSearchMax)
      ensures r == Pass && MethodOf(old(autoEmbeddingMethod)) != NoAutoEmbed ==>
        evaluated == Traversal(kSearchMax, tauSearchMax)
      ensures r.Fail? && r.error.CandidateError? ==>
        evaluated != [] && evaluated[|evaluated| - 1] == Embedding(r.error.k, r.error.tau)
    {
      evaluated := [];
      ghost var config := Config();
      if SameIgnoringCase(autoEmbeddingMethod, AUTO_EMBED_METHOD_NONE) {
        return Pass, evaluated;
      }
      var best: Embedding;
      if SameIgnoringCase(autoEmbeddingMethod, AUTO_EMBED_METHOD_RAGWITZ) {
        var nns := if ragwitzNumNnsSet then Some(ragwitzNumNns) else None;
        var result;
        result, evaluated := RagwitzSearch(kSearchMax, tauSearchMax, RagwitzPredictor(predict, nns));
        if result.CandidateFailed? {
          return Fail(CandidateError(result.at.k, result.at.tau)), evaluated;
        }
        best := result.best;
      } else if SameIgnoringCase(autoEmbeddingMethod, AUTO_EMBED_METHOD_MAX_CORR_AIS) {
        var result;
        result, evaluated := SearchWithBiasCorrection(ais);
        assert SearchStrategy(config, predict, ais) == MaxCorrAis(AisUnderBias(ais, BIAS_CORRECTION_ON));
        if result.CandidateFailed? {
          return Fail(CandidateError(result.at.k, result.at.tau)), evaluated;
        }
        best := result.best;
      } else {
        return Fail(UnexpectedMethod(autoEmbeddingMethod)), evaluated;
      }
      k := best.k;
      tau := best.tau;
      r := Pass;
    }

    /**
     * The MAX_CORR_AIS branch: switches the estimator's bias correction on,
     * searches with it, and writes back the earlier setting only when the
     * search completes.
     */
    method SearchWithBiasCorrection(ais: AisEstimator)
      returns (result: SearchResult, ghost evaluated: seq<Embedding>)
      modifies this`parentProperties
      ensures result == Conclusion(Run(Traversal(kSearchMax, tauSearchMax),
        MaxCorrAis(AisUnderBias(ais, BIAS_CORRECTION_ON))))
      ensures parentProperties ==
        if result.CandidateFailed? then old(parentProperties)[PROP_BIAS_CORRECTION := BIAS_CORRECTION_ON]
        else old(parentProperties)
      ensures evaluated <= Traversal(kSearchMax, tauSearchMax)
      ensures result.Committed? ==> evaluated == Traversal(kSearchMax, tauSearchMax)
      ensures result.CandidateFailed? ==> evaluated != [] && evaluated[|evaluated| - 1] == result.at
    {
      // An estimator property never set reads as absent; writing it back
      // then returns it to unset.
      var previousBiasCorrection := if PROP_BIAS_CORRECTION in parentProperties
        then Some(parentProperties[PROP_BIAS_CORRECTION]) else None;
      parentProperties := parentProperties[PROP_BIAS_CORRECTION := BIAS_CORRECTION_ON];
      result, evaluated := MaxCorrAisSearch(kSearchMax, tauSearchMax,
        AisUnderBias(ais, parentProperties[PROP_BIAS_CORRECTION]));
      if result.CandidateFailed? {
        return;
      }
      if previousBiasCorrection.Some? {
        parentProperties := parentProperties[PROP_BIAS_CORRECTION := previousBiasCorrection.value];
      } else {
        parentProperties := parentProperties - {PROP_BIAS_CORRECTION};
      }
      assert parentProperties == old(parentProperties);
    }
  }
}
