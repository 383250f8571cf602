# Automatic embedding for the Gaussian active information storage calculator

This project models `ActiveInfoStorageCalculatorGaussian` from JIDT, the Java
Information Dynamics Toolkit. Before observations are finalised, the
calculator can choose its own embedding: the history length `k` and the
embedding delay `tau`. It searches a grid of candidates with one of two
criteria:

- **RAGWITZ** minimises the nearest-neighbour prediction error divided by the
  number of observations.
- **MAX_CORR_AIS** maximises the bias-corrected active information storage.
  Bias correction is switched on for the duration of the search.

The search is configured through a string-keyed property interface.

The model has these modules:

- `EmbeddingGrid` gives the candidates in visiting order.
  - `Traversal(kMax, tauMax)` lists `(1, 1)` first, then every `tau` for `k = 2..kMax`.
  - Lemmas state which cells are visited, in what order, and how many.
- `EmbeddingSearch` holds the two search loops.
  - The loops are imperative methods with nested `while` loops.
  - Each is proved against `Run`, a left fold over the visited candidates.
  - `Run` keeps the running best under a strict comparison and stops at the first failing candidate.
  - Lemmas about `Run` give the arg-min/arg-max with earliest-wins ties, the `(1, 1)` floor, and abort-at-first-failure.
- `Decimal` models `Integer.parseInt` and `Integer.toString` on 32-bit ints, with a round-trip lemma.
- `IgnoreCase` models `equalsIgnoreCase` on ASCII letters.
- `PropertyStore` holds the configuration as a value.
  - `Assign` is `setProperty`. `Lookup` is `getProperty`.
  - Lemmas cover set-then-get, the neighbour-count flag, case-insensitive names and frame conditions.
- `AutoEmbedding` defines `AutoEmbed`. This function gives the outcome of the whole step from the configuration and the estimators.
- `GaussianAis` holds the class `ActiveInfoStorageCalculatorGaussian`.
  - It has the configuration fields, `k`, `tau`, and the properties forwarded to the parent calculator and its Gaussian MI estimator.
  - The estimator's bias correction is one of those forwarded properties, so setting it, reading it and the search all see the same value.
  - `SetProperty` is proved against `Assign`.
  - `PreFinaliseAddObservations` is proved against `AutoEmbed`.

The numeric estimators are parameters of the model.

- The Ragwitz criterion is a `Predictor`. It maps a candidate to the first
  prediction error and the observation count, or to a failure. It receives
  the neighbour count only when that count has been set.
- The MAX_CORR_AIS criterion is an `AisEstimator`. It maps a candidate and a
  bias-correction setting to an estimate or a failure.
- A failure stands for any exception thrown inside a candidate's `try` block.

The `+infinity` and `-infinity` sentinels are modelled as `None`, which every score beats.

The code does not restore bias correction after a failed MAX_CORR_AIS search.

- The comment at line 359 says that the setting is reverted to its previous state.
- A failing candidate throws at line 354. This happens before the write-back at line 360.
- So after a failed MAX_CORR_AIS search, the estimator is left with bias correction `"true"`.
- The model follows the code: `PreFinaliseAddObservations` ensures exactly this.

## Model

| member | source | states |
|---|---|---|
| Decimal.ParseInt | java/source/infodynamics/measures/continuous/gaussian/ActiveInfoStorageCalculatorGaussian.java:202 | parseInt rejects the empty string and any string whose first character is neither a digit nor a sign |
| Decimal.ParseIntAccepts | java/source/infodynamics/measures/continuous/gaussian/ActiveInfoStorageCalculatorGaussian.java:202 | a string parseInt accepts is a digit, or a sign followed by at least one digit, then only digits; the value is those digits' value with the sign applied; a digit string above the int range is rejected |
| Decimal.DecimalString | java/source/infodynamics/measures/continuous/gaussian/ActiveInfoStorageCalculatorGaussian.java:240 | Integer.toString: the decimal digits of the int, with a leading '-' when negative (the partner lemma is ParseDecimalString) |
| Decimal.ParseDecimalString | java/source/infodynamics/measures/continuous/gaussian/ActiveInfoStorageCalculatorGaussian.java:240 | parsing Integer.toString of any int gives that int back |
| IgnoreCase.SameIgnoringCase | java/source/infodynamics/measures/continuous/gaussian/ActiveInfoStorageCalculatorGaussian.java:197 | equalsIgnoreCase: same length, and the same characters once ASCII letters are folded to upper case (the partner lemma is SameIgnoringCaseIsEquivalence) |
| IgnoreCase.SameIgnoringCaseIsEquivalence | java/source/infodynamics/measures/continuous/gaussian/ActiveInfoStorageCalculatorGaussian.java:197-206 | matching names ignoring case is reflexive, symmetric and transitive |
| PropertyStore.OptionNamesDistinct | java/source/infodynamics/measures/continuous/gaussian/ActiveInfoStorageCalculatorGaussian.java:197-206 | no two of the four option names match ignoring case, so a name matching one option matches no other |
| PropertyStore.Assign | java/source/infodynamics/measures/continuous/gaussian/ActiveInfoStorageCalculatorGaussian.java:194-214 | setting fails exactly when the name is one of the three int options and the value does not parse; the error carries the value; an unrecognised name is stored for the parent |
| PropertyStore.Lookup | java/source/infodynamics/measures/continuous/gaussian/ActiveInfoStorageCalculatorGaussian.java:234-253 | the four recognised names always read a value; any other name reads the parent's value, or nothing when it is not set |
| PropertyStore.DefaultsRead | java/source/infodynamics/measures/continuous/gaussian/ActiveInfoStorageCalculatorGaussian.java:234-249 | before anything is set, the options read "NONE", "1", "1" and the Kraskov default K |
| PropertyStore.SetThenGet | java/source/infodynamics/measures/continuous/gaussian/ActiveInfoStorageCalculatorGaussian.java:194-245 | reading back a name just set gives the value set: verbatim for the method and for parent names, and Integer.toString of the parsed int for int options, which parses back to the same int |
| PropertyStore.NeighbourCountFlag | java/source/infodynamics/measures/continuous/gaussian/ActiveInfoStorageCalculatorGaussian.java:206-209 | after a successful set, the neighbour count is marked set exactly when it was already set or this set named it |
| PropertyStore.NamesIgnoreCase | java/source/infodynamics/measures/continuous/gaussian/ActiveInfoStorageCalculatorGaussian.java:197-206 | names that differ only in letter case set and read the same option |
| PropertyStore.SetLeavesOthers | java/source/infodynamics/measures/continuous/gaussian/ActiveInfoStorageCalculatorGaussian.java:196-213 | after a set, every name that does not match the one set reads as before |
| EmbeddingGrid.Traversal | java/source/infodynamics/measures/continuous/gaussian/ActiveInfoStorageCalculatorGaussian.java:277-314 | the candidates the nested loops visit, in visiting order: (1, 1), then every tau for each k from 2 to kMax (its partner lemmas are TraversalCoversGrid and TraversalIsOrdered) |
| EmbeddingGrid.RowShape | java/source/infodynamics/measures/continuous/gaussian/ActiveInfoStorageCalculatorGaussian.java:278-314 | the inner loop visits tau = 1..tauMax in ascending order for k > 1, and only tau = 1 for k = 1 |
| EmbeddingGrid.TraversalCoversGrid | java/source/infodynamics/measures/continuous/gaussian/ActiveInfoStorageCalculatorGaussian.java:277-314 | a candidate is visited exactly when it is a grid cell; no (1, tau > 1) is visited |
| EmbeddingGrid.TraversalIsOrdered | java/source/infodynamics/measures/continuous/gaussian/ActiveInfoStorageCalculatorGaussian.java:277-278 | candidates are visited in strictly increasing (k, tau) order, so none is visited twice |
| EmbeddingGrid.TraversalLength | java/source/infodynamics/measures/continuous/gaussian/ActiveInfoStorageCalculatorGaussian.java:277-314 | a full search evaluates 1 + (kMax - 1) * tauMax candidates, or none when the grid is empty |
| EmbeddingGrid.TraversalStartsAtOrigin | java/source/infodynamics/measures/continuous/gaussian/ActiveInfoStorageCalculatorGaussian.java:277-278 | a non-empty search starts at (1, 1) |
| EmbeddingSearch.NormalisedError | java/source/infodynamics/measures/continuous/gaussian/ActiveInfoStorageCalculatorGaussian.java:302-307 | the Ragwitz score, predictionError[0] divided by the observation count; it is what RagwitzCommitsLeastError minimises |
| EmbeddingSearch.Step | java/source/infodynamics/measures/continuous/gaussian/ActiveInfoStorageCalculatorGaussian.java:302-317 | one candidate's effect on the search: a failure aborts there; a score replaces the best when none is held yet or it strictly improves on it; an aborted search stays aborted |
| EmbeddingSearch.Run | java/source/infodynamics/measures/continuous/gaussian/ActiveInfoStorageCalculatorGaussian.java:267-320 | the search after a prefix of the candidates, starting from (1, 1) with no score; the loops are proved equal to it, and the lemmas below state what it computes |
| EmbeddingSearch.RunAbortsAtFirstFailure | java/source/infodynamics/measures/continuous/gaussian/ActiveInfoStorageCalculatorGaussian.java:315-317 | the search aborts exactly when some visited candidate fails, and it aborts at the first such candidate |
| EmbeddingSearch.RunFindsEarliestOptimum | java/source/infodynamics/measures/continuous/gaussian/ActiveInfoStorageCalculatorGaussian.java:302-310 | when every candidate is scored, the search keeps (1, 1) if there is no candidate; otherwise it keeps the candidate whose score is optimal and strictly better than every earlier one |
| EmbeddingSearch.RunStaysAborted | java/source/infodynamics/measures/continuous/gaussian/ActiveInfoStorageCalculatorGaussian.java:315-317 | once aborted, visiting more candidates does not change the outcome |
| EmbeddingSearch.CommitsEarliestBestCell | java/source/infodynamics/measures/continuous/gaussian/ActiveInfoStorageCalculatorGaussian.java:302-310 | a completed grid search commits (1, 1) on an empty grid; otherwise it commits a grid cell optimal over the whole grid and strictly better than every cell before it |
| EmbeddingSearch.ReportsFirstFailingCell | java/source/infodynamics/measures/continuous/gaussian/ActiveInfoStorageCalculatorGaussian.java:315-317 | a grid search fails exactly when some cell fails; the reported cell fails, and every cell before it was scored |
| EmbeddingSearch.UnitGridYieldsOrigin | java/source/infodynamics/measures/continuous/gaussian/ActiveInfoStorageCalculatorGaussian.java:267-268 | with both bounds 1, the outcome is a commit of (1, 1) or a failure at (1, 1) |
| EmbeddingSearch.RagwitzSearch | java/source/infodynamics/measures/continuous/gaussian/ActiveInfoStorageCalculatorGaussian.java:270-320 | the nested loops return the outcome of Run over the traversal with the Ragwitz criterion; a commit means every candidate was evaluated; a failure means the failing candidate was the last one evaluated |
| EmbeddingSearch.MaxCorrAisSearch | java/source/infodynamics/measures/continuous/gaussian/ActiveInfoStorageCalculatorGaussian.java:331-358 | the same for the MAX_CORR_AIS criterion |
| AutoEmbedding.MethodOf | java/source/infodynamics/measures/continuous/gaussian/ActiveInfoStorageCalculatorGaussian.java:260-364 | the method a configured value selects, compared with NONE, RAGWITZ and MAX_CORR_AIS in that order ignoring case (its partner lemma is MethodSelection) |
| AutoEmbedding.MethodSelection | java/source/infodynamics/measures/continuous/gaussian/ActiveInfoStorageCalculatorGaussian.java:260-321 | each method name is selected exactly by the names equal to it ignoring case, whatever the order of the comparisons |
| AutoEmbedding.AutoEmbed | java/source/infodynamics/measures/continuous/gaussian/ActiveInfoStorageCalculatorGaussian.java:257-373 | the outcome of the step: nothing for NONE, an error naming an unknown method, otherwise the Ragwitz search (given the neighbour count only when it was set) or the MAX_CORR_AIS search (with bias correction "true") over the configured grid; PreFinaliseAddObservations is proved against it |
| AutoEmbedding.AutoEmbedDispatch | java/source/infodynamics/measures/continuous/gaussian/ActiveInfoStorageCalculatorGaussian.java:260-364 | NONE leaves the embedding unchanged; any unknown method fails naming its value; neither runs a search |
| AutoEmbedding.RagwitzCommitsLeastError | java/source/infodynamics/measures/continuous/gaussian/ActiveInfoStorageCalculatorGaussian.java:271-310 | a completed Ragwitz search commits (1, 1) on an empty grid; otherwise it commits a grid cell with the least normalised error, strictly less than every cell visited before it; every candidate is predicted with the neighbour count passed exactly when it was set |
| AutoEmbedding.MaxCorrAisCommitsGreatest | java/source/infodynamics/measures/continuous/gaussian/ActiveInfoStorageCalculatorGaussian.java:322-348 | a completed MAX_CORR_AIS search commits (1, 1) on an empty grid; otherwise it commits a grid cell with the greatest estimate under bias correction "true", strictly greater than every cell visited before it |
| AutoEmbedding.SearchFailsAtFirstFailingCell | java/source/infodynamics/measures/continuous/gaussian/ActiveInfoStorageCalculatorGaussian.java:315-355 | a search fails exactly when some grid cell fails; the error names a failing grid cell with every earlier cell evaluated |
| AutoEmbedding.UnitSearchCommitsOrigin | java/source/infodynamics/measures/continuous/gaussian/ActiveInfoStorageCalculatorGaussian.java:267-268 | with both search bounds 1, a search commits (1, 1) or fails naming (1, 1) |
| GaussianAis.ActiveInfoStorageCalculatorGaussian.constructor | java/source/infodynamics/measures/continuous/gaussian/ActiveInfoStorageCalculatorGaussian.java:105-152 | a new calculator has the field initialisers and the parent's forwarded properties |
| GaussianAis.ActiveInfoStorageCalculatorGaussian.SetProperty | java/source/infodynamics/measures/continuous/gaussian/ActiveInfoStorageCalculatorGaussian.java:194-219 | the configuration, forwarded properties included, becomes what Assign gives; a malformed int fails and changes nothing; k and tau are untouched |
| GaussianAis.ActiveInfoStorageCalculatorGaussian.GetProperty | java/source/infodynamics/measures/continuous/gaussian/ActiveInfoStorageCalculatorGaussian.java:234-254 | getProperty reads the current configuration through Lookup, so a bias correction left on by a failed search reads as "true" |
| GaussianAis.ActiveInfoStorageCalculatorGaussian.SearchWithBiasCorrection | java/source/infodynamics/measures/continuous/gaussian/ActiveInfoStorageCalculatorGaussian.java:328-360 | the MAX_CORR_AIS branch returns Run over the traversal scored with bias correction "true"; afterwards the forwarded properties are as before when the search completes, and bias correction is left "true" when it fails |
| GaussianAis.ActiveInfoStorageCalculatorGaussian.PreFinaliseAddObservations | java/source/infodynamics/measures/continuous/gaussian/ActiveInfoStorageCalculatorGaussian.java:257-373 | the error, k and tau are those AutoEmbed gives; a failure leaves k and tau unchanged; only MAX_CORR_AIS touches the forwarded properties, restoring bias correction on success and leaving it "true" on failure; NONE and unknown methods evaluate nothing; a failure stops right after the failing candidate |

## Left out

- The numeric estimators are parameters (`Predictor`, `AisEstimator`). These are the Kraskov prediction errors, the Gaussian MI local average and `prepareMICalculator`, which belong to other classes.
- The estimators' internal state is not modelled. Preparing an estimator for a candidate loads observations into it, and the model ignores this. Apart from that, the search changes no forwarded property except bias correction.
- `computeSignificance` (lines 398-400) is not modelled. It only delegates to the Gaussian MI estimator.
- EmbeddingSearch.Prediction: the observation count is at least 1. The model does not cover division by zero or NaN and infinite doubles.
- Scores are exact reals. Java's scores are doubles, and rounding can turn a strict improvement into a tie, in which case Java keeps the earlier candidate where the model moves to the later one. Floating-point rounding is not modelled.
- A candidate scoring `+infinity` would not beat the Ragwitz sentinel in Java, but it beats `None` here.
- The Kraskov estimator's default neighbour count is a parameter of `Lookup`. It is not read from a fresh Kraskov estimator.
- Properties passed to the parent calculator are a map, stored and read under the exact name. The parent's own handling of them is not modelled. This includes its own case folding, its parsing, and the fact that its embedding properties are the same `k` and `tau`.
- The Gaussian MI estimator's bias-correction property is taken to be the forwarded property named `BIAS_CORRECTION`. `MutualInfoCalculatorMultiVariateGaussian`, which defines that name and its default value, is not part of this model. An unset property reads as absent, and a search that completes leaves it unset again.
- `equalsIgnoreCase` is modelled on ASCII letters only. `parseInt` accepts ASCII digits only. Java's Unicode case mapping and non-ASCII digits are not modelled.
- `null` names and values are not modelled.
- Loop counters are unbounded integers. With a search bound of `Integer.MAX_VALUE`, the Java loop counter would wrap around, and this is not modelled.
- The wrapped exception's cause and message text are not modelled. The error keeps only the failing candidate's `(k, tau)` or the unexpected method value.
- Debug printing is left out.
