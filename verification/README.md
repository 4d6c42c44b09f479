# Water potability predictor: request decision logic

This project models the `POST /predict` handler of a small water-potability service. The model is written in Dafny and its properties are proved. The handler reads two measurements: pH and TDS (total dissolved solids). It rejects values outside their ranges with HTTP 400, then answers with a potable probability. That answer comes from one of two predictors:

- the trained classifier, when both the classifier and its input scaler are loaded;
- a fixed 2×2 rule table, when either of them is absent ("degraded mode").

Any other failure is answered with HTTP 500.

Modules:

- `Types` (`types.dfy`): the request fields after reading, the artifact handles, the prediction and the response. Also `Status`, the HTTP code of each response kind.
- `Validation` (`validation.dfy`): the two range checks and their messages. The pH check runs before the TDS check. `PhInRange`, `TdsInRange` and `InRange` define the accepted region once; every other module uses them.
- `Heuristic` (`heuristic.dfy`): the degraded-mode decision table. It has a reference definition, `TableValue` of `GoodCount`, which indexes the table by how many conditions hold.
- `ModelBackend` (`model_backend.dfy`): scaling, scoring and shaping the classifier's class probabilities into percentages. `Unshape` is its inverse.
- `Handler` (`handler.dfy`): backend selection and the whole handler, `Handle`, with the lemmas about error priority, reachability and degraded mode.

Inputs are Dafny `real`s. The scaler and the classifier are opaque total functions that may fail (`None`); only what the handler does with their results is specified.

## Model

| member | source | states |
|---|---|---|
| Types.Status | app.py:31-75 | 200 exactly for a prediction, 400 exactly for a range rejection, 500 exactly for the catch-all error |
| Validation.Validate | app.py:31-35 | accepted iff 0 ≤ pH ≤ 14 and TDS ≥ 0; any out-of-range pH gives the pH message whatever the TDS; an in-range pH with negative TDS gives the TDS message |
| Validation.MessagesDistinct | app.py:32-35 | the pH and TDS error messages differ, so the client can tell which check fired |
| Validation.RejectionMessages | app.py:31-35 | a rejection carries one of the two fixed messages; it is the pH message iff pH is out of range, and the TDS message iff pH is in range and TDS negative |
| Heuristic.IsGoodPh | app.py:40 | the closed band 6.5..8.5; every good pH lies inside the accepted range 0..14 |
| Heuristic.IsGoodTds | app.py:41 | the strict bound below 500; every TDS that is not good is non-negative, so it lies in the accepted range |
| Heuristic.GoodCount | app.py:40-41 | the count is at most 2; it is 2 iff both the pH band and the TDS bound hold, and 0 iff neither does |
| Heuristic.TableValue | app.py:43-48 | every table value is strictly between 0 and 100, and above 50 iff at least one condition holds |
| Heuristic.PotableProbability | app.py:40-48 | the if/elif/else branching equals the table indexed by the number of good conditions |
| Heuristic.Predict | app.py:40-54 | potable is the table value for the number of good conditions; potable + not-potable = 100; the verdict holds iff potable > 50, iff at least one condition holds |
| Heuristic.TableCells | app.py:40-53 | the four cells: both good gives 85/15/true, exactly one gives 60/40/true, neither gives 30/70/false |
| Heuristic.Boundaries | app.py:40-41 | the pH band includes 6.5 and 8.5 and excludes 6.4 and 8.6; TDS 500 is not good, 499.9 is |
| Heuristic.Monotone | app.py:40-48 | moving pH into the band or lowering TDS never lowers the potable probability |
| Heuristic.CellReachable | app.py:31-48 | each of the four combinations of the two conditions is hit by some input that passes the range checks |
| ModelBackend.Shape | app.py:66-70 | the verdict holds iff the reported potable percentage exceeds 50; unshaping gives back the classifier's pair; if the pair sums to 1 the percentages sum to 100, and for a non-negative pair they also lie in [0, 100] |
| ModelBackend.Unshape | app.py:67-68 | the recovered pair times 100 is the reported pair of percentages |
| ModelBackend.ShapeInjective | app.py:66-70 | different classifier outputs are never reported as the same prediction |
| ModelBackend.Predict | app.py:57-70 | a result exists iff both scaling the row [pH, TDS] and scoring it succeed; the result unshapes to the classifier's output; its verdict holds iff potable > 50 |
| ModelBackend.ComplementWhenDistribution | app.py:63-70 | if the classifier yields a distribution, the reported percentages are complementary and bounded |
| ModelBackend.Threshold | app.py:69 | P(potable) = 0.5 is not potable, 0.51 is; 0.8 reports 80/20/true |
| Handler.SelectBackend | app.py:38 | the heuristic is chosen iff the classifier or the scaler is absent; otherwise the loaded pair is used |
| Handler.HandleParsed | app.py:31-72 | a 400 exactly for out-of-range input; every success has verdict iff potable > 50; in-range input in degraded mode gets the heuristic answer; in-range input with both artifacts loaded gets the model-backed prediction, or a 500 exactly when scaling or scoring raised |
| Handler.Handle | app.py:27-75 | a field that cannot be read gives 500; a 400 exactly when both fields read and are out of range; every success has verdict iff potable > 50 |
| Handler.PhOutOfRange | app.py:31-32 | pH < 0 or pH > 14 gives the pH 400 for every TDS and every artifact state |
| Handler.PhErrorTakesPriority | app.py:31-35 | with bad pH and negative TDS the pH error is returned, not the TDS error |
| Handler.NegativeTds | app.py:34-35 | in-range pH with negative TDS gives the TDS 400 |
| Handler.InRangeReachesPredictor | app.py:31-38 | in-range input is never rejected; degraded mode always answers with the table; the model path answers iff scaling and scoring succeed |
| Handler.ReadErrorBeforeRangeCheck | app.py:27-32 | an unreadable TDS gives 500 even when the pH is out of range, because both fields are read before any check |
| Handler.HeuristicIgnoresArtifacts | app.py:38-54 | in degraded mode the response depends only on the request |
| Handler.HeuristicOkShape | app.py:43-53 | in degraded mode every success reports 85, 60 or 30 and complementary percentages |
| Handler.ModelOkShape | app.py:38-70 | with both artifacts loaded, a success means scaling and scoring succeeded; it reports the classifier's pair times 100 with verdict iff P(potable) > 0.5, whatever the pair; the percentages sum to 100 when the pair sums to 1 |
| Handler.HeuristicRowsReachable | app.py:31-54 | each of the three table rows is the degraded-mode answer to some well-formed request |
| Handler.DegradedExamples | app.py:31-54 | (7, 100) gives 85/15/true, (7, 600) gives 60/40/true, (2, 600) gives 30/70/false; pH −1 or 15 gives the pH error; TDS −5 gives the TDS error; a missing pH gives 500 |

## Left out

- HTTP routing, CORS and the server configuration (app.py:1-7, 20, 77-78) are web plumbing.
- Loading the artifacts at startup (app.py:10-18) is file I/O and deserialization. The artifacts are `Option` handles. The model allows either handle to be absent, as the check at app.py:38 does. It does not model that the loader sets both to absent when either fails.
- JSON decoding and `float` coercion (app.py:24-28) are library behaviour. Each field is an `Option<real>`, where `None` means missing or not numeric.
- The internals of `scaler.transform` and `model.predict_proba` (app.py:57-63) are opaque. They are total functions returning `Option`, where `None` means they raised. A malformed probability array that raises on indexing is folded into that `None`.
- The catch-all handler's message (app.py:74-75) is exception text. `ServerError` carries no message.
- IEEE-754 behaviour is not modelled. Inputs and outputs are exact reals. A NaN pH or TDS would pass both `<` checks at app.py:31 and 34, because NaN comparisons are false. Rounding in `* 100` and `100 - p` is also ignored.
- ModelBackend.Shape: the sum-to-100 and [0, 100] properties are stated only for a pair that sums to 1 (and is non-negative, for the bounds). The source assumes this of the classifier and never checks it. The ×100 scaling and the verdict are stated for every pair.
