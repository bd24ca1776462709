# ergo: loss composition and Metaculus continuous-question logic in Dafny

This project models three parts of the `ergo` forecasting library:

- **`ergo/static.py`** — the loss-composition engine that scores a
  distribution against a list of conditions. There are two ways to combine
  the losses:
  - the fused `jitted_condition_loss` sums and then multiplies by 100;
  - the decomposed `condition_loss` multiplies each condition's loss by 100
    and then sums.
  The file also covers the gradient total `condition_loss_grad`, the
  negative log-likelihood `dist_logloss`, the logistic-mixture log-density
  with its batch / single-datum split, and the Wasserstein distance between
  two histograms.
  Module `StaticLoss` (`static_loss.dfy`).
- **`ergo/platforms/metaculus/question/continuous.py`** — what a continuous
  Metaculus question does before and after a submission:
  - which sides of its range are open;
  - the community's mass below and above the range;
  - clipping a fitted logistic (mixture) into the ranges the API accepts;
  - the community conditions a fit is scored against;
  - the true-scale bounds;
  - formatting a submission for the API and reading it back from JSON.
  Module `Continuous` (`continuous.dfy`).
- **`ergo/platforms/metaculus/question/linear.py`** — a linear-scale question
  reads its scale from the question's range and maps a logistic (mixture)
  affinely from the normalised [0, 1] scale onto that range.
  Module `Linear` (`linear.dfy`).

`wrappers.dfy` holds `Option` and `Result`. The `Error` type names the
Python exception an operation raises. `distributions.dfy` holds the record
shapes of the distribution and scale types that these files read and build.

Some code these files call has definitions outside this model. It is passed
in as function-valued parameters, so every theorem holds for any choice of
them. These collaborators are:

- the distribution class's `from_params`;
- a condition's `structure` and `loss`;
- `logpdf`, `logistic_logpdf`, `log` and `logsumexp`;
- the logistic `cdf`;
- the scale's normalisation maps;
- `PointDensity.from_pairs`;
- the API constants `max_loc`, `min_scale`, ….

All arithmetic is over `real`.

The loops of the source are methods proved against specification
functions:

- `JittedConditionLoss`, `ConditionLoss`, `ConditionLossGrad` and
  `LogisticMixtureLogpdf1` in `StaticLoss`;
- `CommunityConditions`, `GetBounds` and `GetLogisticFromJson` in
  `Continuous`.

The properties are proved about those functions.

Points where the model fixes a reading of the source:

- Python's `zip` stops at the shorter list. The loss totals are taken over
  `Zip(ks, ps)`, which does the same.
- `get_true_scale_logistic` (linear.py:35) multiplies `normalized_dist.scale`
  by the range width. In continuous.py the logistic's numeric scale
  parameter is `s`, and `scale` is the `Scale` object it is expressed in
  (continuous.py:150-154, 168-170). The model reads linear.py's
  `normalized_dist.scale` as the numeric parameter `s`.
- `Scale(low, high)` stands for the question scale. Its lower end is
  `scale_min` and its width `high - low` is `scale_range`.

## Model

| member | source | states |
|---|---|---|
| StaticLoss.JittedConditionLoss | ergo/static.py:18-23 | The loop's total is the fused loss: one distribution built from the fixed and optimised parameters, the condition losses of the zipped list summed in order, times 100. The total is 0 when either list is empty. |
| StaticLoss.FusedEqualsDecomposed | ergo/static.py:35-44 | The decomposed total (each condition's loss times 100, then summed) equals the fused total (summed, then times 100), for every condition list. |
| StaticLoss.SingleConditionLossIsFusedOfOne | ergo/static.py:62-75 | `single_condition_loss` (the condition rebuilt from its class and parameters, its loss times 100) equals the fused loss of the one-condition list. |
| StaticLoss.ConditionLoss | ergo/static.py:38-44 | The loop's total is the sum of the per-condition `single_condition_loss` values. It equals the fused total, and it is 0 for an empty list. |
| StaticLoss.FusedLossOrderIndependent | ergo/static.py:20-22 | Reordering the (condition class, parameter) pairs changes neither the fused nor the decomposed total. |
| StaticLoss.ConditionLossGrad | ergo/static.py:47-56 | The loop starts at 0 and adds one per-condition gradient contribution per zipped pair. Its result is the sum of those contributions, and 0 for an empty list. |
| StaticLoss.DecomposedGradAppend | ergo/static.py:52-55 | Appending one aligned (class, parameter) pair adds exactly that pair's contribution to the gradient total. |
| StaticLoss.DistLogloss | ergo/static.py:97-103 | The result is minus the sum of `logpdf` over the data. The one-datum branch gives the same value as the general sum. |
| StaticLoss.Reshape3 | ergo/static.py:132 | Reshaping into (loc, scale, prob) rows succeeds exactly when the parameter count is a multiple of 3. |
| StaticLoss.ReshapeTriples | ergo/static.py:132 | There are `len(params) / 3` rows, and row i is `(params[3i], params[3i+1], params[3i+2])`. |
| StaticLoss.MixtureLogpdf1 | ergo/static.py:129-138 | Succeeds exactly when the parameter count is a multiple of 3. The value is `logsumexp` of exactly `len(params) / 3` scores, the i-th being `logistic_logpdf(datum, params[3i], params[3i+1]) + log(params[3i+2])`. |
| StaticLoss.LogisticMixtureLogpdf1 | ergo/static.py:133-138 | The loop that appends one score per row returns the `MixtureLogpdf1` value, including the reshape error. |
| StaticLoss.LogisticMixtureLogpdf | ergo/static.py:120-126 | A batch fails exactly when the reshape does. Its value is the sum over the data of the per-datum mixture log-density. The one-datum branch equals `logistic_mixture_logpdf1` of that datum. |
| StaticLoss.Zip | ergo/static.py:20 | The zip has the shorter list's length, and pair i is `(ks[i], ps[i])`. |
| StaticLoss.SumPermutation | ergo/static.py:40-43 | Summing the same terms in another order gives the same total. |
| StaticLoss.CumSumAt | ergo/static.py:149 | The i-th running total is the sum of the first i + 1 differences. |
| StaticLoss.WassersteinDistance | ergo/static.py:147-151 | The distance (the sum of absolute prefix sums of `xs - ys`) is never negative. |
| StaticLoss.WassersteinZeroIffPrefixSumsZero | ergo/static.py:147-151 | The distance is 0 exactly when every prefix sum of `xs - ys` is 0. |
| StaticLoss.PrefixSumsZero | ergo/static.py:149 | Every running total of a list is 0 exactly when every element is 0. |
| StaticLoss.WassersteinZeroIffEqual | ergo/static.py:147-151 | The distance is 0 exactly when `xs == ys`. In particular it vanishes on equal inputs. |
| Continuous.SideOpen | ergo/platforms/metaculus/question/continuous.py:47-61 | A side is open exactly when `possibilities` has the key and its value is "tail". A missing key (the `KeyError` branch) gives closed. |
| Continuous.LowOpen | ergo/platforms/metaculus/question/continuous.py:63-69 | The low side is open exactly when `possibilities` has "low" with value "tail". |
| Continuous.HighOpen | ergo/platforms/metaculus/question/continuous.py:71-77 | The high side is open exactly when `possibilities` has "high" with value "tail". |
| Continuous.LatestCommunityPercentiles | ergo/platforms/metaculus/question/continuous.py:125-135 | The percentiles are absent exactly when the prediction timeseries is empty. Otherwise they are the last entry's community prediction. |
| Continuous.PBelow | ergo/platforms/metaculus/question/continuous.py:85-89 | `p_below` is absent exactly when the percentiles are. Otherwise it is the last entry's `low`. |
| Continuous.PAbove | ergo/platforms/metaculus/question/continuous.py:79-83 | `p_above` is absent exactly when the percentiles are. Otherwise it is 1 minus the last entry's `high`. |
| Continuous.POutside | ergo/platforms/metaculus/question/continuous.py:91-98 | `p_outside` is absent exactly when either part is. Otherwise it is 1 minus the mass between the last entry's `low` and `high`. |
| Continuous.Clip | ergo/platforms/metaculus/question/continuous.py:154 | `numpy.clip`: a value in range is kept, a value below `lo` becomes `lo`, a value above `hi` becomes `hi`, and an empty interval gives `hi`. |
| Continuous.ClippedToUnique | ergo/platforms/metaculus/question/continuous.py:154 | The case-by-case description of clipping covers every input, so it fixes the clipped value. |
| Continuous.PrepareLogistic | ergo/platforms/metaculus/question/continuous.py:137-170 | The logistic is unwrapped from `Truncate`. The call fails with `ValueError` exactly when `s <= 0`. Otherwise the loc is kept when at most `max_loc` and becomes `max_loc` above it. The scale is `s` clipped into [min_scale, max_scale], case by case as for `Clip`. The `low` mass is 0 on a closed low side, and on an open one the CDF at 0 clipped into [min_open_low, max_open_low]. The `high` mass is 1 on a closed high side, and on an open one the CDF at 1 clipped into [low + min_open_high, max_open_high]. The result is on the unit scale and carries the low/high masses as metadata. |
| Continuous.PrepareComponents | ergo/platforms/metaculus/question/continuous.py:182-184 | The component list succeeds exactly when every component's scale is positive. It keeps the count and order, and component i is `prepare_logistic` of input i. |
| Continuous.PrepareLogisticMixture | ergo/platforms/metaculus/question/continuous.py:172-188 | The mixture succeeds exactly when every scale is positive. The component count and order are kept and each component is prepared. Weight i is input weight i clipped into [0.01, 0.99]: kept when inside, 0.01 below, 0.99 above. |
| Continuous.CommunityConditions | ergo/platforms/metaculus/question/continuous.py:225-259 | The list starts with the cross-entropy condition against the normalised community histogram, with `crossentropy_weight`. Its length is 1 + the number of open sides. An open low side adds an interval with p = `p_below` and max = `scale.low`. An open high side adds, last, an interval with p = `p_above` and min = `scale.high`. Every interval has `interval_weight`. |
| Continuous.DefaultCommunityConditions | ergo/platforms/metaculus/question/continuous.py:225 | With the default weights the list is the one `community_conditions` builds: the cross-entropy condition against the normalised community histogram with weight 0.1, then an interval with p = `p_below` and max = `scale.low` if the low side is open, and last an interval with p = `p_above` and min = `scale.high` if the high side is open, each with weight 10000.0. |
| Continuous.TrueScaleBounds | ergo/platforms/metaculus/question/continuous.py:374-382 | `floor` is absent exactly when the low side is open (so it agrees with `low_open`), and is otherwise `scale.low`. The same holds for `ceiling` with the high side and `scale.high`. |
| Continuous.GetBounds | ergo/platforms/metaculus/question/continuous.py:376-382 | The method that reassigns `floor`/`ceiling` returns the `TrueScaleBounds` value. |
| Continuous.Number | ergo/platforms/metaculus/question/continuous.py:392 | Reading `x0`, `s` or `w` succeeds exactly when the key is present with a number, and gives that number. |
| Continuous.LogisticFromJson | ergo/platforms/metaculus/question/continuous.py:384-394 | Succeeds exactly when `x0` and `s` are numbers. The result is a `Truncate` of the normalised logistic `(x0, s)`. It has a floor exactly when the low side is closed and a ceiling exactly when the high side is closed, each the normalised end of the range. |
| Continuous.GetLogisticFromJson | ergo/platforms/metaculus/question/continuous.py:385-394 | The method that fills the `normed_bounds` dictionary returns the `LogisticFromJson` value. |
| Continuous.ComponentsFromJson | ergo/platforms/metaculus/question/continuous.py:397-400 | There is one component per JSON entry, in order, each read by `get_logistic_from_json`. |
| Continuous.WeightsFromJson | ergo/platforms/metaculus/question/continuous.py:402 | Weight i is entry i's `w`. |
| Continuous.GetSubmissionFromJson | ergo/platforms/metaculus/question/continuous.py:396-403 | Succeeds exactly when every entry has numeric `x0`, `s` and `w`. Then there is one component per entry and `probs[i]` is entry i's `w`. |
| Continuous.FormatLogisticForApi | ergo/platforms/metaculus/question/continuous.py:329-343 | A component without a scale fails with `ValueError`, and one with a scale but no metadata with `TypeError`. Otherwise the entry has `kind` "logistic", `x0` = loc, `s` = s, `w` = the weight, and `low`/`high` = the metadata's masses. |
| Continuous.FormatPrediction | ergo/platforms/metaculus/question/continuous.py:350-353 | The `d` list of a submission has one entry per component. Entry i formats component i with weight `probs[i]`, and success needs a weight for each component. |
| Continuous.FormatPredictionOk | ergo/platforms/metaculus/question/continuous.py:347-356 | Formatting succeeds whenever every component has a scale and metadata and there is a weight for each. |
| Continuous.SubmissionRoundTrip | ergo/platforms/metaculus/question/continuous.py:329-403 | Reading back the formatted submission succeeds. It gives as many components as were formatted, each a normalised logistic with the original loc and s, and the weights that were sent. |
| Continuous.PreparedMixtureFormats | ergo/platforms/metaculus/question/continuous.py:172-188 | A successfully prepared mixture with a weight per component can always be formatted for the API. |
| Linear.LinearQuestion | ergo/platforms/metaculus/question/linear.py:17-21 | The scale is set exactly when `question_range` (the question's `possibilities["scale"]`) has `min` and `max`, with `scale_min` = min and `scale_range` = max − min. The rest of the question is unchanged. |
| Linear.GetTrueScaleLogistic | ergo/platforms/metaculus/question/linear.py:25-36 | loc 0 maps to `scale_min` and loc 1 to the top of the range. A positive scale stays positive when `scale_range > 0`. On a non-degenerate range the normalised loc and scale can be read back. On a range of zero width the result is loc `scale_min` and scale 0. The result carries no scale object or metadata. |
| Linear.TrueScaleMonotone | ergo/platforms/metaculus/question/linear.py:33 | On a range of positive width one location lies below another exactly when its true-scale image does: the location map keeps and reflects order. |
| Linear.GetTrueScaleMixture | ergo/platforms/metaculus/question/linear.py:38-51 | There are as many components, in the same order, and the i-th is the converted i-th input. Positive scales stay positive on a positive-width range, and the probabilities are returned unchanged. |

## Left out

- JAX machinery is not modelled: `jit`, `grad` and `vmap` tracing and the
  static-argument specialisation cache. This includes the module-level
  gradient values `jitted_condition_loss_grad`, `single_condition_loss_grad`,
  `dist_grad_logloss` and `logistic_mixture_grad_logpdf`, which are
  compilation and differentiation machinery.
- StaticLoss.ConditionLossGrad: each per-condition gradient contribution is an
  abstract real supplied by the caller. `single_condition_loss_grad` is the
  derivative with respect to its third argument (the condition parameter),
  and no claim about the distribution parameters is made.
- The trace `print` of `jitted_condition_loss` is output only and is left
  out.
- The trace `print` of `single_condition_loss` (ergo/static.py:68-74) reads
  `dist_class`, `dist_fixed_params` and `dist_opt_params`. None of these is a
  parameter of that function or a module-level name, so as written the print
  raises `NameError`. `single_condition_loss` therefore always fails, and so
  do `condition_loss` on a non-empty zip and `condition_loss_grad` (through
  the traced gradient). StaticLoss.SingleConditionLoss, ConditionLoss and
  ConditionLossGrad describe these functions as if that print were removed.
- `describe_fit` is left out: it forwards to `condition._describe_fit`,
  whose definition is not part of this model.
- `logistic_logpdf`, `logpdf`, `log`, `logsumexp` and the logistic `cdf` are
  uninterpreted functions over `real`. There is no floating point and no
  rounding, and `logsumexp` of an empty list is whatever the supplied
  function returns.
- StaticLoss.WassersteinDistance: requires equal lengths. NumPy's
  broadcasting or shape errors on unequal lengths are not modelled.
- StaticLoss.LogisticMixtureLogpdf: the `data.size == 1` test is read as "a
  batch of one datum". Multi-dimensional arrays are not modelled.
- Plotting and sampling in continuous.py are left out because they are
  rendering and random sampling: `show_prediction`,
  `show_community_prediction`, `comparison_plot`, `density_plot`,
  `sample_normalized_community`, `sample_community`,
  `community_dist_in_range`, `plot_title` and `_scale_x`.
- `change_since` is left out: it compares community medians obtained through
  `get_community_prediction`, which is not part of this model, and returns 0
  when that lookup raises `LookupError`.
- Network and remote state are left out: `submit`, `submit_from_samples` and
  `refresh_question`. Only the `"d"` list that `submit` builds is modelled
  (`FormatPrediction`).
- `get_submission_from_samples` is left out: it relies on an optimiser fit
  (`from_samples`) that is not part of this model.
- `community_pairs` (Continuous.CommunityPairs) is a plain definition, used
  for the histogram `community_conditions` passes on. No separate property is
  stated for its denormalising branches, which only apply the scale maps
  passed in.
- `community_dist` is left out because it is a single call to
  `PointDensity.from_pairs`. `CommunityConditions` takes that constructor as
  a parameter.
- `normalize_samples` and `denormalize_samples` are left out: they only apply
  the scale maps, which are parameters here.
- `get_latest_normalized_prediction` is left out because it reads the remote
  `my_predictions` state. It passes the last prediction's `"d"` list to
  `get_submission_from_json`, which is modelled (`GetSubmissionFromJson`).
- `has_predictions` (a Python `hasattr`) and `question_range_width` are not
  modelled separately. `Question` always has its fields, and the width is
  `Scale.ScaleRange`.
- Scale maps (`normalize_point`, `denormalize_point`, `denormalize_density`)
  and the API constants are parameters. Their values and definitions are not
  part of this model.
- Continuous.LatestCommunityPercentiles: a `community_prediction` entry is a
  record with `low` and `high`. A `KeyError` for a dictionary missing those
  keys is not modelled.
- Continuous.LogisticFromJson: a non-numeric `x0`, `s` or `w` is reported as
  `TypeError`. The source would pass the value on to the distribution
  constructor instead. `normalized=True` is modelled as the unit scale, and
  `Truncate`'s own behaviour (renormalising the density) is not modelled.
- Continuous.FormatLogisticForApi: the `float(...)` conversions are identities
  over `real`, since no floating point is modelled.
- Linear.GetTrueScaleLogistic: reads the normalised scale parameter from `s`
  (see above). It does not model what `normalized_dist.scale` holds on a
  `Logistic` whose `scale` field is a `Scale` object.
- ergo/platforms/predictit.py is not part of this model: it is a network
  client for the PredictIt API.
