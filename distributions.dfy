/** The record shapes of ergo's distribution and scale types that the
    Metaculus question code reads and builds. Their densities, CDFs and
    normalisation maps are not part of this model; where the question code
    needs them they are passed in as functions. */
module Distributions {
  import opened Wrappers

  /** A question's range; `low`/`high` are its ends. The linear question code
      calls the lower end `scale_min` and the width `scale_range`. */
  datatype Scale = Scale(low: real, high: real) {
    function ScaleMin(): real { low }
    function ScaleRange(): real { high - low }
  }

  /** The probability mass the submission API places below and above the
      question range (the `{"low": .., "high": ..}` metadata). */
  datatype Metadata = Metadata(low: real, high: real)

  /** `dist.Logistic(loc, s, scale, metadata)`: `s` is the numeric scale
      parameter, `scale` the (optional) question scale it is expressed in. */
  datatype Logistic = Logistic(loc: real, s: real, scale: Option<Scale>, metadata: Option<Metadata>)

  /** A mixture component as the question code meets it: a bare logistic, or a
      logistic wrapped by `dist.Truncate` (which exposes it as `base_dist`). */
  datatype Component =
    | Plain(logistic: Logistic)
    | Truncate(baseDist: Logistic, floor: Option<real>, ceiling: Option<real>)

  /** `dist.LogisticMixture(components, probs)`. */
  datatype Mixture<C> = Mixture(components: seq<C>, probs: seq<real>)

  /** The scale that `normalized=True` denotes: the unit interval. */
  const UnitScale: Scale := Scale(0.0, 1.0)
}
