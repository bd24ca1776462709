/** A continuous Metaculus question on a linear scale (`LinearQuestion`): its
    scale is read from the question's range, and a logistic (mixture) fitted on
    the normalised [0, 1] scale is mapped affinely onto the question's true
    scale. */
module Linear {
  import opened Wrappers
  import opened Distributions
  import opened Continuous

  /** The scale `LinearQuestion.__init__` sets from
      `possibilities["scale"]["min"]` and `["max"]`; each missing entry
      raises `KeyError`, and a "scale" entry that is a string cannot be
      indexed by a key. */
  function LinearQuestion(q: Question): (r: Result<Question>)
    ensures r.Ok? <==>
      && "scale" in q.possibilities
      && q.possibilities["scale"].Range?
      && "min" in q.possibilities["scale"].range
      && "max" in q.possibilities["scale"].range
    ensures r.Ok? ==>
      && r.value.scale.ScaleMin() == q.possibilities["scale"].range["min"]
      && r.value.scale.ScaleRange() == q.possibilities["scale"].range["max"] - q.possibilities["scale"].range["min"]
      && r.value.possibilities == q.possibilities
      && r.value.predictionTimeseries == q.predictionTimeseries
      && r.value.predictionHistogram == q.predictionHistogram
  {
    var questionRange :- Lookup(q.possibilities, "scale");
    match questionRange
    case Str(_) => Err(TypeError("string indices must be integers"))
    case Range(range) =>
      if "min" !in range then Err(KeyError("min"))
      else if "max" !in range then Err(KeyError("max"))
      else Ok(q.(scale := Scale(range["min"], range["max"])))
  }

  /** `get_true_scale_logistic`: the location is mapped by
      `loc * scale_range + scale_min` and the scale by `s * scale_range`;
      the result carries no scale or metadata. */
  function GetTrueScaleLogistic(q: Question, normalizedDist: Logistic): (r: Logistic)
    ensures r.scale.None? && r.metadata.None?
    // the ends of the normalised interval land on the ends of the range
    ensures normalizedDist.loc == 0.0 ==> r.loc == q.scale.low
    ensures normalizedDist.loc == 1.0 ==> r.loc == q.scale.high
    // on a range of positive width a positive scale stays positive
    ensures q.scale.ScaleRange() > 0.0 && normalizedDist.s > 0.0 ==> r.s > 0.0
    // and the normalised parameters can be read back
    ensures q.scale.ScaleRange() != 0.0 ==>
      && (r.loc - q.scale.ScaleMin()) / q.scale.ScaleRange() == normalizedDist.loc
      && r.s / q.scale.ScaleRange() == normalizedDist.s
    // a range of zero width collapses every logistic onto its one point
    ensures q.scale.ScaleRange() == 0.0 ==> r.loc == q.scale.ScaleMin() && r.s == 0.0
  {
    var scaleLoc := normalizedDist.loc * q.scale.ScaleRange() + q.scale.ScaleMin();
    var trueScale := normalizedDist.s * q.scale.ScaleRange();
    Logistic(scaleLoc, trueScale, None, None)
  }

  /** On a range of positive width the map keeps and reflects the order of
      locations: one location lies below another exactly when its true-scale
      image does. */
  lemma TrueScaleMonotone(q: Question, a: Logistic, b: Logistic)
    requires q.scale.ScaleRange() > 0.0
    ensures a.loc <= b.loc <==> GetTrueScaleLogistic(q, a).loc <= GetTrueScaleLogistic(q, b).loc
  {
    var w := q.scale.ScaleRange();
    var gap := GetTrueScaleLogistic(q, b).loc - GetTrueScaleLogistic(q, a).loc;
    assert gap == (b.loc - a.loc) * w;
    PositiveFactorKeepsSign(b.loc - a.loc, w);
  }

  /** Multiplying by a positive width keeps the sign of a difference. */
  lemma PositiveFactorKeepsSign(x: real, w: real)
    requires w > 0.0
    ensures x >= 0.0 <==> x * w >= 0.0
  {
    if x < 0.0 {
      assert (-x) * w > 0.0;
    }
  }

  /** `get_true_scale_mixture`: the same number of components in the same
      order, the i-th the converted i-th input, and the weights unchanged. */
  function GetTrueScaleMixture(q: Question, normalizedDist: Mixture<Logistic>): (r: Mixture<Logistic>)
    ensures |r.components| == |normalizedDist.components|
    ensures forall i :: 0 <= i < |r.components| ==>
      r.components[i] == GetTrueScaleLogistic(q, normalizedDist.components[i])
    ensures r.probs == normalizedDist.probs
    ensures q.scale.ScaleRange() > 0.0 && (forall i :: 0 <= i < |normalizedDist.components| ==> normalizedDist.components[i].s > 0.0)
      ==> forall i :: 0 <= i < |r.components| ==> r.components[i].s > 0.0
  {
    var cs := normalizedDist.components;
    var trueScaleLogistics := seq(|cs|, i requires 0 <= i < |cs| => GetTrueScaleLogistic(q, cs[i]));
    Mixture(trueScaleLogistics, normalizedDist.probs)
  }
}
