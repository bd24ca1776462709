/** The submission logic of a continuous Metaculus question
    (`ContinuousQuestion`): which sides of the range are open, the community's
    mass outside the range, clipping a fitted logistic (mixture) into what the
    API accepts, the community conditions a fit is scored against, and reading
    a submission back from its JSON form. The logistic CDF, the scale's
    normalisation maps, `PointDensity.from_pairs` and the API constants are
    collaborators passed in as parameters. */
module Continuous {
  import opened Wrappers
  import opened Distributions

  // ---------------------------------------------------------------------------
  // The question record
  // ---------------------------------------------------------------------------

  /** A value of the question's `possibilities` dictionary: a string (such as
      "tail" under "low" or "high") or a dictionary of numbers (the "scale"
      entry, with "min" and "max"). */
  datatype PossibilityValue = Str(str: string) | Range(range: map<string, real>)

  /** The `community_prediction` of one `prediction_timeseries` entry: the
      community's mass below the range (`low`) and its cumulative mass up to
      the top of the range (`high`). */
  datatype CommunityPrediction = CommunityPrediction(low: real, high: real)

  /** One row `v` of `prediction_histogram`; the code reads `v[0]` (the
      point) and `v[2]` (the community density there). */
  datatype HistogramRow = HistogramRow(x: real, own: real, community: real)

  /** The state of a continuous question the modelled code reads. */
  datatype Question = Question(
    possibilities: map<string, PossibilityValue>,
    predictionTimeseries: seq<CommunityPrediction>,
    predictionHistogram: seq<HistogramRow>,
    scale: Scale)

  /** The scale's point and density maps (`normalize_point`,
      `denormalize_point`, `denormalize_density`). */
  datatype ScaleMaps = ScaleMaps(
    normalizePoint: real -> real,
    denormalizePoint: real -> real,
    denormalizeDensity: real -> real)

  const Tail: PossibilityValue := Str("tail")

  /** `possibilities[key]`, or the `KeyError` it raises. */
  function Lookup(possibilities: map<string, PossibilityValue>, key: string): (r: Result<PossibilityValue>)
    ensures r.Ok? <==> key in possibilities
  {
    if key in possibilities then Ok(possibilities[key]) else Err(KeyError(key))
  }

  /** `possibilities.get(key)`. */
  function Get(possibilities: map<string, PossibilityValue>, key: string): Option<PossibilityValue>
  {
    if key in possibilities then Some(possibilities[key]) else None
  }

  // ---------------------------------------------------------------------------
  // Open sides and the community's mass outside the range
  // ---------------------------------------------------------------------------

  /** `side_open`: the entry is looked up, and a missing entry (the
      `KeyError` branch) counts as closed. */
  function SideOpen(q: Question, side: string): (r: bool)
    ensures r <==> side in q.possibilities && q.possibilities[side] == Tail
  {
    match Lookup(q.possibilities, side)
    case Ok(value) => value == Tail
    case Err(_) => false
  }

  /** `low_open`: mass may be placed below the range exactly when the
      question marks its "low" side as a "tail". */
  function LowOpen(q: Question): (r: bool)
    ensures r <==> "low" in q.possibilities && q.possibilities["low"] == Tail
  {
    SideOpen(q, "low")
  }

  /** `high_open`: mass may be placed above the range exactly when the
      question marks its "high" side as a "tail". */
  function HighOpen(q: Question): (r: bool)
    ensures r <==> "high" in q.possibilities && q.possibilities["high"] == Tail
  {
    SideOpen(q, "high")
  }

  /** `latest_community_percentiles`: absent while the timeseries is empty,
      otherwise the last entry's community prediction. */
  function LatestCommunityPercentiles(q: Question): (r: Option<CommunityPrediction>)
    ensures r.None? <==> |q.predictionTimeseries| == 0
    ensures r.Some? ==> r.value == Last(q.predictionTimeseries)
  {
    var ts := q.predictionTimeseries;
    if |ts| == 0 then None else Some(ts[|ts| - 1])
  }

  /** `p_below`: the latest community mass below the range. */
  function PBelow(q: Question): (r: Option<real>)
    ensures r.None? <==> |q.predictionTimeseries| == 0
    ensures r.Some? ==> r.value == Last(q.predictionTimeseries).low
  {
    match LatestCommunityPercentiles(q)
    case None => None
    case Some(percentiles) => Some(percentiles.low)
  }

  /** `p_above`: the latest community mass above the range. */
  function PAbove(q: Question): (r: Option<real>)
    ensures r.None? <==> |q.predictionTimeseries| == 0
    ensures r.Some? ==> r.value == 1.0 - Last(q.predictionTimeseries).high
  {
    match LatestCommunityPercentiles(q)
    case None => None
    case Some(percentiles) => Some(1.0 - percentiles.high)
  }

  /** `p_outside`: the community mass outside the range, i.e. one minus the
      mass between the two percentiles; absent exactly when they are. */
  function POutside(q: Question): (r: Option<real>)
    ensures r.None? <==> |q.predictionTimeseries| == 0
    ensures r.Some? ==> r.value == 1.0 - (Last(q.predictionTimeseries).high - Last(q.predictionTimeseries).low)
  {
    var below, above := PBelow(q), PAbove(q);
    if below.None? || above.None? then None else Some(below.value + above.value)
  }

  function Last<T>(s: seq<T>): T
    requires |s| > 0
  {
    s[|s| - 1]
  }

  // ---------------------------------------------------------------------------
  // Preparing a fitted logistic (mixture) for the API
  // ---------------------------------------------------------------------------

  /** The bounds the API puts on a submitted component (the module constants
      `max_loc`, `min_scale`, `max_scale`, `min_open_low`, `max_open_low`,
      `min_open_high`, `max_open_high`). */
  datatype ApiLimits = ApiLimits(
    maxLoc: real,
    minScale: real,
    maxScale: real,
    minOpenLow: real,
    maxOpenLow: real,
    minOpenHigh: real,
    maxOpenHigh: real)

  /** The bounds `prepare_logistic_mixture` puts on mixture weights. */
  const MinProb: real := 0.01
  const MaxProb: real := 0.99

  function Min(a: real, b: real): real
  {
    if b < a then b else a
  }

  /** What clipping `a` into [lo, hi] yields, case by case: `a` itself when it
      lies in the interval, the violated bound when it lies outside, and `hi`
      when the interval is empty. */
  ghost predicate ClippedTo(r: real, a: real, lo: real, hi: real)
  {
    && (lo <= a <= hi ==> r == a)
    && (a < lo <= hi ==> r == lo)
    && (a > hi ==> r == hi)
    && (lo > hi ==> r == hi)
  }

  /** The cases of `ClippedTo` cover every input, so they fix the result. */
  lemma ClippedToUnique(r1: real, r2: real, a: real, lo: real, hi: real)
    requires ClippedTo(r1, a, lo, hi) && ClippedTo(r2, a, lo, hi)
    ensures r1 == r2
  {
    if lo <= hi {
      if a < lo {
        assert r1 == lo == r2;
      } else if a <= hi {
        assert r1 == a == r2;
      } else {
        assert r1 == hi == r2;
      }
    }
  }

  /** `numpy.clip(a, lo, hi)`, which is `min(max(a, lo), hi)`: the value
      `ClippedTo` describes case by case. */
  function Clip(a: real, lo: real, hi: real): (r: real)
    ensures ClippedTo(r, a, lo, hi)
  {
    var raised := if a < lo then lo else a;
    if raised > hi then hi else raised
  }

  /** The logistic `prepare_logistic` works on: a truncated one is unwrapped
      to its `base_dist`. */
  function BaseLogistic(d: Component): Logistic
  {
    match d
    case Plain(l) => l
    case Truncate(b, _, _) => b
  }

  /** `prepare_logistic`. A non-positive scale raises. Otherwise the location
      is capped at `max_loc`, the scale clipped into [min_scale, max_scale],
      and the mass below and above the range is 0 and 1 on a closed side and
      the clipped CDF at 0 and 1 on an open side; the result is on the unit
      scale and carries that mass as metadata. */
  function PrepareLogistic(q: Question, limits: ApiLimits, cdf: (Logistic, real) -> real, d: Component): (r: Result<Logistic>)
    ensures r.Err? <==> BaseLogistic(d).s <= 0.0
    ensures r.Err? ==> r.error.ValueError?
    ensures r.Ok? ==> PreparedFor(q, limits, cdf, BaseLogistic(d), r.value)
  {
    var base := BaseLogistic(d);
    if base.s <= 0.0 then
      Err(ValueError("logistic_params.scale must be greater than 0"))
    else
      var clippedLoc := Min(base.loc, limits.maxLoc);
      var clippedScale := Clip(base.s, limits.minScale, limits.maxScale);
      var low := if LowOpen(q) then Clip(cdf(base, 0.0), limits.minOpenLow, limits.maxOpenLow) else 0.0;
      var high := if HighOpen(q) then Clip(cdf(base, 1.0), limits.minOpenHigh + low, limits.maxOpenHigh) else 1.0;
      Ok(Logistic(clippedLoc, clippedScale, Some(UnitScale), Some(Metadata(low, high))))
  }

  /** What the API demands of a prepared component, given the logistic it was
      prepared from. */
  ghost predicate PreparedFor(q: Question, limits: ApiLimits, cdf: (Logistic, real) -> real, base: Logistic, r: Logistic)
  {
    // the location is capped at max_loc: kept below it, max_loc above it
    && (base.loc <= limits.maxLoc ==> r.loc == base.loc)
    && (base.loc > limits.maxLoc ==> r.loc == limits.maxLoc)
    // the scale is clipped into [min_scale, max_scale]
    && ClippedTo(r.s, base.s, limits.minScale, limits.maxScale)
    // unit scale, with the mass outside the range as metadata
    && r.scale == Some(UnitScale)
    && r.metadata.Some?
    // below the range: none on a closed side, the clipped CDF at 0 on an open one
    && (!LowOpen(q) ==> r.metadata.value.low == 0.0)
    && (LowOpen(q) ==> ClippedTo(r.metadata.value.low, cdf(base, 0.0), limits.minOpenLow, limits.maxOpenLow))
    // up to the top of the range: all on a closed side; on an open one the CDF
    // at 1, clipped so that at least min_open_high lies above the low mark
    && (!HighOpen(q) ==> r.metadata.value.high == 1.0)
    && (HighOpen(q) ==> ClippedTo(r.metadata.value.high, cdf(base, 1.0),
                                  r.metadata.value.low + limits.minOpenHigh, limits.maxOpenHigh))
  }

  /** The prepared components, in order; the first non-positive scale raises. */
  function PrepareComponents(q: Question, limits: ApiLimits, cdf: (Logistic, real) -> real, cs: seq<Component>): (r: Result<seq<Logistic>>)
    ensures r.Ok? <==> forall i :: 0 <= i < |cs| ==> BaseLogistic(cs[i]).s > 0.0
    ensures r.Err? ==> r.error.ValueError?
    ensures r.Ok? ==> |r.value| == |cs|
    ensures r.Ok? ==> forall i :: 0 <= i < |cs| ==> Ok(r.value[i]) == PrepareLogistic(q, limits, cdf, cs[i])
  {
    if |cs| == 0 then Ok([])
    else
      var first :- PrepareLogistic(q, limits, cdf, cs[0]);
      var rest :- PrepareComponents(q, limits, cdf, cs[1..]);
      Ok([first] + rest)
  }

  /** `numpy.clip` applied to every weight. */
  function ClipAll(ps: seq<real>, lo: real, hi: real): seq<real>
  {
    seq(|ps|, i requires 0 <= i < |ps| => Clip(ps[i], lo, hi))
  }

  /** `prepare_logistic_mixture`: every component is prepared (in order, the
      count kept) and every weight is clipped into [0.01, 0.99]. */
  function PrepareLogisticMixture(q: Question, limits: ApiLimits, cdf: (Logistic, real) -> real, m: Mixture<Component>)
    : (r: Result<Mixture<Logistic>>)
    ensures r.Ok? <==> forall i :: 0 <= i < |m.components| ==> BaseLogistic(m.components[i]).s > 0.0
    ensures r.Ok? ==>
      && |r.value.components| == |m.components|
      && (forall i :: 0 <= i < |m.components| ==> Ok(r.value.components[i]) == PrepareLogistic(q, limits, cdf, m.components[i]))
      && |r.value.probs| == |m.probs|
      && (forall i :: 0 <= i < |m.probs| ==> ClippedTo(r.value.probs[i], m.probs[i], MinProb, MaxProb))
  {
    var components :- PrepareComponents(q, limits, cdf, m.components);
    Ok(Mixture(components, ClipAll(m.probs, MinProb, MaxProb)))
  }

  // ---------------------------------------------------------------------------
  // Community conditions
  // ---------------------------------------------------------------------------

  /** One `{"x": .., "density": ..}` pair of `community_pairs`. */
  datatype Pair = Pair(x: real, density: real)

  /** `community_pairs`: one pair per histogram row, in order, from the point
      and the community density; both stay normalised when `normalized`,
      only the point is denormalised when `denormXsOnly`, both otherwise. */
  function CommunityPairs(q: Question, maps: ScaleMaps, normalized: bool, denormXsOnly: bool): seq<Pair>
  {
    var h := q.predictionHistogram;
    if normalized then
      seq(|h|, i requires 0 <= i < |h| => Pair(h[i].x, h[i].community))
    else if denormXsOnly then
      seq(|h|, i requires 0 <= i < |h| => Pair(maps.denormalizePoint(h[i].x), h[i].community))
    else
      seq(|h|, i requires 0 <= i < |h| => Pair(maps.denormalizePoint(h[i].x), maps.denormalizeDensity(h[i].community)))
  }

  /** The conditions `community_conditions` builds, over a density type `D`. */
  datatype Condition<D> =
    | CrossEntropyCondition(dist: D, weight: real)
    | IntervalCondition(p: Option<real>, min: Option<real>, max: Option<real>, weight: real)

  /** The default weights of `community_conditions`. */
  const DefaultCrossEntropyWeight: real := 0.1
  const DefaultIntervalWeight: real := 10000.0

  /** `community_conditions`: a cross-entropy condition against the community
      histogram, then an interval condition for each open side asking for the
      community's mass beyond that end of the range. */
  method CommunityConditions<D>(
    q: Question, maps: ScaleMaps, fromPairs: (seq<Pair>, Scale) -> D, crossentropyWeight: real, intervalWeight: real)
    returns (conditions: seq<Condition<D>>)
    ensures |conditions| == 1 + (if LowOpen(q) then 1 else 0) + (if HighOpen(q) then 1 else 0)
    ensures conditions[0] == CrossEntropyCondition(fromPairs(CommunityPairs(q, maps, true, false), q.scale), crossentropyWeight)
    ensures LowOpen(q) ==> conditions[1] == IntervalCondition(PBelow(q), None, Some(q.scale.low), intervalWeight)
    ensures HighOpen(q) ==> conditions[|conditions| - 1] == IntervalCondition(PAbove(q), Some(q.scale.high), None, intervalWeight)
    ensures forall i :: 1 <= i < |conditions| ==> conditions[i].IntervalCondition? && conditions[i].weight == intervalWeight
  {
    var pairs := CommunityPairs(q, maps, true, false);
    var pointDensityDist := fromPairs(pairs, q.scale);
    var condition := CrossEntropyCondition(pointDensityDist, crossentropyWeight);
    conditions := [condition];
    if LowOpen(q) {
      conditions := conditions + [IntervalCondition(PBelow(q), None, Some(q.scale.low), intervalWeight)];
    }
    if HighOpen(q) {
      conditions := conditions + [IntervalCondition(PAbove(q), Some(q.scale.high), None, intervalWeight)];
    }
  }

  /** `community_conditions()` called with its default weights. */
  method DefaultCommunityConditions<D>(q: Question, maps: ScaleMaps, fromPairs: (seq<Pair>, Scale) -> D)
    returns (conditions: seq<Condition<D>>)
    ensures |conditions| == 1 + (if LowOpen(q) then 1 else 0) + (if HighOpen(q) then 1 else 0)
    ensures conditions[0] == CrossEntropyCondition(fromPairs(CommunityPairs(q, maps, true, false), q.scale), 0.1)
    ensures LowOpen(q) ==> conditions[1] == IntervalCondition(PBelow(q), None, Some(q.scale.low), 10000.0)
    ensures HighOpen(q) ==> conditions[|conditions| - 1] == IntervalCondition(PAbove(q), Some(q.scale.high), None, 10000.0)
    ensures forall i :: 1 <= i < |conditions| ==> conditions[i].IntervalCondition? && conditions[i].weight == 10000.0
  {
    conditions := CommunityConditions(q, maps, fromPairs, DefaultCrossEntropyWeight, DefaultIntervalWeight);
  }

  // ---------------------------------------------------------------------------
  // Bounds and reading a submission from JSON
  // ---------------------------------------------------------------------------

  /** `Bounds(floor, ceiling)`; an absent bound is `None`. */
  datatype Bounds = Bounds(floor: Option<real>, ceiling: Option<real>)

  /** The true-scale bounds `get_bounds` returns: a side's end of the range
      unless `possibilities.get(side)` is "tail". So a bound is absent exactly
      when that side is open. */
  function TrueScaleBounds(q: Question): (b: Bounds)
    ensures b.floor.None? <==> LowOpen(q)
    ensures b.ceiling.None? <==> HighOpen(q)
    ensures b.floor.Some? ==> b.floor.value == q.scale.low
    ensures b.ceiling.Some? ==> b.ceiling.value == q.scale.high
  {
    Bounds(
      if Get(q.possibilities, "low") != Some(Tail) then Some(q.scale.low) else None,
      if Get(q.possibilities, "high") != Some(Tail) then Some(q.scale.high) else None)
  }

  /** `get_bounds`, as the source writes it. */
  method GetBounds(q: Question) returns (b: Bounds)
    ensures b == TrueScaleBounds(q)
  {
    var floor: Option<real>, ceiling: Option<real> := None, None;
    var possibilities := q.possibilities;
    if Get(possibilities, "low") != Some(Tail) {
      floor := Some(q.scale.low);
    }
    if Get(possibilities, "high") != Some(Tail) {
      ceiling := Some(q.scale.high);
    }
    b := Bounds(floor, ceiling);
  }

  /** A JSON value of a submission entry. */
  datatype JsonValue = JStr(str: string) | JNum(num: real)

  /** One JSON object: `{"kind": "logistic", "x0": .., "s": .., "w": .., ..}`. */
  type JsonObject = map<string, JsonValue>

  /** The number under `key`; a missing key raises `KeyError`, and a
      non-number is reported as a `TypeError`. */
  function Number(j: JsonObject, key: string): (r: Result<real>)
    ensures r.Ok? <==> key in j && j[key].JNum?
    ensures r.Ok? ==> r.value == j[key].num
  {
    if key !in j then Err(KeyError(key))
    else match j[key]
      case JNum(x) => Ok(x)
      case JStr(_) => Err(TypeError(key + " is not a number"))
  }

  /** True when the entry carries numbers under all the given keys. */
  predicate HasNumbers(j: JsonObject, keys: seq<string>)
  {
    forall k :: k in keys ==> k in j && j[k].JNum?
  }

  /** What `get_logistic_from_json` returns: the entry's `x0` and `s` as a
      normalised logistic, truncated at the normalised end of each closed
      side (and not at an open one). */
  function LogisticFromJson(q: Question, maps: ScaleMaps, j: JsonObject): (r: Result<Component>)
    ensures r.Ok? <==> HasNumbers(j, ["x0", "s"])
    ensures r.Ok? ==>
      && r.value.Truncate?
      && r.value.baseDist == Logistic(j["x0"].num, j["s"].num, Some(UnitScale), None)
      && (r.value.floor.None? <==> LowOpen(q))
      && (r.value.ceiling.None? <==> HighOpen(q))
      && (r.value.floor.Some? ==> r.value.floor.value == maps.normalizePoint(q.scale.low))
      && (r.value.ceiling.Some? ==> r.value.ceiling.value == maps.normalizePoint(q.scale.high))
  {
    var bounds := TrueScaleBounds(q);
    var floor := if bounds.floor.Some? then Some(maps.normalizePoint(bounds.floor.value)) else None;
    var ceiling := if bounds.ceiling.Some? then Some(maps.normalizePoint(bounds.ceiling.value)) else None;
    var x0 :- Number(j, "x0");
    var s :- Number(j, "s");
    Ok(Truncate(Logistic(x0, s, Some(UnitScale), None), floor, ceiling))
  }

  /** `get_logistic_from_json`, as the source writes it: the normalised
      bounds are collected into a dictionary that becomes the keyword
      arguments of `Truncate`. */
  method GetLogisticFromJson(q: Question, maps: ScaleMaps, j: JsonObject) returns (r: Result<Component>)
    ensures r == LogisticFromJson(q, maps, j)
  {
    var bounds := GetBounds(q);
    var normedBounds: map<string, real> := map[];
    if bounds.floor.Some? {
      normedBounds := normedBounds["floor" := maps.normalizePoint(bounds.floor.value)];
    }
    if bounds.ceiling.Some? {
      normedBounds := normedBounds["ceiling" := maps.normalizePoint(bounds.ceiling.value)];
    }
    var x0 := Number(j, "x0");
    if x0.Err? {
      return Err(x0.error);
    }
    var s := Number(j, "s");
    if s.Err? {
      return Err(s.error);
    }
    var floor := if "floor" in normedBounds then Some(normedBounds["floor"]) else None;
    var ceiling := if "ceiling" in normedBounds then Some(normedBounds["ceiling"]) else None;
    r := Ok(Truncate(Logistic(x0.value, s.value, Some(UnitScale), None), floor, ceiling));
  }

  /** The components comprehension of `get_submission_from_json`. */
  function ComponentsFromJson(q: Question, maps: ScaleMaps, entries: seq<JsonObject>): (r: Result<seq<Component>>)
    ensures r.Ok? <==> forall i :: 0 <= i < |entries| ==> HasNumbers(entries[i], ["x0", "s"])
    ensures r.Ok? ==> |r.value| == |entries|
    ensures r.Ok? ==> forall i :: 0 <= i < |entries| ==> Ok(r.value[i]) == LogisticFromJson(q, maps, entries[i])
  {
    if |entries| == 0 then Ok([])
    else
      var first :- LogisticFromJson(q, maps, entries[0]);
      var rest :- ComponentsFromJson(q, maps, entries[1..]);
      Ok([first] + rest)
  }

  /** The weights comprehension of `get_submission_from_json`. */
  function WeightsFromJson(entries: seq<JsonObject>): (r: Result<seq<real>>)
    ensures r.Ok? <==> forall i :: 0 <= i < |entries| ==> HasNumbers(entries[i], ["w"])
    ensures r.Ok? ==> |r.value| == |entries|
    ensures r.Ok? ==> forall i :: 0 <= i < |entries| ==> r.value[i] == entries[i]["w"].num
  {
    if |entries| == 0 then Ok([])
    else
      var first :- Number(entries[0], "w");
      var rest :- WeightsFromJson(entries[1..]);
      Ok([first] + rest)
  }

  /** `get_submission_from_json`: one component per entry, in order, and the
      entries' `w` values as the weights. */
  function GetSubmissionFromJson(q: Question, maps: ScaleMaps, entries: seq<JsonObject>): (r: Result<Mixture<Component>>)
    ensures r.Ok? <==> forall i :: 0 <= i < |entries| ==> HasNumbers(entries[i], ["x0", "s", "w"])
    ensures r.Ok? ==>
      && |r.value.components| == |entries| == |r.value.probs|
      && (forall i :: 0 <= i < |entries| ==> Ok(r.value.components[i]) == LogisticFromJson(q, maps, entries[i]))
      && (forall i :: 0 <= i < |entries| ==> r.value.probs[i] == entries[i]["w"].num)
  {
    var components :- ComponentsFromJson(q, maps, entries);
    var probs :- WeightsFromJson(entries);
    Ok(Mixture(components, probs))
  }

  // ---------------------------------------------------------------------------
  // Formatting for the API
  // ---------------------------------------------------------------------------

  /** `format_logistic_for_api`: a submission needs a scale; the entry holds
      the location, scale, weight and the metadata's mass outside the range. */
  function FormatLogisticForApi(submission: Logistic, weight: real): (r: Result<JsonObject>)
    ensures r.Ok? <==> submission.scale.Some? && submission.metadata.Some?
    ensures submission.scale.None? ==> r == Err(ValueError("Submission distribution needs a scale"))
    ensures submission.scale.Some? && submission.metadata.None? ==> r.Err? && r.error.TypeError?
    ensures r.Ok? ==> HasNumbers(r.value, ["x0", "s", "w", "low", "high"])
    ensures r.Ok? ==>
      && "kind" in r.value && r.value["kind"] == JStr("logistic")
      && r.value["x0"] == JNum(submission.loc)
      && r.value["s"] == JNum(submission.s)
      && r.value["w"] == JNum(weight)
      && r.value["low"] == JNum(submission.metadata.value.low)
      && r.value["high"] == JNum(submission.metadata.value.high)
  {
    if submission.scale.None? then
      Err(ValueError("Submission distribution needs a scale"))
    else if submission.metadata.None? then
      Err(TypeError("'NoneType' object is not subscriptable"))
    else
      Ok(map[
        "kind" := JStr("logistic"),
        "x0" := JNum(submission.loc),
        "s" := JNum(submission.s),
        "w" := JNum(weight),
        "low" := JNum(submission.metadata.value.low),
        "high" := JNum(submission.metadata.value.high)])
  }

  /** The `"d"` list `submit` sends: component i formatted with weight
      `probs[i]` (an `IndexError` when the weights run out first). */
  function FormatPrediction(m: Mixture<Logistic>): (r: Result<seq<JsonObject>>)
    ensures r.Ok? ==> |r.value| == |m.components|
    ensures r.Ok? ==> |m.components| <= |m.probs|
    ensures r.Ok? ==> forall i :: 0 <= i < |m.components| ==> Ok(r.value[i]) == FormatLogisticForApi(m.components[i], m.probs[i])
    decreases |m.components|
  {
    if |m.components| == 0 then Ok([])
    else if |m.probs| == 0 then Err(IndexError("list index out of range"))
    else
      var first :- FormatLogisticForApi(m.components[0], m.probs[0]);
      var tail := Mixture(m.components[1..], m.probs[1..]);
      var rest :- FormatPrediction(tail);
      assert forall i :: 1 <= i < |m.components| ==> m.components[i] == tail.components[i - 1];
      assert forall i :: 1 <= i < |m.probs| ==> m.probs[i] == tail.probs[i - 1];
      Ok([first] + rest)
  }

  /** Formatting succeeds once every component has a scale and metadata and
      there is a weight for each. */
  lemma {:induction false} FormatPredictionOk(m: Mixture<Logistic>)
    requires |m.components| <= |m.probs|
    requires forall i :: 0 <= i < |m.components| ==> m.components[i].scale.Some? && m.components[i].metadata.Some?
    ensures FormatPrediction(m).Ok?
    decreases |m.components|
  {
    if |m.components| > 0 {
      var tail := Mixture(m.components[1..], m.probs[1..]);
      assert forall i :: 0 <= i < |tail.components| ==> tail.components[i] == m.components[i + 1];
      FormatPredictionOk(tail);
    }
  }

  /** Reading back what was formatted for the API recovers each component's
      location and scale (as a normalised logistic, truncated at the closed
      sides) and the weights. */
  lemma SubmissionRoundTrip(q: Question, maps: ScaleMaps, m: Mixture<Logistic>)
    requires |m.components| <= |m.probs|
    requires forall i :: 0 <= i < |m.components| ==> m.components[i].scale.Some? && m.components[i].metadata.Some?
    ensures FormatPrediction(m).Ok?
    ensures var back := GetSubmissionFromJson(q, maps, FormatPrediction(m).value);
      && back.Ok?
      && |back.value.components| == |m.components|
      && back.value.probs == m.probs[..|m.components|]
      && forall i :: 0 <= i < |m.components| ==>
           back.value.components[i].baseDist == Logistic(m.components[i].loc, m.components[i].s, Some(UnitScale), None)
  {
    FormatPredictionOk(m);
    var d := FormatPrediction(m).value;
    assert forall i :: 0 <= i < |m.components| ==> d[i]["w"] == JNum(m.probs[i]);
    assert forall i :: 0 <= i < |d| ==> HasNumbers(d[i], ["x0", "s", "w"]);
  }

  /** A prepared mixture can always be formatted for the API once there is a
      weight for every component. */
  lemma PreparedMixtureFormats(q: Question, limits: ApiLimits, cdf: (Logistic, real) -> real, m: Mixture<Component>)
    requires PrepareLogisticMixture(q, limits, cdf, m).Ok?
    requires |m.components| <= |m.probs|
    ensures FormatPrediction(PrepareLogisticMixture(q, limits, cdf, m).value).Ok?
  {
    var p := PrepareLogisticMixture(q, limits, cdf, m).value;
    assert forall i :: 0 <= i < |p.components| ==> Ok(p.components[i]) == PrepareLogistic(q, limits, cdf, m.components[i]);
    FormatPredictionOk(p);
  }
}
