/** The loss-composition engine and the likelihood and distance helpers of
    `ergo/static.py`, over real numbers. The distribution class, the condition
    classes and the transcendental numerics are collaborators whose
    definitions are not part of this model: they are passed in as functions. */
module StaticLoss {
  import opened Wrappers

  // ---------------------------------------------------------------------------
  // Sums and zips
  // ---------------------------------------------------------------------------

  /** The total of a list, accumulated left to right from 0.0 as a
      `total += x` loop does (the last element is added last). */
  function Sum(xs: seq<real>): real
  {
    if |xs| == 0 then 0.0 else Sum(xs[..|xs| - 1]) + xs[|xs| - 1]
  }

  /** `f` applied to every element, in order (`vmap`, or a comprehension). */
  function MapReal<X>(f: X -> real, s: seq<X>): seq<real>
  {
    seq(|s|, i requires 0 <= i < |s| => f(s[i]))
  }

  lemma {:induction false} SumConcat(a: seq<real>, b: seq<real>)
    ensures Sum(a + b) == Sum(a) + Sum(b)
  {
    if |b| == 0 {
      assert a + b == a;
    } else {
      assert (a + b)[..|a + b| - 1] == a + b[..|b| - 1];
      SumConcat(a, b[..|b| - 1]);
    }
  }

  /** Scaling every term scales the total: the sum distributes over `* c`. */
  lemma {:induction false} SumScaled(xs: seq<real>, ys: seq<real>, c: real)
    requires |ys| == |xs|
    requires forall i :: 0 <= i < |xs| ==> ys[i] == xs[i] * c
    ensures Sum(ys) == Sum(xs) * c
  {
    if |xs| > 0 {
      SumScaled(xs[..|xs| - 1], ys[..|ys| - 1], c);
    }
  }

  /** Taking one term out of a list takes its value out of the total. */
  lemma SumMapRemove<X>(f: X -> real, s: seq<X>, j: nat)
    requires j < |s|
    ensures Sum(MapReal(f, s)) == Sum(MapReal(f, s[..j] + s[j + 1..])) + f(s[j])
  {
    var left, right := MapReal(f, s[..j]), MapReal(f, s[j + 1..]);
    assert MapReal(f, s) == left + [f(s[j])] + right;
    assert MapReal(f, s[..j] + s[j + 1..]) == left + right;
    SumConcat(left + [f(s[j])], right);
    SumConcat(left, [f(s[j])]);
    SumConcat(left, right);
  }

  /** Reordering the terms does not change the total. */
  lemma {:induction false} SumPermutation<X>(f: X -> real, a: seq<X>, b: seq<X>)
    requires multiset(a) == multiset(b)
    ensures Sum(MapReal(f, a)) == Sum(MapReal(f, b))
  {
    if |a| == 0 {
      assert |multiset(b)| == 0;
    } else {
      var n := |a| - 1;
      var x := a[n];
      assert a == a[..n] + [x];
      assert x in multiset(b);
      var j :| 0 <= j < |b| && b[j] == x;
      var rest := b[..j] + b[j + 1..];
      assert b == b[..j] + [x] + b[j + 1..];
      assert multiset(rest) == multiset(b) - multiset{x};
      assert multiset(a[..n]) == multiset(a) - multiset{x};
      SumPermutation(f, a[..n], rest);
      SumMapRemove(f, a, n);
      assert a[..n] + a[n + 1..] == a[..n];
      SumMapRemove(f, b, j);
    }
  }

  /** Python's `zip`: pairs the two lists index by index and stops at the
      end of the shorter one. */
  function Zip<K, P>(ks: seq<K>, ps: seq<P>): (z: seq<(K, P)>)
    ensures |z| == if |ks| <= |ps| then |ks| else |ps|
    ensures forall i :: 0 <= i < |z| ==> z[i] == (ks[i], ps[i])
  {
    if |ks| == 0 || |ps| == 0 then [] else [(ks[0], ps[0])] + Zip(ks[1..], ps[1..])
  }

  // ---------------------------------------------------------------------------
  // Loss composition: fused and decomposed strategies
  // ---------------------------------------------------------------------------

  /** The collaborators the loss engine calls: `dist_class.from_params` (with
      the distribution class fixed), `cond_class[0].structure` and
      `condition.loss`. `F` is the fixed-parameter type, `O` the optimised
      parameters, `D` distributions, `K` condition classes, `P` condition
      parameters, `C` conditions. */
  datatype Engine<-F, -O, !D, -K, -P, !C> = Engine(
    fromParams: (F, O) -> D,
    structure: (K, P) -> C,
    loss: (C, D) -> real)

  /** The loss, against `dist`, of the condition rebuilt from one
      (class, parameters) pair. */
  function LossOf<F, O, D, K, P, C>(e: Engine<F, O, D, K, P, C>, dist: D): ((K, P)) -> real
  {
    (kp: (K, P)) => e.loss(e.structure(kp.0, kp.1), dist)
  }

  /** What `jitted_condition_loss` returns: one distribution is built from the
      fixed and optimised parameters, each condition of
      `zip(cond_classes, cond_params)` is rebuilt and scored against it in list
      order, and the total is multiplied by 100. */
  function FusedLoss<F, O, D, K, P, C>(e: Engine<F, O, D, K, P, C>, fixed: F, opt: O, ks: seq<K>, ps: seq<P>): real
  {
    Sum(MapReal(LossOf(e, e.fromParams(fixed, opt)), Zip(ks, ps))) * 100.0
  }

  /** `jitted_condition_loss`, as the loop the source runs. */
  method JittedConditionLoss<F, O, D, K, P, C>(e: Engine<F, O, D, K, P, C>, fixed: F, opt: O, ks: seq<K>, ps: seq<P>)
    returns (total: real)
    ensures total == FusedLoss(e, fixed, opt, ks, ps)
    ensures |ks| == 0 || |ps| == 0 ==> total == 0.0
  {
    var dist := e.fromParams(fixed, opt);
    var pairs := Zip(ks, ps);
    ghost var terms := MapReal(LossOf(e, dist), pairs);
    var totalLoss := 0.0;
    for i := 0 to |pairs|
      invariant totalLoss == Sum(terms[..i])
    {
      var condition := e.structure(pairs[i].0, pairs[i].1);
      totalLoss := totalLoss + e.loss(condition, dist);
      assert terms[..i + 1][..i] == terms[..i];
    }
    assert terms[..|pairs|] == terms;
    total := totalLoss * 100.0;
  }

  /** `single_condition_loss`: one condition's loss, scaled by 100. */
  function SingleConditionLoss<F, O, D, K, P, C>(e: Engine<F, O, D, K, P, C>, dist: D, k: K, p: P): real
  {
    e.loss(e.structure(k, p), dist) * 100.0
  }

  /** The per-condition scaled losses that `condition_loss` adds up. */
  function DecomposedTerms<F, O, D, K, P, C>(e: Engine<F, O, D, K, P, C>, dist: D, pairs: seq<(K, P)>): seq<real>
  {
    seq(|pairs|, i requires 0 <= i < |pairs| => SingleConditionLoss(e, dist, pairs[i].0, pairs[i].1))
  }

  /** What `condition_loss` returns: the sum, with no further scaling, of the
      per-condition losses against the distribution `get_dist` builds. */
  function DecomposedLoss<F, O, D, K, P, C>(e: Engine<F, O, D, K, P, C>, fixed: F, opt: O, ks: seq<K>, ps: seq<P>): real
  {
    Sum(DecomposedTerms(e, e.fromParams(fixed, opt), Zip(ks, ps)))
  }

  /** The two strategies agree: scaling each term by 100 and summing equals
      summing and scaling the total by 100. */
  lemma FusedEqualsDecomposed<F, O, D, K, P, C>(e: Engine<F, O, D, K, P, C>, fixed: F, opt: O, ks: seq<K>, ps: seq<P>)
    ensures DecomposedLoss(e, fixed, opt, ks, ps) == FusedLoss(e, fixed, opt, ks, ps)
  {
    var dist := e.fromParams(fixed, opt);
    var pairs := Zip(ks, ps);
    SumScaled(MapReal(LossOf(e, dist), pairs), DecomposedTerms(e, dist, pairs), 100.0);
  }

  /** One condition scored on its own is the fused loss of the one-condition
      list: `single_condition_loss` applies the same factor of 100. */
  lemma SingleConditionLossIsFusedOfOne<F, O, D, K, P, C>(e: Engine<F, O, D, K, P, C>, fixed: F, opt: O, k: K, p: P)
    ensures SingleConditionLoss(e, e.fromParams(fixed, opt), k, p) == FusedLoss(e, fixed, opt, [k], [p])
  {
    var terms := MapReal(LossOf(e, e.fromParams(fixed, opt)), Zip([k], [p]));
    assert terms == [e.loss(e.structure(k, p), e.fromParams(fixed, opt))];
    assert Sum(terms) == Sum(terms[..0]) + terms[0];
  }

  /** `condition_loss`, as the loop the source runs; its total is the fused
      strategy's total. */
  method ConditionLoss<F, O, D, K, P, C>(e: Engine<F, O, D, K, P, C>, fixed: F, opt: O, ks: seq<K>, ps: seq<P>)
    returns (total: real)
    ensures total == DecomposedLoss(e, fixed, opt, ks, ps)
    ensures total == FusedLoss(e, fixed, opt, ks, ps)
    ensures |ks| == 0 || |ps| == 0 ==> total == 0.0
  {
    var totalLoss := 0.0;
    var dist := e.fromParams(fixed, opt);
    var pairs := Zip(ks, ps);
    ghost var terms := DecomposedTerms(e, dist, pairs);
    for i := 0 to |pairs|
      invariant totalLoss == Sum(terms[..i])
    {
      totalLoss := totalLoss + SingleConditionLoss(e, dist, pairs[i].0, pairs[i].1);
      assert terms[..i + 1][..i] == terms[..i];
    }
    assert terms[..|pairs|] == terms;
    total := totalLoss;
    FusedEqualsDecomposed(e, fixed, opt, ks, ps);
  }

  /** The order of the conditions does not affect the fused (and hence the
      decomposed) total: any rearrangement of the (class, parameters) pairs
      gives the same loss. */
  lemma FusedLossOrderIndependent<F, O, D, K, P, C>(
    e: Engine<F, O, D, K, P, C>, fixed: F, opt: O, ks: seq<K>, ps: seq<P>, ks': seq<K>, ps': seq<P>)
    requires multiset(Zip(ks, ps)) == multiset(Zip(ks', ps'))
    ensures FusedLoss(e, fixed, opt, ks, ps) == FusedLoss(e, fixed, opt, ks', ps')
    ensures DecomposedLoss(e, fixed, opt, ks, ps) == DecomposedLoss(e, fixed, opt, ks', ps')
  {
    SumPermutation(LossOf(e, e.fromParams(fixed, opt)), Zip(ks, ps), Zip(ks', ps'));
    FusedEqualsDecomposed(e, fixed, opt, ks, ps);
    FusedEqualsDecomposed(e, fixed, opt, ks', ps');
  }

  /** What `condition_loss_grad` returns: the sum of the per-condition
      contributions `single_condition_loss_grad(dist, cond_class, cond_param)`
      (supplied as `lossGrad`), one per pair of the zip. */
  function DecomposedGrad<F, O, D, K, P>(fromParams: (F, O) -> D, lossGrad: (D, K, P) -> real, fixed: F, opt: O, ks: seq<K>, ps: seq<P>): real
  {
    var dist := fromParams(fixed, opt);
    Sum(MapReal((kp: (K, P)) => lossGrad(dist, kp.0, kp.1), Zip(ks, ps)))
  }

  /** `condition_loss_grad`, as the loop the source runs. */
  method ConditionLossGrad<F, O, D, K, P>(fromParams: (F, O) -> D, lossGrad: (D, K, P) -> real, fixed: F, opt: O, ks: seq<K>, ps: seq<P>)
    returns (totalGrad: real)
    ensures totalGrad == DecomposedGrad(fromParams, lossGrad, fixed, opt, ks, ps)
    ensures |ks| == 0 || |ps| == 0 ==> totalGrad == 0.0
  {
    var total := 0.0;
    var dist := fromParams(fixed, opt);
    var pairs := Zip(ks, ps);
    ghost var terms := MapReal((kp: (K, P)) => lossGrad(dist, kp.0, kp.1), pairs);
    for i := 0 to |pairs|
      invariant total == Sum(terms[..i])
    {
      total := total + lossGrad(dist, pairs[i].0, pairs[i].1);
      assert terms[..i + 1][..i] == terms[..i];
    }
    assert terms[..|pairs|] == terms;
    totalGrad := total;
  }

  /** Appending one condition to aligned lists adds exactly that condition's
      contribution to the decomposed gradient total. */
  lemma DecomposedGradAppend<F, O, D, K, P>(
    fromParams: (F, O) -> D, lossGrad: (D, K, P) -> real, fixed: F, opt: O, ks: seq<K>, ps: seq<P>, k: K, p: P)
    requires |ks| == |ps|
    ensures DecomposedGrad(fromParams, lossGrad, fixed, opt, ks + [k], ps + [p])
         == DecomposedGrad(fromParams, lossGrad, fixed, opt, ks, ps) + lossGrad(fromParams(fixed, opt), k, p)
  {
    var dist := fromParams(fixed, opt);
    var f := (kp: (K, P)) => lossGrad(dist, kp.0, kp.1);
    var long := MapReal(f, Zip(ks + [k], ps + [p]));
    assert long[..|ks|] == MapReal(f, Zip(ks, ps));
  }

  // ---------------------------------------------------------------------------
  // Negative log-likelihood
  // ---------------------------------------------------------------------------

  /** The log-density of every datum under `dist` (`vmap(dist.logpdf)(data)`). */
  function Scores<D>(logpdf: (D, real) -> real, dist: D, data: seq<real>): seq<real>
  {
    seq(|data|, i requires 0 <= i < |data| => logpdf(dist, data[i]))
  }

  /** `dist_logloss`: minus the total log-density of the data. A batch of one
      is scored directly; the contract says this agrees with the batch sum. */
  function DistLogloss<F, O, D>(fromParams: (F, O) -> D, logpdf: (D, real) -> real, fixed: F, opt: O, data: seq<real>): (r: real)
    ensures r == -Sum(Scores(logpdf, fromParams(fixed, opt), data))
  {
    var dist := fromParams(fixed, opt);
    if |data| == 1 then
      -logpdf(dist, data[0])
    else
      -Sum(Scores(logpdf, dist, data))
  }

  // ---------------------------------------------------------------------------
  // Logistic mixture log-density
  // ---------------------------------------------------------------------------

  /** The numerics the mixture density calls: `logistic_logpdf(x, loc, scale)`,
      `np.log` and `scipy.special.logsumexp`. */
  datatype Numerics = Numerics(
    logisticLogpdf: (real, real, real) -> real,
    log: real -> real,
    logsumexp: seq<real> -> real)

  /** One mixture component as stored in the flat parameter vector. */
  datatype Triple = Triple(loc: real, scale: real, prob: real)

  /** The rows of `params.reshape((-1, 3))`. */
  function ReshapeTriples(params: seq<real>): (ts: seq<Triple>)
    requires |params| % 3 == 0
    ensures |ts| == |params| / 3
    ensures forall i :: 0 <= i < |ts| ==> ts[i] == Triple(params[3 * i], params[3 * i + 1], params[3 * i + 2])
  {
    if |params| == 0 then []
    else [Triple(params[0], params[1], params[2])] + ReshapeTriples(params[3..])
  }

  /** `params.reshape((-1, 3))`, which raises unless the length is a multiple of 3. */
  function Reshape3(params: seq<real>): (r: Result<seq<Triple>>)
    ensures r.Ok? <==> |params| % 3 == 0
  {
    if |params| % 3 == 0 then Ok(ReshapeTriples(params))
    else Err(TypeError("cannot reshape parameters into (loc, scale, prob) rows"))
  }

  /** The score of each component for one datum. */
  function ComponentScores(num: Numerics, ts: seq<Triple>, datum: real): seq<real>
  {
    seq(|ts|, i requires 0 <= i < |ts| => num.logisticLogpdf(datum, ts[i].loc, ts[i].scale) + num.log(ts[i].prob))
  }

  /** What `logistic_mixture_logpdf1` returns: the log-sum-exp of exactly
      `len(params) / 3` component scores, the i-th computed from
      `params[3i]`, `params[3i+1]`, `params[3i+2]`; or the reshape error. */
  function MixtureLogpdf1(num: Numerics, params: seq<real>, datum: real): (r: Result<real>)
    ensures r.Ok? <==> |params| % 3 == 0
    ensures r.Ok? ==> r.value == num.logsumexp(
      seq(|params| / 3, i requires 0 <= i < |params| / 3 =>
        num.logisticLogpdf(datum, params[3 * i], params[3 * i + 1]) + num.log(params[3 * i + 2])))
  {
    var ts :- Reshape3(params);
    var scores := ComponentScores(num, ts, datum);
    assert scores == seq(|params| / 3, i requires 0 <= i < |params| / 3 =>
      num.logisticLogpdf(datum, params[3 * i], params[3 * i + 1]) + num.log(params[3 * i + 2]));
    Ok(num.logsumexp(scores))
  }

  /** `logistic_mixture_logpdf1`, as the loop the source runs: one score is
      appended per (loc, scale, prob) row, then they are combined. */
  method LogisticMixtureLogpdf1(num: Numerics, params: seq<real>, datum: real) returns (r: Result<real>)
    ensures r == MixtureLogpdf1(num, params, datum)
  {
    var reshaped := Reshape3(params);
    if reshaped.Err? {
      return Err(reshaped.error);
    }
    var structured := reshaped.value;
    var componentScores: seq<real> := [];
    for i := 0 to |structured|
      invariant componentScores == ComponentScores(num, structured[..i], datum)
    {
      var row := structured[i];
      componentScores := componentScores + [num.logisticLogpdf(datum, row.loc, row.scale) + num.log(row.prob)];
    }
    assert structured[..|structured|] == structured;
    r := Ok(num.logsumexp(componentScores));
  }

  /** `logistic_mixture_logpdf`: the total log-density of a batch. A batch of
      one is scored directly; the contract says this agrees with the sum of
      the per-datum densities, and that the reshape error surfaces for every
      batch (it is raised while tracing, before any datum is scored). */
  function LogisticMixtureLogpdf(num: Numerics, params: seq<real>, data: seq<real>): (r: Result<real>)
    ensures r.Ok? <==> |params| % 3 == 0
    ensures r.Ok? ==> r.value == Sum(seq(|data|, i requires 0 <= i < |data| =>
                                      num.logsumexp(ComponentScores(num, ReshapeTriples(params), data[i]))))
    ensures r.Ok? && |data| == 1 ==> r == MixtureLogpdf1(num, params, data[0])
  {
    if |data| == 1 then
      MixtureLogpdf1(num, params, data[0])
    else
      var ts :- Reshape3(params);
      Ok(Sum(seq(|data|, i requires 0 <= i < |data| => num.logsumexp(ComponentScores(num, ts, data[i])))))
  }

  // ---------------------------------------------------------------------------
  // Wasserstein distance
  // ---------------------------------------------------------------------------

  function Abs(x: real): (r: real)
    ensures r >= 0.0
    ensures r == 0.0 <==> x == 0.0
  {
    if x < 0.0 then -x else x
  }

  /** `xs - ys`, elementwise. */
  function Diffs(xs: seq<real>, ys: seq<real>): (ds: seq<real>)
    requires |xs| == |ys|
    ensures |ds| == |xs|
  {
    seq(|xs|, i requires 0 <= i < |xs| => xs[i] - ys[i])
  }

  /** `np.cumsum`: the running totals of a list. */
  function CumSum(ds: seq<real>): (cs: seq<real>)
    ensures |cs| == |ds|
  {
    if |ds| == 0 then [] else CumSum(ds[..|ds| - 1]) + [Sum(ds)]
  }

  /** The i-th running total is the sum of the first i + 1 elements. */
  lemma {:induction false} CumSumAt(ds: seq<real>, i: nat)
    requires i < |ds|
    ensures CumSum(ds)[i] == Sum(ds[..i + 1])
  {
    var front := ds[..|ds| - 1];
    if i == |ds| - 1 {
      assert ds[..i + 1] == ds;
    } else {
      CumSumAt(front, i);
      assert front[..i + 1] == ds[..i + 1];
    }
  }

  /** `wasserstein_distance(xs, ys)`: the total absolute value of the prefix
      sums of `xs - ys`. It is never negative. */
  function WassersteinDistance(xs: seq<real>, ys: seq<real>): (r: real)
    requires |xs| == |ys|
    ensures r >= 0.0
  {
    var absDiffs := MapReal(Abs, CumSum(Diffs(xs, ys)));
    SumNonNegative(absDiffs);
    Sum(absDiffs)
  }

  lemma {:induction false} SumNonNegative(xs: seq<real>)
    requires forall i :: 0 <= i < |xs| ==> xs[i] >= 0.0
    ensures Sum(xs) >= 0.0
  {
    if |xs| > 0 {
      SumNonNegative(xs[..|xs| - 1]);
    }
  }

  /** A sum of non-negative terms is zero exactly when every term is. */
  lemma {:induction false} SumNonNegativeZero(xs: seq<real>)
    requires forall i :: 0 <= i < |xs| ==> xs[i] >= 0.0
    ensures Sum(xs) == 0.0 <==> forall i :: 0 <= i < |xs| ==> xs[i] == 0.0
  {
    if |xs| > 0 {
      var front := xs[..|xs| - 1];
      SumNonNegativeZero(front);
      SumNonNegative(front);
      if Sum(xs) == 0.0 {
        forall i | 0 <= i < |xs| ensures xs[i] == 0.0 {
          if i < |front| { assert front[i] == xs[i]; }
        }
      }
    }
  }

  /** The absolute values of a list sum to zero exactly when every element is zero. */
  lemma SumAbsZero(cs: seq<real>)
    ensures Sum(MapReal(Abs, cs)) == 0.0 <==> forall i :: 0 <= i < |cs| ==> cs[i] == 0.0
  {
    var absValues := MapReal(Abs, cs);
    SumNonNegativeZero(absValues);
    assert forall i :: 0 <= i < |cs| ==> (absValues[i] == 0.0 <==> cs[i] == 0.0);
  }

  /** The distance is zero exactly when every prefix sum of `xs - ys` is. */
  lemma WassersteinZeroIffPrefixSumsZero(xs: seq<real>, ys: seq<real>)
    requires |xs| == |ys|
    ensures WassersteinDistance(xs, ys) == 0.0 <==>
            forall i :: 0 <= i < |xs| ==> CumSum(Diffs(xs, ys))[i] == 0.0
  {
    var cs := CumSum(Diffs(xs, ys));
    assert |cs| == |xs|;
    assert WassersteinDistance(xs, ys) == Sum(MapReal(Abs, cs));
    SumAbsZero(cs);
    if WassersteinDistance(xs, ys) == 0.0 {
      forall i | 0 <= i < |xs| ensures cs[i] == 0.0 {
        assert i < |cs|;
      }
    } else {
      var k :| 0 <= k < |cs| && cs[k] != 0.0;
      assert k < |xs| && CumSum(Diffs(xs, ys))[k] != 0.0;
      assert !(forall i :: 0 <= i < |xs| ==> CumSum(Diffs(xs, ys))[i] == 0.0);
    }
  }

  /** Each running total adds one more element to the previous one. */
  lemma CumSumStep(ds: seq<real>, i: nat)
    requires 0 < i < |ds|
    ensures CumSum(ds)[i] == CumSum(ds)[i - 1] + ds[i]
  {
    CumSumAt(ds, i);
    CumSumAt(ds, i - 1);
    assert ds[..i + 1][..i] == ds[..i];
  }

  /** The first running total is the first element. */
  lemma CumSumFirst(ds: seq<real>)
    requires 0 < |ds|
    ensures CumSum(ds)[0] == ds[0]
  {
    CumSumAt(ds, 0);
    assert ds[..1][..0] == [];
  }

  /** A running total over elements that are all zero is zero. */
  lemma CumSumOfZeros(ds: seq<real>, i: nat)
    requires i < |ds|
    requires forall j :: 0 <= j < |ds| ==> ds[j] == 0.0
    ensures CumSum(ds)[i] == 0.0
  {
    CumSumAt(ds, i);
    var prefix := ds[..i + 1];
    assert forall j :: 0 <= j < |prefix| ==> prefix[j] == 0.0;
    SumNonNegativeZero(prefix);
  }

  /** Every running total of a list is zero exactly when every element is. */
  lemma PrefixSumsZero(ds: seq<real>)
    ensures (forall i :: 0 <= i < |ds| ==> CumSum(ds)[i] == 0.0) <==> (forall i :: 0 <= i < |ds| ==> ds[i] == 0.0)
  {
    if forall i :: 0 <= i < |ds| ==> CumSum(ds)[i] == 0.0 {
      forall i | 0 <= i < |ds| ensures ds[i] == 0.0 {
        if i == 0 {
          CumSumFirst(ds);
        } else {
          CumSumStep(ds, i);
        }
      }
    }
    if forall i :: 0 <= i < |ds| ==> ds[i] == 0.0 {
      forall i | 0 <= i < |ds| ensures CumSum(ds)[i] == 0.0 {
        CumSumOfZeros(ds, i);
      }
    }
  }

  /** The distance vanishes exactly on equal inputs: in particular
      `wasserstein_distance(xs, xs) == 0`. */
  lemma WassersteinZeroIffEqual(xs: seq<real>, ys: seq<real>)
    requires |xs| == |ys|
    ensures WassersteinDistance(xs, ys) == 0.0 <==> xs == ys
  {
    var ds := Diffs(xs, ys);
    WassersteinZeroIffPrefixSumsZero(xs, ys);
    PrefixSumsZero(ds);
    if forall i :: 0 <= i < |ds| ==> ds[i] == 0.0 {
      assert forall i :: 0 <= i < |xs| ==> xs[i] == ys[i] by {
        forall i | 0 <= i < |xs| ensures xs[i] == ys[i] { assert ds[i] == xs[i] - ys[i]; }
      }
    }
  }
}
