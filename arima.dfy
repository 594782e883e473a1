/** utils/arimaModel.ts: a small autoregressive forecaster. The series is
    differenced `d` times; the last `p` differences are forecast forward by a
    weighted sum with weights fixed by `fit`; the forecasts are then summed
    back up from the last observed value. */
module Arima {
  import opened JsNumber

  /** One differencing pass: `[r[1] - r[0], ..., r[n-1] - r[n-2]]`. */
  function DiffOnce(r: seq<real>): (t: seq<real>)
    ensures |t| == if |r| == 0 then 0 else |r| - 1
    ensures forall j :: 0 <= j < |t| ==> t[j] == r[j + 1] - r[j]
  {
    if |r| <= 1 then [] else seq(|r| - 1, j requires 0 <= j < |r| - 1 => r[j + 1] - r[j])
  }

  /** `order` differencing passes: the series shortens by `order`, never
      below empty. */
  function DiffN(r: seq<real>, order: nat): (t: seq<real>)
    ensures |t| == if |r| <= order then 0 else |r| - order
    decreases order
  {
    if order == 0 then r else DiffN(DiffOnce(r), order - 1)
  }

  /** One re-integration pass: the running sums of `xs` started at `base`. */
  function Integrate(base: real, xs: seq<real>): (r: seq<real>)
    ensures |r| == |xs|
  {
    if |xs| == 0 then []
    else
      var prev := Integrate(base, xs[..|xs| - 1]);
      prev + [RunningEnd(base, prev) + xs[|xs| - 1]]
  }

  /** The last running sum so far, or the base before the first one. */
  function RunningEnd(base: real, sums: seq<real>): real {
    if |sums| == 0 then base else sums[|sums| - 1]
  }

  /** Element `k` of a re-integrated series is the base plus the first `k+1`
      values. */
  lemma {:induction false} IntegrateIsPrefixSums(base: real, xs: seq<real>)
    ensures forall k :: 0 <= k < |xs| ==> Integrate(base, xs)[k] == base + Sum(xs[..k + 1])
  {
    if |xs| > 0 {
      var init := xs[..|xs| - 1];
      IntegrateIsPrefixSums(base, init);
      forall k | 0 <= k < |xs|
        ensures Integrate(base, xs)[k] == base + Sum(xs[..k + 1])
      {
        if k < |xs| - 1 {
          assert init[..k + 1] == xs[..k + 1];
        } else {
          assert xs[..k + 1] == xs;
          assert xs[..k + 1][..k] == init;
          if k > 0 {
            assert init[..k - 1 + 1] == init;
          }
        }
      }
    }
  }

  /** Re-integrating the differences of a series from its first value gives
      back the rest of the series. */
  lemma {:induction false} IntegrateUndoesDiff(s: seq<real>)
    requires |s| >= 1
    ensures Integrate(s[0], DiffOnce(s)) == s[1..]
  {
    if |s| >= 2 {
      var n := |s|;
      var init := s[..n - 1];
      IntegrateUndoesDiff(init);
      assert init[0] == s[0];
      DiffSnoc(s);
      var rest := init[1..];
      if n == 2 {
        assert rest == [];
      } else {
        assert rest[|rest| - 1] == s[n - 2];
      }
      assert RunningEnd(s[0], rest) == s[n - 2];
      UndoStep(s[0], DiffOnce(init), s[n - 1] - s[n - 2], rest, s[n - 1]);
      TailSnoc(s);
    }
  }

  /** One more difference re-integrates to one more value. */
  lemma UndoStep(base: real, diffs: seq<real>, d: real, rest: seq<real>, last: real)
    requires Integrate(base, diffs) == rest
    requires RunningEnd(base, rest) + d == last
    ensures Integrate(base, diffs + [d]) == rest + [last]
  {
    IntegrateSnoc(base, diffs, d);
  }

  lemma TailSnoc(s: seq<real>)
    requires |s| >= 2
    ensures s[..|s| - 1][1..] + [s[|s| - 1]] == s[1..]
  {
  }

  /** The differences of a series end with the difference of its last two
      values. */
  lemma DiffSnoc(s: seq<real>)
    requires |s| >= 2
    ensures DiffOnce(s) == DiffOnce(s[..|s| - 1]) + [s[|s| - 1] - s[|s| - 2]]
  {
    var init := s[..|s| - 1];
    var lhs, rhs := DiffOnce(s), DiffOnce(init) + [s[|s| - 1] - s[|s| - 2]];
    assert |lhs| == |rhs|;
    forall j | 0 <= j < |lhs|
      ensures lhs[j] == rhs[j]
    {
      if j < |lhs| - 1 {
        assert rhs[j] == init[j + 1] - init[j];
      }
    }
  }

  /** Re-integrating one more value appends the last running sum plus it. */
  lemma IntegrateSnoc(base: real, xs: seq<real>, x: real)
    ensures var prev := Integrate(base, xs);
      Integrate(base, xs + [x]) == prev + [RunningEnd(base, prev) + x]
  {
    var ys := xs + [x];
    assert ys[..|ys| - 1] == xs;
    assert ys[|ys| - 1] == x;
  }

  /** `d` re-integration passes, every one started at the same base (the
      last observed value). */
  function UndoN(base: real, xs: seq<real>, d: nat): (r: seq<real>)
    ensures |r| == |xs|
    decreases d
  {
    if d == 0 then xs else UndoN(base, Integrate(base, xs), d - 1)
  }

  function Zeros(n: nat): (z: seq<real>)
    ensures |z| == n && forall i :: 0 <= i < n ==> z[i] == 0.0
  {
    seq(n, _ => 0.0)
  }

  /** `xs.slice(-p)`: the last `p` entries, and for `p = 0` (`slice(-0)`,
      which is `slice(0)`) the whole series. */
  function TakeLast(xs: seq<real>, p: nat): (t: seq<real>)
    ensures p == 0 ==> t == xs
    ensures p > 0 ==> t == xs[|xs| - (if p < |xs| then p else |xs|)..]
  {
    if p == 0 then xs else xs[|xs| - (if p < |xs| then p else |xs|)..]
  }

  /** The first forecast window: the last `p` differences, zero-padded in
      front up to `p` entries. */
  function StartWindow(processed: seq<real>, p: nat): (w: seq<real>)
    ensures |w| == if p == 0 then |processed| else p
    ensures var m := if p == 0 || |processed| < p then |processed| else p;
      |w| >= m && w[|w| - m..] == processed[|processed| - m..] &&
      forall i :: 0 <= i < |w| - m ==> w[i] == 0.0
  {
    var taken := TakeLast(processed, p);
    if |taken| < p then Zeros(p - |taken|) + taken else taken
  }

  /** The first `m` terms of the weighted sum, most recent value first.
      Only the last `m` window values take part: when they are all zero the
      sum is zero, and non-negative weights over non-negative values never
      give a negative sum. */
  function WeightedSum(weights: seq<real>, window: seq<real>, m: nat): (x: real)
    requires m <= |weights| && m <= |window|
    ensures (forall i :: |window| - m <= i < |window| ==> window[i] == 0.0) ==> x == 0.0
    ensures ((forall j :: 0 <= j < m ==> weights[j] >= 0.0) &&
             (forall i :: |window| - m <= i < |window| ==> window[i] >= 0.0)) ==> x >= 0.0
  {
    if m == 0 then 0.0 else WeightedSum(weights, window, m - 1) + weights[m - 1] * window[|window| - m]
  }

  /** `[...window.slice(1), x]`: drop the oldest value, append the newest. */
  function Shift(window: seq<real>, x: real): (w: seq<real>)
    ensures |w| == if |window| == 0 then 1 else |window|
    ensures w[|w| - 1] == x
  {
    (if |window| == 0 then [] else window[1..]) + [x]
  }

  /** The differenced forecasts: each is the weighted sum of the window,
      which then moves on by one value. */
  function Rollout(weights: seq<real>, window: seq<real>, steps: nat): (preds: seq<real>)
    ensures |preds| == steps
    decreases steps
  {
    if steps == 0 then []
    else
      var x := WeightedSum(weights, window, if |weights| < |window| then |weights| else |window|);
      [x] + Rollout(weights, Shift(window, x), steps - 1)
  }

  /** A window holding one value `c` throughout weighs to `c` times the
      weights used. */
  lemma {:induction false} WeightedSumOfConstant(weights: seq<real>, window: seq<real>, m: nat, c: real)
    requires m <= |weights| && m <= |window|
    requires forall i :: 0 <= i < |window| ==> window[i] == c
    ensures WeightedSum(weights, window, m) == c * Sum(weights[..m])
  {
    if m > 0 {
      WeightedSumOfConstant(weights, window, m - 1, c);
      assert weights[..m][..m - 1] == weights[..m - 1];
    }
  }

  /** With weights summing to one and no more weights than window entries,
      a constant window is forecast as that constant at every step. */
  lemma {:induction false} ConstantWindowForecastFlat(weights: seq<real>, window: seq<real>, steps: nat, c: real)
    requires Sum(weights) == 1.0 && |weights| <= |window|
    requires forall i :: 0 <= i < |window| ==> window[i] == c
    ensures forall k :: 0 <= k < steps ==> Rollout(weights, window, steps)[k] == c
    decreases steps
  {
    if steps > 0 {
      WeightedSumOfConstant(weights, window, |weights|, c);
      assert weights[..|weights|] == weights;
      var next := Shift(window, c);
      assert forall i :: 0 <= i < |next| ==> next[i] == c;
      ConstantWindowForecastFlat(weights, next, steps - 1, c);
    }
  }

  /** `new Array(k).fill(1)` divided by its sum: `k` equal weights. */
  function EqualWeights(k: nat): (w: seq<real>)
    ensures |w| == k
    ensures forall i :: 0 <= i < k ==> w[i] == 1.0 / k as real
  {
    seq(k, i requires 0 <= i < k => 1.0 / k as real)
  }

  lemma EqualWeightsSumToOne(k: nat)
    requires k > 0
    ensures Sum(EqualWeights(k)) == 1.0
  {
    SumConstant(EqualWeights(k), 1.0 / k as real);
    assert k as real * (1.0 / k as real) == 1.0;
  }

  /** `Math.exp(-0.1 * i)` for `i < p`. */
  function DecayWeights(p: nat, exp: real -> real): (w: seq<real>)
    ensures |w| == p
    ensures forall i :: 0 <= i < p ==> w[i] == exp(-0.1 * i as real)
  {
    seq(p, i requires 0 <= i < p => exp(-0.1 * i as real))
  }

  /** `raw.map(w => w / total)`. */
  function Normalised(raw: seq<real>, total: real): (w: seq<real>)
    requires total != 0.0
    ensures |w| == |raw|
    ensures forall i :: 0 <= i < |raw| ==> w[i] == raw[i] / total
  {
    seq(|raw|, i requires 0 <= i < |raw| => raw[i] / total)
  }

  /** The weights `fit` settles on for a series. */
  function FitWeights(data: seq<real>, p: nat, d: nat, exp: real -> real): (w: seq<real>)
    ensures |data| == 0 ==> w == [1.0]
    ensures |data| > 0 ==> |w| == if |DiffN(data, d)| <= p then |DiffN(data, d)| else p
  {
    if |data| == 0 then [1.0]
    else if |DiffN(data, d)| <= p then EqualWeights(|DiffN(data, d)|)
    else
      var raw := DecayWeights(p, exp);
      if Sum(raw) > 0.0 then Normalised(raw, Sum(raw))
      else EqualWeights(p)
  }

  /** Too few differences: one equal weight per difference, summing to one
      unless there are none. */
  lemma FitWeightsShort(data: seq<real>, p: nat, d: nat, exp: real -> real)
    requires |data| > 0 && |DiffN(data, d)| <= p
    ensures var w := FitWeights(data, p, d, exp);
      |w| == |DiffN(data, d)| &&
      (forall i, j :: 0 <= i < j < |w| ==> w[i] == w[j]) &&
      (|w| > 0 ==> Sum(w) == 1.0)
  {
    var n := |DiffN(data, d)|;
    assert FitWeights(data, p, d, exp) == EqualWeights(n);
    if n > 0 {
      EqualWeightsSumToOne(n);
    }
  }

  /** Normalising positive weights by their sum gives positive weights that
      sum to one. */
  lemma NormalisedPositive(raw: seq<real>)
    requires |raw| > 0 && forall i :: 0 <= i < |raw| ==> raw[i] > 0.0
    ensures Sum(raw) > 0.0
    ensures var w := Normalised(raw, Sum(raw));
      (forall i :: 0 <= i < |w| ==> w[i] > 0.0) && Sum(w) == 1.0
  {
    SumPositive(raw);
    var total := Sum(raw);
    var w := Normalised(raw, total);
    SumScaled(raw, w, total);
    assert total / total == 1.0;
    forall i | 0 <= i < |w| ensures w[i] > 0.0 {
      assert w[i] == raw[i] / total;
    }
  }

  /** Enough differences: exactly `p` positive weights summing to one. */
  lemma FitWeightsLong(data: seq<real>, p: nat, d: nat, exp: real -> real)
    requires IsExp(exp)
    requires p >= 1 && |DiffN(data, d)| > p
    ensures var w := FitWeights(data, p, d, exp);
      |w| == p && (forall i :: 0 <= i < p ==> w[i] > 0.0) && Sum(w) == 1.0
  {
    var raw := DecayWeights(p, exp);
    assert forall i :: 0 <= i < p ==> raw[i] > 0.0;
    NormalisedPositive(raw);
    assert |data| > 0;
    assert FitWeights(data, p, d, exp) == Normalised(raw, Sum(raw));
  }

  /** Fitting an empty series sets the single weight 1. */
  lemma FitWeightsEmpty(p: nat, d: nat, exp: real -> real)
    ensures FitWeights([], p, d, exp) == [1.0]
  {
  }

  /** What `predict(steps)` returns for a fitted series and weights. */
  function Forecast(data: seq<real>, weights: seq<real>, p: nat, d: nat, steps: nat): (out: seq<real>)
    ensures |out| == steps
  {
    if |data| == 0 then Zeros(steps)
    else
      var processed := DiffN(data, d);
      if |processed| == 0 then seq(steps, _ => data[|data| - 1])
      else UndoN(data[|data| - 1], Rollout(weights, StartWindow(processed, p), steps), d)
  }

  /** The two fallbacks: zeros for no data, the last value repeated when
      differencing leaves nothing. */
  lemma ForecastFallbacks(data: seq<real>, weights: seq<real>, p: nat, d: nat, steps: nat)
    ensures |data| == 0 ==> forall k :: 0 <= k < steps ==> Forecast(data, weights, p, d, steps)[k] == 0.0
    ensures |data| > 0 && |data| <= d ==>
      forall k :: 0 <= k < steps ==> Forecast(data, weights, p, d, steps)[k] == data[|data| - 1]
  {
  }

  /** With one differencing pass, forecast `k` is the last observed value
      plus the first `k+1` forecast differences. */
  lemma ForecastFirstDifferences(data: seq<real>, weights: seq<real>, p: nat, steps: nat)
    requires |data| >= 2
    ensures var preds := Rollout(weights, StartWindow(DiffOnce(data), p), steps);
      forall k :: 0 <= k < steps ==> Forecast(data, weights, p, 1, steps)[k] == data[|data| - 1] + Sum(preds[..k + 1])
  {
    var preds := Rollout(weights, StartWindow(DiffOnce(data), p), steps);
    assert DiffN(data, 1) == DiffOnce(data);
    IntegrateIsPrefixSums(data[|data| - 1], preds);
  }

  /** A window cut from differences that all equal `c` holds only `c`. */
  lemma WindowOfConstant(processed: seq<real>, p: nat, c: real)
    requires p <= |processed|
    requires forall i :: 0 <= i < |processed| ==> processed[i] == c
    ensures forall i :: 0 <= i < |StartWindow(processed, p)| ==> StartWindow(processed, p)[i] == c
  {
  }

  /** Running sums of a constant `c` grow by `c` per step. */
  lemma PrefixSumsOfConstant(out: seq<real>, preds: seq<real>, base: real, c: real)
    requires |out| == |preds|
    requires forall k :: 0 <= k < |preds| ==> preds[k] == c
    requires forall k :: 0 <= k < |out| ==> out[k] == base + Sum(preds[..k + 1])
    ensures forall k :: 0 <= k < |out| ==> out[k] == base + (k + 1) as real * c
  {
    forall k | 0 <= k < |out|
      ensures out[k] == base + (k + 1) as real * c
    {
      SumConstant(preds[..k + 1], c);
    }
  }

  /** A series moving by the same step `c` throughout, fitted with weights
      summing to one, is forecast to keep moving by `c` per step. */
  lemma ForecastKeepsSteadyStep(data: seq<real>, weights: seq<real>, p: nat, steps: nat, c: real)
    requires |data| >= 2 && p >= 1 && |weights| <= p && Sum(weights) == 1.0
    requires |data| - 1 >= p
    requires forall i :: 0 <= i < |data| - 1 ==> data[i + 1] - data[i] == c
    ensures forall k :: 0 <= k < steps ==> Forecast(data, weights, p, 1, steps)[k] == data[|data| - 1] + (k + 1) as real * c
  {
    var processed := DiffOnce(data);
    WindowOfConstant(processed, p, c);
    var window := StartWindow(processed, p);
    ConstantWindowForecastFlat(weights, window, steps, c);
    ForecastFirstDifferences(data, weights, p, steps);
    PrefixSumsOfConstant(Forecast(data, weights, p, 1, steps), Rollout(weights, window, steps), data[|data| - 1], c);
  }

  /** The returns `(x[i] - x[i-1]) / x[i-1]` over every previous value that
      is not zero, in order. */
  function Returns(data: seq<real>): (rs: seq<real>)
    ensures |rs| <= if |data| == 0 then 0 else |data| - 1
    ensures (forall i :: 0 <= i < |data| - 1 ==> data[i] != 0.0) ==> |rs| == if |data| == 0 then 0 else |data| - 1
  {
    if |data| < 2 then []
    else
      var prev := data[|data| - 2];
      Returns(data[..|data| - 1]) + (if prev != 0.0 then [(data[|data| - 1] - prev) / prev] else [])
  }

  /** `calculateVolatility()`: the population standard deviation of the
      returns, or 0.1 when there are none. */
  function Volatility(data: seq<real>, sqrt: real -> real): (v: real)
    ensures |data| < 2 ==> v == 0.1
    ensures IsSqrt(sqrt) ==> v >= 0.0
  {
    var rs := Returns(data);
    if |data| < 2 || |rs| == 0 then 0.1
    else
      var total, count := Sum(SquaredDeviations(rs, Mean(rs))), |rs| as real;
      assert total >= 0.0 && count > 0.0 by { SumNonNegative(SquaredDeviations(rs, Mean(rs))); }
      assert total / count >= 0.0;
      sqrt(total / count)
  }

  /** The confidence of forecast `index`: 85 decayed with the horizon and
      scaled down by volatility, kept within [30, 100]. */
  function ConfidenceAt(index: nat, volatility: real, exp: real -> real): (c: real)
    ensures 30.0 <= c <= 100.0
  {
    Clamp(30.0, 100.0, 85.0 * exp(-0.15 * (index + 1) as real) * Max(0.3, 1.0 - volatility * 0.1))
  }

  /** `fit`'s branch for too few differences: `min(p, n)` ones, each
      divided by their sum. */
  method ShortWeights(p: nat, n: nat) returns (weights: seq<real>)
    requires n <= p
    ensures weights == EqualWeights(n)
  {
    var k := if p < n then p else n;
    var ones := seq(k, _ => 1.0);
    SumConstant(ones, 1.0);
    var sum := Sum(ones);
    weights := seq(k, i requires 0 <= i < k => ones[i] / sum);
  }

  /** `fit`'s weight loop: `Math.exp(-0.1 * i)` pushed for each `i < p`. */
  method DecayLoop(p: nat, exp: real -> real) returns (weights: seq<real>)
    ensures weights == DecayWeights(p, exp)
  {
    weights := [];
    var i := 0;
    while i < p
      invariant 0 <= i <= p
      invariant weights == DecayWeights(i, exp)
    {
      weights := weights + [exp(-0.1 * i as real)];
      i := i + 1;
    }
  }

  /** `predict`'s padding loop: `unshift(0)` until the window holds `p`
      values. */
  method PadWindow(taken: seq<real>, p: nat) returns (recent: seq<real>)
    ensures recent == if |taken| < p then Zeros(p - |taken|) + taken else taken
  {
    recent := taken;
    while |recent| < p
      invariant |taken| <= |recent| && recent == Zeros(|recent| - |taken|) + taken
      invariant |taken| >= p ==> recent == taken
      invariant |taken| <= p ==> |recent| <= p
      decreases p - |recent|
    {
      assert [0.0] + Zeros(|recent| - |taken|) == Zeros(|recent| + 1 - |taken|);
      recent := [0.0] + recent;
    }
  }

  /** `predict`'s inner loop: the weighted sum over the window. */
  method WeighWindow(weights: seq<real>, recent: seq<real>) returns (prediction: real)
    ensures prediction == WeightedSum(weights, recent, if |weights| < |recent| then |weights| else |recent|)
  {
    prediction := 0.0;
    var m := if |weights| < |recent| then |weights| else |recent|;
    var j := 0;
    while j < m
      invariant 0 <= j <= m
      invariant prediction == WeightedSum(weights, recent, j)
    {
      prediction := prediction + weights[j] * recent[|recent| - 1 - j];
      j := j + 1;
    }
  }

  /** `predict`'s forecast loop. */
  method ForecastDifferences(weights: seq<real>, window: seq<real>, steps: nat) returns (predictions: seq<real>)
    ensures predictions == Rollout(weights, window, steps)
  {
    predictions := [];
    var recent := window;
    var i := 0;
    while i < steps
      invariant 0 <= i <= steps
      invariant predictions + Rollout(weights, recent, steps - i) == Rollout(weights, window, steps)
    {
      var prediction := WeighWindow(weights, recent);
      ghost var rest := Rollout(weights, Shift(recent, prediction), steps - i - 1);
      assert Rollout(weights, recent, steps - i) == [prediction] + rest;
      assert predictions + ([prediction] + rest) == (predictions + [prediction]) + rest;
      predictions := predictions + [prediction];
      recent := (if |recent| == 0 then [] else recent[1..]) + [prediction];
      i := i + 1;
    }
  }

  /** One pass of `predict`'s re-integration loop. */
  method IntegratePass(base: real, xs: seq<real>) returns (r: seq<real>)
    ensures r == Integrate(base, xs)
  {
    var temp := [base];
    var j := 0;
    while j < |xs|
      invariant 0 <= j <= |xs|
      invariant temp == [base] + Integrate(base, xs[..j])
    {
      assert xs[..j + 1][..j] == xs[..j];
      temp := temp + [temp[|temp| - 1] + xs[j]];
      j := j + 1;
    }
    assert xs[..j] == xs;
    r := temp[1..];
  }

  /** `predict`'s re-integration loop: `d` passes from the last observed
      value. */
  method Reintegrate(lastOriginalValue: real, predictions: seq<real>, d: nat) returns (result: seq<real>)
    ensures result == UndoN(lastOriginalValue, predictions, d)
  {
    result := predictions;
    var k := 0;
    while k < d
      invariant 0 <= k <= d
      invariant UndoN(lastOriginalValue, result, d - k) == UndoN(lastOriginalValue, predictions, d)
    {
      result := IntegratePass(lastOriginalValue, result);
      k := k + 1;
    }
  }

  /** The model: its parameters, the fitted series and the weights. */
  class ArimaModel {
    const p: nat
    const d: nat
    const q: nat
    var data: seq<real>
    var weights: seq<real>

    constructor (p: nat, d: nat, q: nat)
      ensures this.p == p && this.d == d && this.q == q
      ensures data == [] && weights == []
    {
      this.p, this.d, this.q := p, d, q;
      data, weights := [], [];
    }

    /** One pass of `difference`'s outer loop. */
    static method DifferenceOnce(r: seq<real>) returns (temp: seq<real>)
      ensures temp == DiffOnce(r)
    {
      temp := [];
      var j := 1;
      while j < |r|
        invariant 1 <= j && (j <= |r| || j == 1)
        invariant |temp| == j - 1
        invariant forall k :: 0 <= k < j - 1 ==> temp[k] == r[k + 1] - r[k]
      {
        temp := temp + [r[j] - r[j - 1]];
        j := j + 1;
      }
      assert |temp| == |DiffOnce(r)|;
      assert forall k :: 0 <= k < |temp| ==> temp[k] == DiffOnce(r)[k];
    }

    /** `difference(data, order)`. */
    static method Difference(series: seq<real>, order: nat) returns (result: seq<real>)
      ensures result == DiffN(series, order)
    {
      if order == 0 {
        return series;
      }
      result := series;
      var i := 0;
      while i < order
        invariant 0 <= i <= order
        invariant DiffN(result, order - i) == DiffN(series, order)
      {
        result := DifferenceOnce(result);
        i := i + 1;
      }
    }

    /** `fit(data)`, with `Math.exp` as `exp`. */
    method Fit(series: seq<real>, exp: real -> real)
      modifies this
      ensures data == series
      ensures weights == FitWeights(series, p, d, exp)
    {
      data := series;
      if |series| == 0 {
        weights := [1.0];
        return;
      }
      var processed := Difference(series, d);
      if |processed| <= p {
        weights := ShortWeights(p, |processed|);
        return;
      }
      var raw := DecayLoop(p, exp);
      var totalWeight := Sum(raw);
      if totalWeight > 0.0 {
        weights := seq(|raw|, i requires 0 <= i < |raw| => raw[i] / totalWeight);
        assert weights == Normalised(raw, totalWeight);
      } else {
        weights := seq(p, i requires 0 <= i < p => 1.0 / p as real);
        assert weights == EqualWeights(p);
      }
    }

    /** `predict(steps)`. */
    method Predict(steps: nat) returns (result: seq<real>)
      ensures result == Forecast(data, weights, p, d, steps)
    {
      if |data| == 0 {
        return seq(steps, _ => 0.0);
      }
      var processed := Difference(data, d);
      if |processed| == 0 {
        var lastValue := data[|data| - 1];
        return seq(steps, _ => lastValue);
      }
      var recent := PadWindow(TakeLast(processed, p), p);
      var predictions := ForecastDifferences(weights, recent, steps);
      result := Reintegrate(data[|data| - 1], predictions, d);
    }

    /** `calculateVolatility()` with `Math.sqrt` as `sqrt`. */
    method CalculateVolatility(sqrt: real -> real) returns (volatility: real)
      ensures volatility == Volatility(data, sqrt)
    {
      if |data| < 2 {
        return 0.1;
      }
      var rets: seq<real> := [];
      var i := 1;
      while i < |data|
        invariant 1 <= i <= |data|
        invariant rets == Returns(data[..i])
      {
        assert data[..i + 1][..i] == data[..i];
        if data[i - 1] != 0.0 {
          rets := rets + [(data[i] - data[i - 1]) / data[i - 1]];
        }
        i := i + 1;
      }
      assert data[..i] == data;
      if |rets| == 0 {
        return 0.1;
      }
      var mean := Sum(rets) / |rets| as real;
      var variance := Sum(SquaredDeviations(rets, mean)) / |rets| as real;
      volatility := sqrt(variance);
    }

    /** `calculateConfidence(predictions)`: one confidence per forecast, each
        within [30, 100]. */
    method CalculateConfidence(predictions: seq<real>, exp: real -> real, sqrt: real -> real) returns (confidence: seq<real>)
      ensures |confidence| == |predictions|
      ensures forall i :: 0 <= i < |confidence| ==> 30.0 <= confidence[i] <= 100.0
      ensures forall i :: 0 <= i < |confidence| ==> confidence[i] == ConfidenceAt(i, Volatility(data, sqrt), exp)
    {
      var volatility := CalculateVolatility(sqrt);
      confidence := seq(|predictions|, i requires 0 <= i < |predictions| => ConfidenceAt(i, volatility, exp));
    }
  }
}
