/** components/ForexPredictionEnhancer.tsx: seven daily predictions, each a
    fixed blend of four simple forecasters, with a confidence adjusted for
    volatility, trend, data quality and market regime. The rates are
    positive, so the divisions the source performs are all defined. */
module Ensemble {
  import opened JsNumber
  import opened Sorting
  import Arima

  /** The number of days predicted. */
  const Horizons: nat := 7

  /** Exchange rates are positive, which keeps every division of the
      forecasters defined. */
  predicate Positive(data: seq<real>) {
    forall i :: 0 <= i < |data| ==> data[i] > 0.0
  }

  // ---------------------------------------------------------------------
  // ARIMA-like drift forecaster and the autocorrelation it uses
  // ---------------------------------------------------------------------

  /** `sum of (x[i] - mean) * (x[i + lag] - mean)` over the first `k` i. */
  function LagProducts(data: seq<real>, mean: real, lag: nat, k: nat): real
    requires k + lag <= |data|
  {
    if k == 0 then 0.0 else LagProducts(data, mean, lag, k - 1) + (data[k - 1] - mean) * (data[k - 1 + lag] - mean)
  }

  /** `sum of Math.pow(x[i] - mean, 2)` over the first `k` i. */
  function SquareSum(data: seq<real>, mean: real, k: nat): (s: real)
    requires k <= |data|
    ensures s >= 0.0
  {
    if k == 0 then 0.0 else SquareSum(data, mean, k - 1) + Square(data[k - 1] - mean)
  }

  /** `calculateAutocorrelation(data, lag)`: 0 when the lag leaves fewer than
      two pairs or the series does not vary. */
  function Autocorrelation(data: seq<real>, lag: nat): (r: real)
    ensures lag >= |data| - 1 ==> r == 0.0
  {
    if lag >= |data| - 1 then 0.0
    else
      var mean := Mean(data);
      var denominator := SquareSum(data, mean, |data|);
      if denominator == 0.0 then 0.0 else LagProducts(data, mean, lag, |data| - lag) / denominator
  }

  lemma SquareIsProduct(x: real)
    ensures Square(x) == x * x
  {
  }

  lemma {:induction false} LagZeroIsSquareSum(data: seq<real>, mean: real, k: nat)
    requires k <= |data|
    ensures LagProducts(data, mean, 0, k) == SquareSum(data, mean, k)
  {
    if k > 0 {
      LagZeroIsSquareSum(data, mean, k - 1);
      SquareIsProduct(data[k - 1] - mean);
    }
  }

  /** A varying series is perfectly correlated with itself at lag 0. */
  lemma AutocorrelationAtLagZero(data: seq<real>)
    requires |data| >= 2
    requires SquareSum(data, Mean(data), |data|) != 0.0
    ensures Autocorrelation(data, 0) == 1.0
  {
    var mean := Mean(data);
    var den := SquareSum(data, mean, |data|);
    LagZeroIsSquareSum(data, mean, |data|);
    assert |data| - 0 == |data|;
    assert Autocorrelation(data, 0) == LagProducts(data, mean, 0, |data|) / den;
    DivideFacts(den, 1.0);
  }

  method CalculateAutocorrelation(data: seq<real>, lag: nat) returns (r: real)
    ensures r == Autocorrelation(data, lag)
  {
    if lag >= |data| - 1 {
      return 0.0;
    }
    var mean := Sum(data) / |data| as real;
    var numerator, denominator := 0.0, 0.0;
    var i := 0;
    while i < |data| - lag
      invariant 0 <= i <= |data| - lag
      invariant numerator == LagProducts(data, mean, lag, i)
    {
      numerator := numerator + (data[i] - mean) * (data[i + lag] - mean);
      i := i + 1;
    }
    i := 0;
    while i < |data|
      invariant 0 <= i <= |data|
      invariant denominator == SquareSum(data, mean, i)
    {
      denominator := denominator + Square(data[i] - mean);
      i := i + 1;
    }
    r := if denominator == 0.0 then 0.0 else numerator / denominator;
  }

  /** `days` steps of `prediction += drift + ac1 * (prediction - baseRate) * 0.3`.
      With a non-negative average drift and autocorrelation the path never
      falls below the base rate, and with a non-positive pair never rises
      above it. */
  function DriftPath(baseRate: real, avgDiff: real, ac1: real, days: nat): (r: real)
    ensures avgDiff >= 0.0 && ac1 >= 0.0 ==> r >= baseRate
    ensures avgDiff <= 0.0 && ac1 >= 0.0 ==> r <= baseRate
  {
    if days == 0 then baseRate
    else
      var prev := DriftPath(baseRate, avgDiff, ac1, days - 1);
      prev + avgDiff * 0.5 + ac1 * (prev - baseRate) * 0.3
  }

  /** `calculateArimaPrediction(data, baseRate, days)`. */
  function ArimaComponent(data: seq<real>, baseRate: real, days: nat): (r: real)
    ensures |data| < 10 ==> r == baseRate
  {
    if |data| < 10 then baseRate
    else
      var diffs := Arima.DiffOnce(data);
      DriftPath(baseRate, Mean(diffs), Autocorrelation(diffs, 1), days)
  }

  /** With no average drift the path never leaves the base rate. */
  lemma {:induction false} DriftPathWithoutDrift(baseRate: real, ac1: real, days: nat)
    ensures DriftPath(baseRate, 0.0, ac1, days) == baseRate
  {
    if days > 0 {
      DriftPathWithoutDrift(baseRate, ac1, days - 1);
    }
  }

  /** The `diffs.push(data[i] - data[i-1])` loop. */
  method Differences(data: seq<real>) returns (diffs: seq<real>)
    ensures diffs == Arima.DiffOnce(data)
  {
    diffs := [];
    if |data| == 0 {
      return;
    }
    var i := 1;
    while i < |data|
      invariant 1 <= i <= |data|
      invariant |diffs| == i - 1
      invariant forall k :: 0 <= k < i - 1 ==> diffs[k] == data[k + 1] - data[k]
    {
      diffs := diffs + [data[i] - data[i - 1]];
      i := i + 1;
    }
  }

  /** The `prediction += drift + ar` loop. */
  method Drift(baseRate: real, avgDiff: real, ac1: real, days: nat) returns (prediction: real)
    ensures prediction == DriftPath(baseRate, avgDiff, ac1, days)
  {
    prediction := baseRate;
    var i := 0;
    while i < days
      invariant 0 <= i <= days
      invariant prediction == DriftPath(baseRate, avgDiff, ac1, i)
    {
      var drift := avgDiff * 0.5;
      var ar := ac1 * (prediction - baseRate) * 0.3;
      prediction := prediction + drift + ar;
      i := i + 1;
    }
  }

  method CalculateArimaPrediction(data: seq<real>, baseRate: real, days: nat) returns (prediction: real)
    ensures prediction == ArimaComponent(data, baseRate, days)
  {
    if |data| < 10 {
      return baseRate;
    }
    var diffs := Differences(data);
    var avgDiff := Sum(diffs) / |diffs| as real;
    var ac1 := CalculateAutocorrelation(diffs, 1);
    prediction := Drift(baseRate, avgDiff, ac1, days);
  }

  // ---------------------------------------------------------------------
  // Linear regression
  // ---------------------------------------------------------------------

  /** `0 + 1 + ... + (n - 1)`. */
  function IndexSum(n: nat): int {
    if n == 0 then 0 else IndexSum(n - 1) + (n - 1)
  }

  /** `0 + 1 + 4 + ... + (n - 1)^2`. */
  function IndexSquareSum(n: nat): int {
    if n == 0 then 0 else IndexSquareSum(n - 1) + (n - 1) * (n - 1)
  }

  /** `sum of i * y[i]` over the first `k` i. */
  function CrossSum(data: seq<real>, k: nat): real
    requires k <= |data|
  {
    if k == 0 then 0.0 else CrossSum(data, k - 1) + (k - 1) as real * data[k - 1]
  }

  lemma {:induction false} IndexSums(n: nat)
    ensures 2 * IndexSum(n) == n * (n - 1)
    ensures 6 * IndexSquareSum(n) == (n - 1) * n * (2 * n - 1)
  {
    if n > 0 {
      IndexSums(n - 1);
    }
  }

  /** The regression's denominator `n * sumXX - sumX * sumX` over the
      indices `0 .. n - 1`. */
  function Spread(n: nat): real {
    n as real * IndexSquareSum(n) as real - IndexSum(n) as real * IndexSum(n) as real
  }

  /** The denominator is positive once there are two points. */
  lemma DenominatorPositive(n: nat)
    requires n >= 2
    ensures Spread(n) > 0.0
  {
    IndexSums(n);
    var s, q := IndexSum(n), IndexSquareSum(n);
    DenominatorAlgebra(n, s, q);
    CastProduct(n, q);
    CastProduct(s, s);
    assert Spread(n) == (n * q) as real - (s * s) as real;
  }

  lemma CastProduct(a: int, b: int)
    ensures a as real * b as real == (a * b) as real
  {
  }

  /** `12 * (n * q - s * s) == n * n * (n - 1) * (n + 1)` for the closed
      forms of the two index sums. */
  lemma DenominatorAlgebra(n: int, s: int, q: int)
    requires n >= 2 && 2 * s == n * (n - 1) && 6 * q == (n - 1) * n * (2 * n - 1)
    ensures n * q - s * s > 0
  {
    var m := n * n * (n - 1);
    calc {
      12 * (n * q - s * s);
      2 * n * (6 * q) - 3 * (2 * s) * (2 * s);
      2 * n * ((n - 1) * n * (2 * n - 1)) - 3 * (n * (n - 1)) * (n * (n - 1));
      2 * m * (2 * n - 1) - 3 * m * (n - 1);
      m * (n + 1);
    }
    assert n * n > 0;
    assert m > 0;
    assert m * (n + 1) > 0;
  }

  /** The least-squares slope from the sums over `n` points and the
      denominator `spread`. */
  function Slope(n: real, sumX: real, sumY: real, sumXY: real, spread: real): (slope: real)
    requires spread != 0.0
    ensures slope == 0.0 <==> n * sumXY == sumX * sumY
    ensures spread > 0.0 ==> (slope > 0.0 <==> n * sumXY > sumX * sumY)
  {
    (n * sumXY - sumX * sumY) / spread
  }

  /** The least-squares intercept for a given slope: the line passes
      through the mean point `(sumX / n, sumY / n)`. */
  function Intercept(n: real, sumX: real, sumY: real, slope: real): (b: real)
    requires n > 0.0
    ensures b + slope * (sumX / n) == sumY / n
  {
    (sumY - slope * sumX) / n
  }

  /** Flat data, where `sumY = n * c` and `sumXY = c * sumX`, has slope 0. */
  lemma SlopeOfFlat(n: real, sumX: real, spread: real, c: real)
    requires spread != 0.0
    ensures Slope(n, sumX, n * c, c * sumX, spread) == 0.0
  {
    assert n * (c * sumX) - sumX * (n * c) == 0.0;
    DivideFacts(spread, 0.0);
  }

  /** With slope 0 the intercept is the mean `c`. */
  lemma InterceptOfFlat(n: real, sumX: real, c: real)
    requires n > 0.0
    ensures Intercept(n, sumX, n * c, 0.0) == c
  {
    DivideFacts(n, c);
  }

  /** `calculateLinearRegression(data, baseRate, days)`: the value of the
      least-squares line through `(i, data[i])`, `days` steps after the last
      point. */
  function LinearComponent(data: seq<real>, baseRate: real, days: nat): (r: real)
    ensures |data| < 5 ==> r == baseRate
  {
    if |data| < 5 then baseRate
    else
      var n := |data|;
      DenominatorPositive(n);
      var sumX, sumY := IndexSum(n) as real, Sum(data);
      var slope := Slope(n as real, sumX, sumY, CrossSum(data, n), Spread(n));
      Intercept(n as real, sumX, sumY, slope) + slope * (n + days - 1) as real
  }

  // ---------------------------------------------------------------------
  // Exponential smoothing
  // ---------------------------------------------------------------------

  /** The smoothed level after the first `k` values, with alpha = 0.3. */
  function Smoothed(data: seq<real>, k: nat): (level: real)
    requires 1 <= k <= |data|
    ensures (forall i :: 0 <= i < k ==> data[i] == data[0]) ==> level == data[0]
  {
    if k == 1 then data[0] else 0.3 * data[k - 1] + 0.7 * Smoothed(data, k - 1)
  }

  /** The smoothed level stays within the range of the values. */
  lemma {:induction false} SmoothedWithinRange(data: seq<real>, k: nat, lo: real, hi: real)
    requires 1 <= k <= |data|
    requires forall i :: 0 <= i < |data| ==> lo <= data[i] <= hi
    ensures lo <= Smoothed(data, k) <= hi
  {
    if k > 1 {
      SmoothedWithinRange(data, k - 1, lo, hi);
    }
  }

  /** `calculateExponentialSmoothing(data, baseRate, days)`. */
  function SmoothingComponent(data: seq<real>, baseRate: real, days: nat): (r: real)
    ensures |data| < 3 ==> r == baseRate
  {
    if |data| < 3 then baseRate
    else
      var n := |data|;
      Smoothed(data, n) + (data[n - 1] - data[n - 3]) / 2.0 * days as real * 0.5
  }

  method CalculateExponentialSmoothing(data: seq<real>, baseRate: real, days: nat) returns (r: real)
    ensures r == SmoothingComponent(data, baseRate, days)
  {
    if |data| < 3 {
      return baseRate;
    }
    var alpha := 0.3;
    var smoothed: real := data[0];
    var i := 1;
    while i < |data|
      invariant 1 <= i <= |data|
      invariant smoothed == Smoothed(data, i)
    {
      smoothed := alpha * data[i] + (1.0 - alpha) * smoothed;
      i := i + 1;
    }
    var trend := (data[|data| - 1] - data[|data| - 3]) / 2.0;
    r := smoothed + trend * days as real * 0.5;
  }

  // ---------------------------------------------------------------------
  // Moving-average crossover
  // ---------------------------------------------------------------------

  /** The mean of the last `k` values, `k` at most the length. */
  function TailMean(data: seq<real>, k: nat): (m: real)
    requires Positive(data) && 1 <= k <= |data|
    ensures m > 0.0
  {
    SumPositive(data[|data| - k..]);
    Sum(data[|data| - k..]) / k as real
  }

  /** `calculateMovingAveragePrediction(data, baseRate, days)`. */
  function MovingAverageComponent(data: seq<real>, baseRate: real, days: nat): (r: real)
    requires Positive(data)
    ensures |data| < 20 ==> r == baseRate
  {
    if |data| < 20 then baseRate
    else
      var ma5 := TailMean(data, 5);
      var ma20 := TailMean(data, 20);
      var momentum := (ma5 - ma20) / ma20;
      baseRate + momentum * baseRate * 0.02 * days as real
  }

  // ---------------------------------------------------------------------
  // Market measures
  // ---------------------------------------------------------------------

  /** The relative move from `prev` to `cur`. */
  function Change(prev: real, cur: real): real
    requires prev != 0.0
  {
    (cur - prev) / prev
  }

  /** `(x[i] - x[i-1]) / x[i-1]` for every `i >= 1`. */
  function MarketReturns(data: seq<real>): (rs: seq<real>)
    requires Positive(data)
    ensures |rs| == if |data| == 0 then 0 else |data| - 1
  {
    if |data| <= 1 then []
    else seq(|data| - 1, i requires 0 <= i < |data| - 1 => Change(data[i], data[i + 1]))
  }

  /** `calculateMarketVolatility(data)`: the annualised standard deviation of
      the returns, or 0.02 below ten points. */
  function MarketVolatility(data: seq<real>, sqrt: real -> real): (v: real)
    requires Positive(data)
    ensures |data| < 10 ==> v == 0.02
    ensures IsSqrt(sqrt) ==> v >= 0.0
  {
    if |data| < 10 then 0.02
    else
      var rs := MarketReturns(data);
      var annualised := Sum(SquaredDeviations(rs, Mean(rs))) / |rs| as real * 252.0;
      assert annualised >= 0.0 by { SumNonNegative(SquaredDeviations(rs, Mean(rs))); }
      sqrt(annualised)
  }

  /** The `returns.push((data[i] - data[i-1]) / data[i-1])` loop. */
  method Returns(data: seq<real>) returns (rets: seq<real>)
    requires Positive(data)
    ensures rets == MarketReturns(data)
  {
    rets := [];
    if |data| <= 1 {
      return;
    }
    var i := 1;
    while i < |data|
      invariant 1 <= i <= |data|
      invariant |rets| == i - 1
      invariant forall k :: 0 <= k < i - 1 ==> rets[k] == Change(data[k], data[k + 1])
    {
      rets := rets + [Change(data[i - 1], data[i])];
      i := i + 1;
    }
  }

  method CalculateMarketVolatility(data: seq<real>, sqrt: real -> real) returns (v: real)
    requires Positive(data)
    ensures v == MarketVolatility(data, sqrt)
  {
    if |data| < 10 {
      return 0.02;
    }
    var rets := Returns(data);
    var avgReturn := Sum(rets) / |rets| as real;
    var variance := Sum(SquaredDeviations(rets, avgReturn)) / |rets| as real;
    v := sqrt(variance * 252.0);
  }

  /** How many of `recent[i]` (beyond the first, which always counts) move
      in the direction `rising`. */
  function CountConsistent(recent: seq<real>, rising: bool, k: nat): (c: nat)
    requires k <= |recent|
    ensures c <= k
    ensures k >= 1 ==> c >= 1
  {
    if k == 0 then 0
    else CountConsistent(recent, rising, k - 1) + (if k - 1 == 0 || (recent[k - 1] > recent[k - 2]) == rising then 1 else 0)
  }

  /** `calculateTrendStrength(data)`: the relative move of the last ten
      values' mean over the ten before, weighted by how consistently the last
      ten moved that way; 0.5 below twenty points. */
  function TrendStrength(data: seq<real>): (t: real)
    requires Positive(data)
    ensures t >= 0.0
  {
    if |data| < 20 then 0.5
    else
      var n := |data|;
      var recent := data[n - 10..];
      var older := data[n - 20..n - 10];
      SumPositive(older);
      var recentAvg := Sum(recent) / 10.0;
      var olderAvg := Sum(older) / 10.0;
      var direction := (recentAvg - olderAvg) / olderAvg;
      var consistency := CountConsistent(recent, recentAvg > olderAvg, 10) as real / 10.0;
      Abs(direction) * consistency
  }

  /** How many values lie more than 10% of the median away from it. */
  function CountOutliers(data: seq<real>, median: real): (c: nat)
    ensures c <= |data|
  {
    if |data| == 0 then 0
    else CountOutliers(data[..|data| - 1], median) + (if Abs(data[|data| - 1] - median) > median * 0.1 then 1 else 0)
  }

  function Identity(x: real): real { x }

  /** The quality score from the point count and the outlier count. */
  function QualityScore(n: nat, outliers: nat): (q: real)
    requires 0 < n && outliers <= n
    ensures 1.0 / 3.0 < q <= 1.0
  {
    var completeness := Min(1.0, n as real / 60.0);
    var share := outliers as real / n as real;
    FractionBounds(outliers as real, n as real);
    var total := completeness + 1.0 + (1.0 - share);
    assert 1.0 < total <= 3.0;
    total / 3.0
  }

  /** `calculateDataQuality(data)`: the mean of completeness (up to sixty
      points), recency (taken as 1) and the share of values that are not
      outliers around the median. */
  function DataQuality(data: seq<real>): (q: real)
    ensures |data| == 0 ==> q == 0.5
    ensures |data| > 0 ==> 1.0 / 3.0 < q <= 1.0
  {
    if |data| == 0 then 0.5
    else
      var median := SortBy(data, Identity)[|data| / 2];
      QualityScore(|data|, CountOutliers(data, median))
  }

  datatype Regime = Normal | Volatile | Crisis

  /** `detectMarketRegime(data)`. */
  function DetectRegime(volatility: real): (r: Regime)
    ensures r == Crisis <==> volatility > 0.25
    ensures r == Normal <==> volatility <= 0.15
  {
    if volatility > 0.25 then Crisis else if volatility > 0.15 then Volatile else Normal
  }

  function RegimeFactor(r: Regime): (f: real)
    ensures 0.7 <= f <= 1.0
  {
    match r
    case Crisis => 0.7
    case Volatile => 0.85
    case Normal => 1.0
  }

  /** A calmer market never gets a smaller regime factor. */
  lemma RegimeFactorMonotone(v1: real, v2: real)
    requires v1 <= v2
    ensures RegimeFactor(DetectRegime(v2)) <= RegimeFactor(DetectRegime(v1))
  {
  }

  // ---------------------------------------------------------------------
  // The ensemble
  // ---------------------------------------------------------------------

  /** The fixed blend: ARIMA 40%, regression 25%, smoothing 20%, moving
      average 15%. */
  function Blend(arima: real, linear: real, smoothing: real, ma: real): (r: real)
    ensures r - ma == (arima - ma) * 0.4 + (linear - ma) * 0.25 + (smoothing - ma) * 0.2
  {
    arima * 0.4 + linear * 0.25 + smoothing * 0.2 + ma * 0.15
  }

  /** The weights sum to one: four equal forecasts blend to that forecast,
      and the blend lies between the least and the greatest of the four. */
  lemma BlendIsWeightedMean(arima: real, linear: real, smoothing: real, ma: real, lo: real, hi: real)
    requires lo <= arima <= hi && lo <= linear <= hi && lo <= smoothing <= hi && lo <= ma <= hi
    ensures lo <= Blend(arima, linear, smoothing, ma) <= hi
    ensures Blend(lo, lo, lo, lo) == lo
  {
  }

  /** Lower volatility, higher confidence: `1 / sqrt(volatility + 0.1)`
      kept within [0.7, 1.3]. */
  function VolatilityAdjust(volatility: real, sqrt: real -> real): (f: real)
    requires IsSqrt(sqrt) && volatility >= 0.0
    ensures 0.7 <= f <= 1.3
  {
    Clamp(0.7, 1.3, 1.0 / sqrt(volatility + 0.1))
  }

  /** Stronger trend, higher confidence: `0.9 + 0.3 * trend` kept within
      [0.8, 1.2]. */
  function TrendAdjust(trend: real): (f: real)
    ensures 0.8 <= f <= 1.2
    ensures trend <= -1.0 / 3.0 ==> f == 0.8
    ensures trend >= 1.0 ==> f == 1.2
  {
    Clamp(0.8, 1.2, 0.9 + trend * 0.3)
  }

  /** The data quality kept within [0.8, 1.1]. */
  function QualityAdjust(quality: real): (f: real)
    ensures 0.8 <= f <= 1.1
    ensures 0.8 <= quality <= 1.1 ==> f == quality
  {
    Clamp(0.8, 1.1, quality)
  }

  /** The product of the four adjustments. */
  function Adjustment(volatility: real, trend: real, quality: real, sqrt: real -> real): (k: real)
    requires IsSqrt(sqrt) && volatility >= 0.0
    ensures k > 0.0
  {
    VolatilityAdjust(volatility, sqrt) * TrendAdjust(trend) * QualityAdjust(quality) * RegimeFactor(DetectRegime(volatility))
  }

  /** The confidence before rounding for horizon `day`: the base
      `90 - 3 * (day - 1)` scaled by the four adjustments, kept within
      [60, 95]. */
  function RawConfidence(day: nat, volatility: real, trend: real, quality: real, sqrt: real -> real): (c: real)
    requires IsSqrt(sqrt) && volatility >= 0.0
    ensures 60.0 <= c <= 95.0
  {
    ScaledConfidence(day, Adjustment(volatility, trend, quality, sqrt))
  }

  /** `90 - (day - 1) * 3`: three points less for every further day, from
      90 on day 1 to 72 on day 7. */
  function BaseConfidence(day: nat): (c: real)
    ensures day >= 1 ==> c <= 90.0
    ensures day <= Horizons ==> c >= 72.0
  {
    90.0 - (day as real - 1.0) * 3.0
  }

  /** The base confidence of `day` scaled by `k`, kept within [60, 95]. */
  function ScaledConfidence(day: nat, k: real): (c: real)
    ensures 60.0 <= c <= 95.0
    ensures 60.0 <= BaseConfidence(day) * k <= 95.0 ==> c == BaseConfidence(day) * k
  {
    Clamp(60.0, 95.0, BaseConfidence(day) * k)
  }

  /** For a positive scale, a later day never gets a higher confidence. */
  lemma ScaledConfidenceMonotone(day1: nat, day2: nat, k: real)
    requires day1 <= day2 && k > 0.0
    ensures ScaledConfidence(day2, k) <= ScaledConfidence(day1, k)
  {
    var x1, x2 := BaseConfidence(day1) * k, BaseConfidence(day2) * k;
    ScaleMonotone(BaseConfidence(day1), BaseConfidence(day2), k);
    ClampMonotone(60.0, 95.0, x2, x1);
    assert ScaledConfidence(day1, k) == Clamp(60.0, 95.0, x1);
    assert ScaledConfidence(day2, k) == Clamp(60.0, 95.0, x2);
  }

  /** A later horizon never gets a higher confidence. */
  lemma ConfidenceNonIncreasing(day1: nat, day2: nat, volatility: real, trend: real, quality: real, sqrt: real -> real)
    requires IsSqrt(sqrt) && volatility >= 0.0 && day1 <= day2
    ensures RawConfidence(day2, volatility, trend, quality, sqrt) <= RawConfidence(day1, volatility, trend, quality, sqrt)
  {
    ScaledConfidenceMonotone(day1, day2, Adjustment(volatility, trend, quality, sqrt));
  }

  datatype EnhancedPrediction = EnhancedPrediction(day: nat, predictedRate: real, confidence: int, modelSource: string, volatilityAdjusted: bool)

  /** The prediction for horizon `day` (1 to 7). */
  function PredictionAt(data: seq<real>, baseRate: real, day: nat, sqrt: real -> real): (p: EnhancedPrediction)
    requires Positive(data) && IsSqrt(sqrt)
    ensures p.day == day && p.modelSource == "ensemble" && p.volatilityAdjusted
    ensures 60 <= p.confidence <= 95
  {
    var ensemble := Blend(ArimaComponent(data, baseRate, day), LinearComponent(data, baseRate, day),
      SmoothingComponent(data, baseRate, day), MovingAverageComponent(data, baseRate, day));
    var confidence := RawConfidence(day, MarketVolatility(data, sqrt), TrendStrength(data), DataQuality(data), sqrt);
    EnhancedPrediction(day, Round2(ensemble), MathRound(confidence), "ensemble", true)
  }

  /** On fewer than three points every forecaster falls back to the base
      rate, so every prediction is the base rate to two decimals. */
  lemma ShortSeriesPredictsBase(data: seq<real>, baseRate: real, day: nat, sqrt: real -> real)
    requires Positive(data) && IsSqrt(sqrt) && |data| < 3
    ensures PredictionAt(data, baseRate, day, sqrt).predictedRate == Round2(baseRate)
  {
    BlendIsWeightedMean(baseRate, baseRate, baseRate, baseRate, baseRate, baseRate);
  }

  /** Every value of the series is `c`. */
  predicate Flat(data: seq<real>, c: real) {
    forall i :: 0 <= i < |data| ==> data[i] == c
  }

  lemma FlatArima(data: seq<real>, c: real, day: nat)
    requires Flat(data, c)
    ensures ArimaComponent(data, c, day) == c
  {
    if |data| >= 10 {
      var diffs := Arima.DiffOnce(data);
      forall i | 0 <= i < |diffs| ensures diffs[i] == 0.0 {
        assert diffs[i] == data[i + 1] - data[i];
      }
      SumConstant(diffs, 0.0);
      DivideFacts(|diffs| as real, 0.0);
      assert Mean(diffs) == 0.0;
      DriftPathWithoutDrift(c, Autocorrelation(diffs, 1), day);
    }
  }

  lemma {:induction false} CrossSumOfConstant(data: seq<real>, c: real, k: nat)
    requires k <= |data| && Flat(data, c)
    ensures CrossSum(data, k) == c * IndexSum(k) as real
  {
    if k > 0 {
      CrossSumOfConstant(data, c, k - 1);
    }
  }

  /** The two sums a flat series yields. */
  lemma FlatSums(data: seq<real>, c: real)
    requires Flat(data, c)
    ensures Sum(data) == |data| as real * c
    ensures CrossSum(data, |data|) == c * IndexSum(|data|) as real
  {
    SumConstant(data, c);
    CrossSumOfConstant(data, c, |data|);
  }

  /** The regression line through a flat series is flat at its level. */
  lemma FlatLinear(data: seq<real>, c: real, day: nat)
    requires Flat(data, c)
    ensures LinearComponent(data, c, day) == c
  {
    var n := |data|;
    if n >= 5 {
      FlatSums(data, c);
      DenominatorPositive(n);
      var sumX := IndexSum(n) as real;
      SlopeOfFlat(n as real, sumX, Spread(n), c);
      InterceptOfFlat(n as real, sumX, c);
      var slope := Slope(n as real, sumX, Sum(data), CrossSum(data, n), Spread(n));
      assert slope == 0.0;
      assert Intercept(n as real, sumX, Sum(data), slope) == c;
    }
  }

  lemma FlatSmoothing(data: seq<real>, c: real, day: nat)
    requires Flat(data, c)
    ensures SmoothingComponent(data, c, day) == c
  {
    if |data| >= 3 {
      SmoothedWithinRange(data, |data|, c, c);
    }
  }

  lemma FlatMovingAverage(data: seq<real>, c: real, day: nat)
    requires Positive(data) && Flat(data, c)
    ensures MovingAverageComponent(data, c, day) == c
  {
    var n := |data|;
    if n >= 20 {
      SumConstant(data[n - 5..], c);
      SumConstant(data[n - 20..], c);
    }
  }

  /** A flat series predicts its own level on every horizon. */
  lemma FlatSeriesPredictsLevel(data: seq<real>, c: real, day: nat, sqrt: real -> real)
    requires Positive(data) && IsSqrt(sqrt) && Flat(data, c)
    ensures PredictionAt(data, c, day, sqrt).predictedRate == Round2(c)
  {
    FlatArima(data, c, day);
    FlatLinear(data, c, day);
    FlatSmoothing(data, c, day);
    FlatMovingAverage(data, c, day);
    BlendIsWeightedMean(c, c, c, c, c, c);
  }

  /** One pass of the horizon loop: the four forecasts, their blend and
      the confidence for horizon `day`. */
  method PredictHorizon(data: seq<real>, baseRate: real, day: nat, sqrt: real -> real) returns (p: EnhancedPrediction)
    requires Positive(data) && IsSqrt(sqrt)
    ensures p == PredictionAt(data, baseRate, day, sqrt)
  {
    var arimaPrediction := CalculateArimaPrediction(data, baseRate, day);
    var linearPrediction := LinearComponent(data, baseRate, day);
    var expSmoothingPrediction := CalculateExponentialSmoothing(data, baseRate, day);
    var maPrediction := MovingAverageComponent(data, baseRate, day);
    var ensemblePrediction := Blend(arimaPrediction, linearPrediction, expSmoothingPrediction, maPrediction);
    var marketVolatility := CalculateMarketVolatility(data, sqrt);
    var finalConfidence := RawConfidence(day, marketVolatility, TrendStrength(data), DataQuality(data), sqrt);
    p := EnhancedPrediction(day, Round2(ensemblePrediction), MathRound(finalConfidence), "ensemble", true);
  }

  /** The predictions for days 1 to `n`: the one for day `k` sits at index
      `k - 1`. */
  function Forecasts(data: seq<real>, baseRate: real, n: nat, sqrt: real -> real): (ps: seq<EnhancedPrediction>)
    requires Positive(data) && IsSqrt(sqrt)
    ensures |ps| == n
  {
    if n == 0 then [] else Forecasts(data, baseRate, n - 1, sqrt) + [PredictionAt(data, baseRate, n, sqrt)]
  }

  lemma {:induction false} ForecastsAt(data: seq<real>, baseRate: real, n: nat, sqrt: real -> real)
    requires Positive(data) && IsSqrt(sqrt)
    ensures forall k :: 0 <= k < n ==> Forecasts(data, baseRate, n, sqrt)[k] == PredictionAt(data, baseRate, k + 1, sqrt)
  {
    if n > 0 {
      ForecastsAt(data, baseRate, n - 1, sqrt);
    }
  }

  /** `generateEnsemblePredictions(data, baseRate)`, with `Math.sqrt` as
      `sqrt`. */
  method GenerateEnsemblePredictions(data: seq<real>, baseRate: real, sqrt: real -> real)
    returns (predictions: seq<EnhancedPrediction>)
    requires Positive(data) && IsSqrt(sqrt)
    ensures predictions == Forecasts(data, baseRate, Horizons, sqrt)
  {
    predictions := [];
    var i := 0;
    while i < Horizons
      invariant 0 <= i <= Horizons
      invariant predictions == Forecasts(data, baseRate, i, sqrt)
    {
      var prediction := PredictHorizon(data, baseRate, i + 1, sqrt);
      assert Forecasts(data, baseRate, i + 1, sqrt) == predictions + [prediction];
      predictions := predictions + [prediction];
      i := i + 1;
    }
  }
}
