/** components/TechnicalAnalysis.tsx: the simple moving average and the
    Bollinger bands drawn under the chart, computed over the rates sorted by
    timestamp. A `null` entry of the source is `None` here. */
module Technical {
  import opened Optional
  import opened JsNumber
  import opened Sorting

  /** The default period of `calculateBollingerBands` and of the short SMA. */
  const DefaultPeriod: nat := 20
  /** The period of the long SMA. */
  const LongPeriod: nat := 50

  /** `data.slice(idx - period + 1, idx + 1)`: the `period` values ending at
      `idx`. */
  function Trailing(data: seq<real>, idx: nat, period: nat): (w: seq<real>)
    requires 1 <= period && period - 1 <= idx < |data|
    ensures |w| == period
  {
    data[idx + 1 - period..idx + 1]
  }

  /** `calculateSMA(data, period)`. */
  function Sma(data: seq<real>, period: nat): (sma: seq<Option<real>>)
    requires period >= 1
    ensures |sma| == |data|
    ensures forall i :: 0 <= i < |data| ==> (sma[i].None? <==> i < period - 1)
  {
    seq(|data|, i requires 0 <= i < |data| =>
      if i < period - 1 then None else Some(WindowMean(data, i, period)))
  }

  /** The mean of the window ending at `idx`. */
  function WindowMean(data: seq<real>, idx: nat, period: nat): real
    requires 1 <= period && period - 1 <= idx < |data|
  {
    Sum(Trailing(data, idx, period)) / period as real
  }

  /** A window of values within [lo, hi] averages to within [lo, hi]. */
  lemma WindowMeanWithinRange(data: seq<real>, idx: nat, period: nat, lo: real, hi: real)
    requires 1 <= period && period - 1 <= idx < |data|
    requires forall i :: 0 <= i < |data| ==> lo <= data[i] <= hi
    ensures lo <= WindowMean(data, idx, period) <= hi
  {
    var w := Trailing(data, idx, period);
    forall k | 0 <= k < |w|
      ensures lo <= w[k] <= hi
    {
      assert w[k] == data[idx + 1 - period + k];
    }
    SumBounds(w, lo, hi);
    AverageBounds(Sum(w), period as real, lo, hi);
  }

  /** Every average lies between the least and the greatest value of the
      series. */
  lemma SmaWithinRange(data: seq<real>, period: nat, lo: real, hi: real)
    requires period >= 1
    requires forall i :: 0 <= i < |data| ==> lo <= data[i] <= hi
    ensures forall i :: 0 <= i < |data| && Sma(data, period)[i].Some? ==> lo <= Sma(data, period)[i].value <= hi
  {
    forall i | 0 <= i < |data| && Sma(data, period)[i].Some?
      ensures lo <= Sma(data, period)[i].value <= hi
    {
      WindowMeanWithinRange(data, i, period, lo, hi);
    }
  }

  /** A constant series averages to itself. */
  lemma SmaOfConstant(data: seq<real>, period: nat, c: real)
    requires period >= 1
    requires forall i :: 0 <= i < |data| ==> data[i] == c
    ensures forall i :: period - 1 <= i < |data| ==> Sma(data, period)[i] == Some(c)
  {
    SmaWithinRange(data, period, c, c);
  }

  /** The population standard deviation of the window ending at `idx`. */
  function WindowDeviation(data: seq<real>, idx: nat, period: nat, sqrt: real -> real): real
    requires 1 <= period && period - 1 <= idx < |data|
  {
    var w := Trailing(data, idx, period);
    sqrt(Sum(SquaredDeviations(w, WindowMean(data, idx, period))) / period as real)
  }

  datatype Bands = Bands(upper: seq<Option<real>>, middle: seq<Option<real>>, lower: seq<Option<real>>)

  /** `calculateBollingerBands(data, period)`, with `Math.sqrt` as `sqrt`:
      the SMA plus and minus twice the window's standard deviation. */
  function Bollinger(data: seq<real>, period: nat, sqrt: real -> real): (b: Bands)
    requires period >= 1
    ensures |b.upper| == |data| && |b.lower| == |data|
    ensures b.middle == Sma(data, period)
    ensures forall i :: 0 <= i < |data| ==> (b.upper[i].None? <==> i < period - 1) && (b.lower[i].None? <==> i < period - 1)
  {
    var sma := Sma(data, period);
    Bands(
      seq(|data|, i requires 0 <= i < |data| =>
        if i < period - 1 then None else Some(sma[i].value + WindowDeviation(data, i, period, sqrt) * 2.0)),
      sma,
      seq(|data|, i requires 0 <= i < |data| =>
        if i < period - 1 then None else Some(sma[i].value - WindowDeviation(data, i, period, sqrt) * 2.0)))
  }

  /** The lower band never lies above the middle one, nor the middle above
      the upper, and the two are symmetric about the middle. */
  lemma BandsOrdered(data: seq<real>, period: nat, sqrt: real -> real)
    requires period >= 1 && IsSqrt(sqrt)
    ensures var b := Bollinger(data, period, sqrt);
      forall i :: period - 1 <= i < |data| ==>
        b.lower[i].value <= b.middle[i].value <= b.upper[i].value &&
        b.upper[i].value - b.middle[i].value == b.middle[i].value - b.lower[i].value
  {
    var b := Bollinger(data, period, sqrt);
    forall i | period - 1 <= i < |data|
      ensures b.lower[i].value <= b.middle[i].value <= b.upper[i].value
      ensures b.upper[i].value - b.middle[i].value == b.middle[i].value - b.lower[i].value
    {
      var m := WindowMean(data, i, period);
      var d := WindowDeviation(data, i, period, sqrt);
      DeviationNonNegative(data, i, period, sqrt);
      assert b.middle[i].value == m;
      assert b.upper[i].value == m + d * 2.0;
      assert b.lower[i].value == m - d * 2.0;
    }
  }

  lemma DeviationNonNegative(data: seq<real>, idx: nat, period: nat, sqrt: real -> real)
    requires 1 <= period && period - 1 <= idx < |data| && IsSqrt(sqrt)
    ensures WindowDeviation(data, idx, period, sqrt) >= 0.0
  {
    var w := Trailing(data, idx, period);
    var sq := SquaredDeviations(w, WindowMean(data, idx, period));
    SumNonNegative(sq);
    var v := Sum(sq) / period as real;
    assert v >= 0.0;
  }

  /** `xs.filter(x => x !== null)`. */
  function Present(xs: seq<Option<real>>): (vs: seq<real>)
    ensures |vs| <= |xs|
  {
    if |xs| == 0 then []
    else Present(xs[..|xs| - 1]) + (if xs[|xs| - 1].Some? then [xs[|xs| - 1].value] else [])
  }

  /** A list whose first `m` entries are null and the rest present keeps
      `max(0, n - m)` entries once the nulls are filtered out. */
  lemma {:induction false} PresentCount(xs: seq<Option<real>>, m: nat)
    requires forall i :: 0 <= i < |xs| ==> (xs[i].None? <==> i < m)
    ensures |Present(xs)| == if |xs| <= m then 0 else |xs| - m
  {
    if |xs| > 0 {
      PresentCount(xs[..|xs| - 1], m);
    }
  }

  /** One row of the historical series. */
  datatype HistoricalPoint = HistoricalPoint(rate: real, timestamp: int)

  /** The five lists the component stores. */
  datatype Indicators = Indicators(upperBand: seq<real>, middleBand: seq<real>, lowerBand: seq<real>, sma20: seq<real>, sma50: seq<real>)

  function ByTimestamp(p: HistoricalPoint): real {
    p.timestamp as real
  }

  /** The rates in ascending timestamp order. */
  function SortedRates(points: seq<HistoricalPoint>): (rates: seq<real>)
    ensures |rates| == |points|
    ensures var sorted := SortBy(points, ByTimestamp);
      forall i :: 0 <= i < |points| ==> rates[i] == sorted[i].rate
  {
    var sorted := SortBy(points, ByTimestamp);
    seq(|sorted|, i requires 0 <= i < |sorted| => sorted[i].rate)
  }

  /** The indicators computed after the series is sorted. */
  function ComputeIndicators(points: seq<HistoricalPoint>, sqrt: real -> real): (ind: Indicators)
  {
    var rates := SortedRates(points);
    var bands := Bollinger(rates, DefaultPeriod, sqrt);
    Indicators(Present(bands.upper), Present(bands.middle), Present(bands.lower),
      Present(Sma(rates, DefaultPeriod)), Present(Sma(rates, LongPeriod)))
  }

  /** Each 20-period list holds `max(0, n - 19)` values and the 50-period
      one `max(0, n - 49)`. */
  lemma IndicatorCounts(points: seq<HistoricalPoint>, sqrt: real -> real)
    ensures var ind := ComputeIndicators(points, sqrt);
      var n := |points|;
      var short := if n < DefaultPeriod then 0 else n - DefaultPeriod + 1;
      |ind.upperBand| == short && |ind.middleBand| == short && |ind.lowerBand| == short &&
      |ind.sma20| == short && |ind.sma50| == if n < LongPeriod then 0 else n - LongPeriod + 1
  {
    var rates := SortedRates(points);
    var bands := Bollinger(rates, DefaultPeriod, sqrt);
    PresentCount(bands.upper, DefaultPeriod - 1);
    PresentCount(bands.middle, DefaultPeriod - 1);
    PresentCount(bands.lower, DefaultPeriod - 1);
    PresentCount(Sma(rates, LongPeriod), LongPeriod - 1);
  }
}
