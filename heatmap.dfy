/** app/components/ForexHeatmap.tsx: a grid of the cross rates of five
    currencies. Each refresh perturbs a fixed table of rates by at most
    0.2% and records the percent change from the previous refresh. */
module Heatmap {
  import opened Optional
  import opened JsNumber

  /** The codes of the grid, in display order. */
  const Codes: seq<string> := ["KRW", "EUR", "USD", "JPY", "CNY"]

  /** The number of ordered pairs of distinct codes. */
  const PairCount: nat := 20

  /** The key `from/to` of a pair. */
  function PairKey(from: string, to: string): string {
    from + "/" + to
  }

  /** The table of `getInitialRate`. */
  const InitialRates: map<string, real> := map[
    PairKey("KRW", "USD") := 0.00075, PairKey("KRW", "JPY") := 0.11, PairKey("KRW", "CNY") := 0.0053, PairKey("KRW", "EUR") := 0.00069,
    PairKey("USD", "KRW") := 1330.42, PairKey("USD", "JPY") := 147.33, PairKey("USD", "CNY") := 7.14, PairKey("USD", "EUR") := 0.92,
    PairKey("JPY", "KRW") := 903.0, PairKey("JPY", "USD") := 0.0068, PairKey("JPY", "CNY") := 0.048, PairKey("JPY", "EUR") := 0.0062,
    PairKey("CNY", "KRW") := 186.33, PairKey("CNY", "USD") := 0.14, PairKey("CNY", "JPY") := 20.63, PairKey("CNY", "EUR") := 0.13,
    PairKey("EUR", "KRW") := 1450.53, PairKey("EUR", "USD") := 1.09, PairKey("EUR", "JPY") := 160.21, PairKey("EUR", "CNY") := 7.76]

  /** `getInitialRate(from, to)`: the table entry, or 1 for a pair the table
      does not hold. */
  function InitialRate(from: string, to: string): (r: real)
    ensures PairKey(from, to) in InitialRates ==> r == InitialRates[PairKey(from, to)]
    ensures PairKey(from, to) !in InitialRates ==> r == 1.0
    ensures r > 0.0
  {
    var key := PairKey(from, to);
    if key in InitialRates && InitialRates[key] != 0.0 then InitialRates[key] else 1.0
  }

  /** The table holds every ordered pair of distinct codes, so no pair of the
      grid falls back to 1. */
  lemma TableCoversGrid(from: string, to: string)
    requires from in Codes && to in Codes && from != to
    ensures PairKey(from, to) in InitialRates
  {
  }

  // ---------------------------------------------------------------------
  // The pair grid
  // ---------------------------------------------------------------------

  type Pair = (string, string)

  /** The pairs `(base, t)` for the targets `t` other than `base`, in order. */
  function Row(base: string, targets: seq<string>): (row: seq<Pair>)
    ensures forall p :: p in row ==> p.0 == base && p.1 in targets && p.1 != base
  {
    if |targets| == 0 then []
    else
      var t := targets[|targets| - 1];
      Row(base, targets[..|targets| - 1]) + (if t == base then [] else [(base, t)])
  }

  /** The rows of all bases, base-major: the order of the nested loops. */
  function Grid(bases: seq<string>, targets: seq<string>): (grid: seq<Pair>)
    ensures forall p :: p in grid ==> p.0 in bases && p.1 in targets && p.0 != p.1
  {
    if |bases| == 0 then []
    else Grid(bases[..|bases| - 1], targets) + Row(bases[|bases| - 1], targets)
  }

  predicate Distinct(s: seq<string>) {
    forall i, j :: 0 <= i < j < |s| ==> s[i] != s[j]
  }

  lemma {:induction false} RowCovers(base: string, targets: seq<string>, t: string)
    requires t in targets && t != base
    ensures (base, t) in Row(base, targets)
  {
    var n := |targets|;
    if targets[n - 1] != t {
      assert t in targets[..n - 1] by {
        var k :| 0 <= k < n && targets[k] == t;
        assert targets[..n - 1][k] == t;
      }
      RowCovers(base, targets[..n - 1], t);
    }
  }

  lemma {:induction false} RowLength(base: string, targets: seq<string>)
    requires Distinct(targets)
    ensures |Row(base, targets)| == if base in targets then |targets| - 1 else |targets|
  {
    var n := |targets|;
    if n > 0 {
      var init := targets[..n - 1];
      assert targets == init + [targets[n - 1]];
      RowLength(base, init);
      if targets[n - 1] == base {
        assert forall k :: 0 <= k < n - 1 ==> init[k] != targets[n - 1];
      }
    }
  }

  lemma {:induction false} GridCovers(bases: seq<string>, targets: seq<string>, a: string, b: string)
    requires a in bases && b in targets && a != b
    ensures (a, b) in Grid(bases, targets)
  {
    var n := |bases|;
    if bases[n - 1] == a {
      RowCovers(a, targets, b);
    } else {
      assert a in bases[..n - 1] by {
        var k :| 0 <= k < n && bases[k] == a;
        assert bases[..n - 1][k] == a;
      }
      GridCovers(bases[..n - 1], targets, a, b);
    }
  }

  lemma {:induction false} GridLength(bases: seq<string>, targets: seq<string>)
    requires Distinct(targets) && |targets| >= 1
    requires forall b :: b in bases ==> b in targets
    ensures |Grid(bases, targets)| == |bases| * (|targets| - 1)
  {
    var n := |bases|;
    if n > 0 {
      var init := bases[..n - 1];
      var m := |targets| - 1;
      assert forall b :: b in init ==> b in bases;
      GridLength(init, targets);
      assert bases[n - 1] in bases;
      RowLength(bases[n - 1], targets);
      assert |Grid(bases, targets)| == |Grid(init, targets)| + |Row(bases[n - 1], targets)|;
      MultiplySucc(n, m);
    }
  }

  lemma MultiplySucc(n: int, m: int)
    ensures (n - 1) * m + m == n * m
  {
  }

  /** The pairs `fetchExchangeRates` visits: twenty, none of a code with
      itself. */
  function PairList(): (pairs: seq<Pair>)
    ensures |pairs| == PairCount
    ensures forall k :: 0 <= k < |pairs| ==> pairs[k].0 != pairs[k].1
  {
    assert Distinct(Codes);
    GridLength(Codes, Codes);
    var pairs := Grid(Codes, Codes);
    assert forall k :: 0 <= k < |pairs| ==> pairs[k] in pairs;
    pairs
  }

  /** Every ordered pair of distinct codes is visited. */
  lemma PairListShape()
    ensures forall a, b :: a in Codes && b in Codes && a != b ==> (a, b) in PairList()
  {
    forall a, b | a in Codes && b in Codes && a != b
      ensures (a, b) in PairList()
    {
      GridCovers(Codes, Codes, a, b);
    }
  }

  // ---------------------------------------------------------------------
  // One refresh
  // ---------------------------------------------------------------------

  /** One cell of the grid; `lastUpdated` is the refresh instant. */
  datatype RateData = RateData(from: string, to: string, rate: real, change: real, lastUpdated: int)

  predicate AllPositive(rates: seq<RateData>) {
    forall k :: 0 <= k < |rates| ==> rates[k].rate > 0.0
  }

  /** `rates.find(rate => rate.from === from && rate.to === to)`, the search
      of `getRateData` and of the previous rate. */
  function FindRate(rates: seq<RateData>, from: string, to: string): (r: Option<RateData>)
    ensures r.Some? ==> r.value in rates && r.value.from == from && r.value.to == to
    ensures r.Some? ==> exists k :: 0 <= k < |rates| && rates[k] == r.value &&
                                   forall m :: 0 <= m < k ==> !(rates[m].from == from && rates[m].to == to)
    ensures r.None? <==> forall k :: 0 <= k < |rates| ==> !(rates[k].from == from && rates[k].to == to)
  {
    if |rates| == 0 then None
    else if rates[0].from == from && rates[0].to == to then Some(rates[0])
    else
      var rest := FindRate(rates[1..], from, to);
      if rest.Some? then
        var k :| 0 <= k < |rates[1..]| && rates[1..][k] == rest.value &&
          forall m :: 0 <= m < k ==> !(rates[1..][m].from == from && rates[1..][m].to == to);
        assert rates[k + 1] == rest.value;
        rest
      else rest
  }

  /** `(Math.random() - 0.5) * 0.4`: a variation in percent. */
  function Variation(draw: real): (v: real)
    requires 0.0 <= draw < 1.0
    ensures -0.2 <= v < 0.2
  {
    (draw - 0.5) * 0.4
  }

  /** `baseRate * (1 + variation / 100)`: the table rate moved by at most
      0.2%, so it stays positive. */
  function Nudged(baseRate: real, draw: real): (rate: real)
    requires baseRate > 0.0 && 0.0 <= draw < 1.0
    ensures baseRate * 0.998 <= rate <= baseRate * 1.002 && rate > 0.0
  {
    var f := 1.0 + Variation(draw) / 100.0;
    assert 0.998 <= f <= 1.002;
    ScaleMonotone(f, 0.998, baseRate);
    ScaleMonotone(1.002, f, baseRate);
    assert 0.998 * baseRate > 0.0;
    assert f * baseRate <= 1.002 * baseRate;
    assert 1.002 * baseRate == baseRate * 1.002;
    f * baseRate
  }

  /** The cell of `pair` for the random value `draw`, given the previous
      grid `prev`. */
  function Cell(prev: seq<RateData>, pair: Pair, draw: real, now: int): (cell: RateData)
    requires AllPositive(prev) && 0.0 <= draw < 1.0
    ensures cell.from == pair.0 && cell.to == pair.1 && cell.lastUpdated == now
    ensures FindRate(prev, pair.0, pair.1).None? ==> cell.change == 0.0
  {
    Priced(prev, pair, Nudged(InitialRate(pair.0, pair.1), draw), now)
  }

  /** The cell of `pair` at `newRate`: its change is the percent move from
      the rate the previous grid holds for the pair, or 0 when it holds
      none. */
  function Priced(prev: seq<RateData>, pair: Pair, newRate: real, now: int): (cell: RateData)
    requires AllPositive(prev)
    ensures cell.from == pair.0 && cell.to == pair.1 && cell.rate == newRate && cell.lastUpdated == now
    ensures FindRate(prev, pair.0, pair.1).None? ==> cell.change == 0.0
    ensures FindRate(prev, pair.0, pair.1).Some? ==>
      var before := FindRate(prev, pair.0, pair.1).value.rate;
      cell.change * before == (newRate - before) * 100.0
  {
    var prevRate := FindRate(prev, pair.0, pair.1);
    FoundPositive(prev, pair.0, pair.1);
    var change := if prevRate.Some? then PercentMove(prevRate.value.rate, newRate) else 0.0;
    RateData(pair.0, pair.1, newRate, change, now)
  }

  /** Each new rate lies within 0.2% of the table rate, so it stays
      positive. */
  lemma CellNearTable(prev: seq<RateData>, pair: Pair, draw: real, now: int)
    requires AllPositive(prev) && 0.0 <= draw < 1.0
    ensures var base := InitialRate(pair.0, pair.1);
      var rate := Cell(prev, pair, draw, now).rate;
      base * 0.998 <= rate <= base * 1.002 && rate > 0.0
  {
    assert Cell(prev, pair, draw, now).rate == Nudged(InitialRate(pair.0, pair.1), draw);
  }

  /** `(after - before) / before * 100`: the percent move from `before`. */
  function PercentMove(before: real, after: real): (p: real)
    requires before != 0.0
    ensures p * before == (after - before) * 100.0
  {
    (after - before) / before * 100.0
  }

  /** A rate found in a grid of positive rates is positive. */
  lemma FoundPositive(rates: seq<RateData>, from: string, to: string)
    requires AllPositive(rates)
    ensures FindRate(rates, from, to).Some? ==> FindRate(rates, from, to).value.rate > 0.0
  {
    var r := FindRate(rates, from, to);
    if r.Some? {
      var k :| 0 <= k < |rates| && rates[k] == r.value;
    }
  }

  /** The whole grid of one refresh: the cell of the k-th pair takes the
      k-th random value. */
  function Refreshed(prev: seq<RateData>, pairs: seq<Pair>, random: nat -> real, now: int): (grid: seq<RateData>)
    requires AllPositive(prev)
    requires forall k: nat :: 0.0 <= random(k) < 1.0
    ensures |grid| == |pairs|
    ensures forall k :: 0 <= k < |pairs| ==> grid[k] == Cell(prev, pairs[k], random(k), now)
  {
    seq(|pairs|, k requires 0 <= k < |pairs| => Cell(prev, pairs[k], random(k), now))
  }

  /** A refresh yields twenty cells, none of a code with itself, each within
      0.2% of its table rate. */
  lemma RefreshShape(prev: seq<RateData>, random: nat -> real, now: int)
    requires AllPositive(prev)
    requires forall k: nat :: 0.0 <= random(k) < 1.0
    ensures var grid := Refreshed(prev, PairList(), random, now);
      |grid| == PairCount && AllPositive(grid) &&
      forall k :: 0 <= k < |grid| ==>
        grid[k].from != grid[k].to &&
        InitialRate(grid[k].from, grid[k].to) * 0.998 <= grid[k].rate <= InitialRate(grid[k].from, grid[k].to) * 1.002
  {
    PairListShape();
    var grid := Refreshed(prev, PairList(), random, now);
    forall k | 0 <= k < |grid|
      ensures grid[k].rate > 0.0 && grid[k].from != grid[k].to
      ensures InitialRate(grid[k].from, grid[k].to) * 0.998 <= grid[k].rate <= InitialRate(grid[k].from, grid[k].to) * 1.002
    {
      CellNearTable(prev, PairList()[k], random(k), now);
    }
  }

  lemma RefreshedPositive(prev: seq<RateData>, pairs: seq<Pair>, random: nat -> real, now: int)
    requires AllPositive(prev)
    requires forall k: nat :: 0.0 <= random(k) < 1.0
    ensures AllPositive(Refreshed(prev, pairs, random, now))
  {
    forall k | 0 <= k < |pairs|
      ensures Refreshed(prev, pairs, random, now)[k].rate > 0.0
    {
      CellNearTable(prev, pairs[k], random(k), now);
    }
  }

  /** Refreshing one more pair appends its cell. */
  lemma RefreshedAppend(prev: seq<RateData>, pairs: seq<Pair>, p: Pair, random: nat -> real, now: int)
    requires AllPositive(prev)
    requires forall k: nat :: 0.0 <= random(k) < 1.0
    ensures Refreshed(prev, pairs + [p], random, now) == Refreshed(prev, pairs, random, now) + [Cell(prev, p, random(|pairs|), now)]
  {
    var a := Refreshed(prev, pairs + [p], random, now);
    var b := Refreshed(prev, pairs, random, now) + [Cell(prev, p, random(|pairs|), now)];
    assert |a| == |b|;
    forall k | 0 <= k < |a| ensures a[k] == b[k] {
      if k < |pairs| {
        assert (pairs + [p])[k] == pairs[k];
      }
    }
  }

  /** The first refresh, with no previous grid, reports no change. */
  lemma FirstRefreshHasNoChange(random: nat -> real, now: int)
    requires forall k: nat :: 0.0 <= random(k) < 1.0
    ensures forall k :: 0 <= k < |PairList()| ==> Refreshed([], PairList(), random, now)[k].change == 0.0
  {
  }

  /** The component's grid state. */
  class RateGrid {
    var exchangeRates: seq<RateData>

    /** Every stored rate is positive, so the next percent change is
        defined. */
    predicate Valid()
      reads this
    {
      AllPositive(exchangeRates)
    }

    constructor()
      ensures Valid() && exchangeRates == []
    {
      exchangeRates := [];
    }

    /** `getRateData(from, to)`. */
    function GetRateData(from: string, to: string): (r: Option<RateData>)
      reads this
      ensures r.Some? ==> r.value in exchangeRates && r.value.from == from && r.value.to == to
      ensures r.None? <==> forall k :: 0 <= k < |exchangeRates| ==> !(exchangeRates[k].from == from && exchangeRates[k].to == to)
    {
      FindRate(exchangeRates, from, to)
    }

    /** `fetchExchangeRates()` as the refresh button calls it: the change of
        each cell is measured against the grid on display. `random(k)` is
        the k-th `Math.random()` of the refresh and `now` its clock. */
    method FetchExchangeRates(random: nat -> real, now: int)
      requires Valid()
      requires forall k: nat :: 0.0 <= random(k) < 1.0
      modifies this
      ensures Valid()
      ensures exchangeRates == Refreshed(old(exchangeRates), PairList(), random, now)
    {
      var allRates := RefreshGrid(exchangeRates, random, now);
      RefreshedPositive(exchangeRates, PairList(), random, now);
      exchangeRates := allRates;
    }

    /** `fetchExchangeRates()` as the 30-second interval calls it. The
        interval is set up once, on mount, so it keeps the first render's
        function, whose `exchangeRates` is the empty grid: every polled
        refresh measures its changes against no previous cell. */
    method Poll(random: nat -> real, now: int)
      requires Valid()
      requires forall k: nat :: 0.0 <= random(k) < 1.0
      modifies this
      ensures Valid()
      ensures exchangeRates == Refreshed([], PairList(), random, now)
      ensures forall k :: 0 <= k < |exchangeRates| ==> exchangeRates[k].change == 0.0
    {
      var allRates := RefreshGrid([], random, now);
      RefreshedPositive([], PairList(), random, now);
      FirstRefreshHasNoChange(random, now);
      exchangeRates := allRates;
    }
  }

  /** The nested loops of `fetchExchangeRates`, against the grid `prev` the
      function closes over. */
  method RefreshGrid(prev: seq<RateData>, random: nat -> real, now: int) returns (allRates: seq<RateData>)
    requires AllPositive(prev)
    requires forall k: nat :: 0.0 <= random(k) < 1.0
    ensures allRates == Refreshed(prev, PairList(), random, now)
  {
    allRates := [];
    var i := 0;
    while i < |Codes|
      invariant 0 <= i <= |Codes|
      invariant allRates == Refreshed(prev, Grid(Codes[..i], Codes), random, now)
    {
      allRates := RefreshRow(prev, allRates, i, random, now);
      assert Codes[..i + 1][..i] == Codes[..i];
      i := i + 1;
    }
    assert Codes[..i] == Codes;
  }

  /** One more target extends a row by at most its pair. */
  lemma RowStep(base: string, targets: seq<string>, j: nat)
    requires j < |targets|
    ensures Row(base, targets[..j + 1]) ==
      Row(base, targets[..j]) + (if targets[j] == base then [] else [(base, targets[j])])
  {
    assert targets[..j + 1][..j] == targets[..j];
  }

  /** One step of the inner loop: a target other than the base appends
      the cell of its pair. */
  lemma RefreshStep(prev: seq<RateData>, done: seq<Pair>, base: string, targets: seq<string>, j: nat,
                    rates: seq<RateData>, random: nat -> real, now: int)
    requires AllPositive(prev) && j < |targets|
    requires forall k: nat :: 0.0 <= random(k) < 1.0
    requires rates == Refreshed(prev, done + Row(base, targets[..j]), random, now)
    ensures targets[j] == base ==> rates == Refreshed(prev, done + Row(base, targets[..j + 1]), random, now)
    ensures targets[j] != base ==>
      rates + [Cell(prev, (base, targets[j]), random(|rates|), now)] == Refreshed(prev, done + Row(base, targets[..j + 1]), random, now)
  {
    RowStep(base, targets, j);
    var pairs := done + Row(base, targets[..j]);
    if targets[j] != base {
      assert done + Row(base, targets[..j + 1]) == pairs + [(base, targets[j])];
      RefreshedAppend(prev, pairs, (base, targets[j]), random, now);
    }
  }

  /** One more base extends the grid by its row. */
  lemma GridStep(bases: seq<string>, targets: seq<string>, i: nat)
    requires i < |bases|
    ensures Grid(bases[..i + 1], targets) == Grid(bases[..i], targets) + Row(bases[i], targets)
  {
    assert bases[..i + 1][..i] == bases[..i];
  }

  /** The inner loop of `fetchExchangeRates`, over the targets of base
      `Codes[i]`, against the previous grid `prev`. */
  method RefreshRow(prev: seq<RateData>, allRates: seq<RateData>, i: nat, random: nat -> real, now: int)
    returns (rates: seq<RateData>)
    requires AllPositive(prev) && i < |Codes|
    requires forall k: nat :: 0.0 <= random(k) < 1.0
    requires allRates == Refreshed(prev, Grid(Codes[..i], Codes), random, now)
    ensures rates == Refreshed(prev, Grid(Codes[..i + 1], Codes), random, now)
  {
    var base := Codes[i];
    var done := Grid(Codes[..i], Codes);
    rates := allRates;
    var j := 0;
    while j < |Codes|
      invariant 0 <= j <= |Codes|
      invariant rates == Refreshed(prev, done + Row(base, Codes[..j]), random, now)
    {
      var target := Codes[j];
      RefreshStep(prev, done, base, Codes, j, rates, random, now);
      if base != target {
        var cell := Cell(prev, (base, target), random(|rates|), now);
        rates := rates + [cell];
      }
      j := j + 1;
    }
    assert Codes[..j] == Codes;
    GridStep(Codes, Codes, i);
  }

  // ---------------------------------------------------------------------
  // Display rules
  // ---------------------------------------------------------------------

  /** `formatRate(rate)`: how many decimals `toFixed` is given. */
  function FormatDecimals(rate: real): (d: nat)
    ensures 2 <= d <= 5
    ensures rate < 0.01 <==> d == 5
    ensures rate >= 10.0 <==> d == 2
  {
    if rate < 0.01 then 5 else if rate < 1.0 then 4 else if rate < 10.0 then 3 else 2
  }

  /** Smaller rates are shown with at least as many decimals. */
  lemma FormatDecimalsMonotone(r1: real, r2: real)
    requires r1 <= r2
    ensures FormatDecimals(r2) <= FormatDecimals(r1)
  {
  }

  datatype ChangeStyle = Rising | Falling | Neutral

  /** `getChangeStyle(change)`: green above 0.1%, red below -0.1%. */
  function StyleOf(change: real): (s: ChangeStyle)
    ensures s == Rising <==> change > 0.1
    ensures s == Falling <==> change < -0.1
  {
    if change > 0.1 then Rising else if change < -0.1 then Falling else Neutral
  }

  function Mirror(s: ChangeStyle): ChangeStyle {
    match s
    case Rising => Falling
    case Falling => Rising
    case Neutral => Neutral
  }

  /** A move and the opposite move get mirrored styles. */
  lemma StyleSymmetric(change: real)
    ensures StyleOf(-change) == Mirror(StyleOf(change))
  {
  }
}
