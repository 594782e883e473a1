/** The `/api/fetch-ohlc-forex` route: the Alpha Vantage FX_DAILY series of a
    currency against KRW, newest `days` trading days, returned oldest first. */
module Ohlc {
  import opened Optional
  import opened Providers
  import opened Sorting
  import opened JsArray

  /** The default of the `days` parameter. */
  const DefaultDays: int := 60

  /** One day of the 'Time Series FX (Daily)' object, already parsed: the day
      (an instant, so later days compare greater) and its four prices. */
  datatype DailyEntry = DailyEntry(date: int, open: real, high: real, low: real, close: real)

  /** The FX_DAILY reply: the series if present and whether a 'Note' came
      with it; or the call threw. */
  datatype SeriesReply = SeriesReply(series: Option<seq<DailyEntry>>, note: bool) | SeriesThrew

  /** One element of the response's `data`. */
  datatype OhlcRecord = OhlcRecord(date: int, timestamp: int, open: real, high: real, low: real, close: real)

  datatype OhlcResponse =
    | Ohlc(currency: string, count: nat, data: seq<OhlcRecord>, startDate: Option<int>, endDate: Option<int>)
    | RateLimited
    | ServerError

  function ToRecord(e: DailyEntry): (r: OhlcRecord)
    ensures r.date == e.date && r.timestamp == e.date
    ensures r.open == e.open && r.high == e.high && r.low == e.low && r.close == e.close
  {
    OhlcRecord(e.date, e.date, e.open, e.high, e.low, e.close)
  }

  /** Sort key of `b.date - a.date`: newest first. */
  function NewestFirst(r: OhlcRecord): real {
    -(r.date as real)
  }

  /** The records the route returns for a series: parsed, newest first, cut
      to `slice(0, days)`, then oldest first. */
  function Window(records: seq<OhlcRecord>, days: int): (w: seq<OhlcRecord>)
    ensures |w| == SliceEnd(|records|, days)
    ensures multiset(w) <= multiset(records)
  {
    var sorted := SortBy(records, NewestFirst);
    var k := SliceEnd(|records|, days);
    ReversedSameMultiset(sorted[..k]);
    PrefixWithin(sorted, k);
    Reversed(sorted[..k])
  }

  /** A prefix holds no element more often than the whole sequence. */
  lemma PrefixWithin<T>(s: seq<T>, k: nat)
    requires k <= |s|
    ensures multiset(s[..k]) <= multiset(s)
  {
    assert s == s[..k] + s[k..];
  }

  /** The window is in ascending date order. */
  lemma WindowAscending(records: seq<OhlcRecord>, days: int)
    ensures var w := Window(records, days);
      forall i, j :: 0 <= i < j < |w| ==> w[i].date <= w[j].date
  {
    var sorted := SortBy(records, NewestFirst);
    var kept := sorted[..SliceEnd(|records|, days)];
    var w := Window(records, days);
    forall i, j | 0 <= i < j < |w|
      ensures w[i].date <= w[j].date
    {
      ReversedAt(kept, i);
      ReversedAt(kept, j);
      assert NewestFirst(kept[|kept| - 1 - j]) <= NewestFirst(kept[|kept| - 1 - i]);
    }
  }

  /** An element found at or after position `k` of a sequence whose first
      `k` elements do not contain it. */
  lemma PrefixMember<T>(s: seq<T>, k: nat, b: nat)
    requires k <= |s| && b < |s|
    ensures b < k ==> s[b] in s[..k]
  {
    if b < k {
      assert s[..k][b] == s[b];
    }
  }

  /** The window keeps the newest days: no record left out is later than a
      record kept. */
  lemma WindowKeepsNewest(records: seq<OhlcRecord>, days: int, kept: OhlcRecord, dropped: OhlcRecord)
    requires kept in Window(records, days)
    requires dropped in records && dropped !in Window(records, days)
    ensures dropped.date <= kept.date
  {
    var sorted := SortBy(records, NewestFirst);
    var k := SliceEnd(|records|, days);
    var front := sorted[..k];
    assert dropped in multiset(sorted) by {
      assert dropped in multiset(records);
    }
    var b := DroppedBehind(sorted, k, dropped);
    ReversedMembers(front, kept);
    var a :| 0 <= a < k && front[a] == kept;
    assert NewestFirst(sorted[a]) <= NewestFirst(sorted[b]);
  }

  /** A record of `sorted` that the reversed first `k` do not hold sits at
      position `k` or later. */
  lemma DroppedBehind(sorted: seq<OhlcRecord>, k: nat, dropped: OhlcRecord) returns (b: nat)
    requires k <= |sorted|
    requires dropped in sorted && dropped !in Reversed(sorted[..k])
    ensures k <= b < |sorted| && sorted[b] == dropped
  {
    var front := sorted[..k];
    ReversedSameMultiset(front);
    assert dropped !in multiset(front) by {
      assert dropped !in multiset(Reversed(front));
    }
    b :| 0 <= b < |sorted| && sorted[b] == dropped;
    PrefixMember(sorted, k, b);
  }

  lemma {:induction false} ReversedSameMultiset<T>(s: seq<T>)
    ensures multiset(Reversed(s)) == multiset(s)
  {
    if |s| > 0 {
      ReversedSameMultiset(s[1..]);
      assert s == [s[0]] + s[1..];
    }
  }

  lemma ReversedMembers<T>(s: seq<T>, x: T)
    requires x in Reversed(s)
    ensures x in s
  {
    var k :| 0 <= k < |Reversed(s)| && Reversed(s)[k] == x;
    ReversedAt(s, k);
  }

  /** One record per entry of the series, in the series' own order. */
  function Parsed(series: seq<DailyEntry>): (records: seq<OhlcRecord>)
    ensures |records| == |series|
    ensures forall i :: 0 <= i < |series| ==> records[i] == ToRecord(series[i])
  {
    seq(|series|, i requires 0 <= i < |series| => ToRecord(series[i]))
  }

  /** The `for (const [date, values] of Object.entries(timeSeries))` loop. */
  method ParseSeries(series: seq<DailyEntry>) returns (records: seq<OhlcRecord>)
    ensures records == Parsed(series)
  {
    records := [];
    var i := 0;
    while i < |series|
      invariant 0 <= i <= |series|
      invariant records == Parsed(series[..i])
    {
      assert series[..i + 1] == series[..i] + [series[i]];
      records := records + [ToRecord(series[i])];
      i := i + 1;
    }
    assert series[..i] == series;
  }

  /** `GET /api/fetch-ohlc-forex?currency=…&days=…`; `daysParam` is the
      parsed `days` parameter when one was given. */
  method GetOhlc(currencyParam: Option<string>, daysParam: Option<int>, reply: SeriesReply) returns (response: OhlcResponse)
    ensures reply.SeriesThrew? ==> response == ServerError
    ensures reply.SeriesReply? && reply.series.None? ==> response == if reply.note then RateLimited else ServerError
    ensures reply.SeriesReply? && reply.series.Some? ==>
      var series := reply.series.value;
      var days := daysParam.GetOr(DefaultDays);
      var records := Parsed(series);
      response.Ohlc? && response.currency == Param(currencyParam, USD) &&
      response.data == Window(records, days) && response.count == SliceEnd(|series|, days) &&
      (response.count == 0 ==> response.startDate.None? && response.endDate.None?) &&
      (response.count > 0 ==>
        response.startDate == Some(response.data[0].date) && response.endDate == Some(response.data[response.count - 1].date))
  {
    var currency := Param(currencyParam, USD);
    var days := daysParam.GetOr(DefaultDays);
    if reply.SeriesThrew? {
      return ServerError;
    }
    if reply.series.None? {
      if reply.note {
        return RateLimited;
      }
      return ServerError;
    }
    var records := ParseSeries(reply.series.value);
    var data := NewestWindow(records, days);
    var n := |data|;
    var start := if n > 0 then Some(data[0].date) else None;
    var end := if n > 0 then Some(data[n - 1].date) else None;
    response := Ohlc(currency, n, data, start, end);
  }

  /** `sort((a, b) => b.date - a.date).slice(0, days).reverse()`: the sorted
      records are cut into a fresh array that is reversed in place. */
  method NewestWindow(records: seq<OhlcRecord>, days: int) returns (data: seq<OhlcRecord>)
    ensures data == Window(records, days)
  {
    var sorted := SortBy(records, NewestFirst);
    var n := SliceEnd(|sorted|, days);
    var limited := new OhlcRecord[n](k requires 0 <= k < n => sorted[k]);
    assert limited[..] == sorted[..n];
    ReverseInPlace(limited);
    data := limited[..];
  }
}
