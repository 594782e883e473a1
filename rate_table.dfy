/** The hosted `forex_rates` and `forex_predictions` tables and the four
    helpers of utils/supabase.ts that read and write them. A single writer is
    assumed: each call sees the effects of the previous one. */
module RateTable {
  import opened Optional
  import opened Sorting

  /** A `forex_rates` row; `timestamp` and `createdAt` are instants in epoch
      milliseconds (the ISO strings they are stored as denote them uniquely). */
  datatype ForexRow = ForexRow(id: nat, currency: string, rate: real, timestamp: int, createdAt: int)

  /** A `forex_predictions` row. */
  datatype PredictionRow = PredictionRow(
    id: nat, currency: string, predictedRate: real, confidence: int,
    predictionDate: int, targetDate: int, createdAt: int)

  /** Which table call, if any, reports an error in this request. A lookup
      error here is any error other than PGRST116 ("no single row"). */
  datatype Fault = NoFault | LookupFails | UpdateFails | InsertFails

  datatype DbError = LookupError | UpdateError | InsertError

  /** What `saveForexData` returns or throws. */
  datatype SaveOutcome = Updated(row: ForexRow) | Inserted(row: ForexRow) | Failed(error: DbError)

  /** A save's outcome together with the table it leaves behind. */
  datatype SaveStep = SaveStep(outcome: SaveOutcome, rows: seq<ForexRow>, nextId: nat)

  /** `getForexData`'s default row limit. */
  const DefaultDays: nat := 30
  /** The row limit the routes read back with after a save. */
  const RecentLimit: nat := 5
  /** How many of those rows a route's response lists. */
  const ShownRecent: nat := 3

  predicate SameKey(r: ForexRow, currency: string, timestamp: int) {
    r.currency == currency && r.timestamp == timestamp
  }

  /** The two rows differ at most in their rate. */
  predicate SameButRate(a: ForexRow, b: ForexRow) {
    a.id == b.id && a.currency == b.currency && a.timestamp == b.timestamp && a.createdAt == b.createdAt
  }

  /** The indices of the rows with this (currency, timestamp), ascending. */
  function Matching(rows: seq<ForexRow>, currency: string, timestamp: int): (ks: seq<nat>)
    ensures forall m :: 0 <= m < |ks| ==> ks[m] < |rows| && SameKey(rows[ks[m]], currency, timestamp)
    ensures forall i :: 0 <= i < |rows| && SameKey(rows[i], currency, timestamp) ==> i in ks
    ensures forall m, n :: 0 <= m < n < |ks| ==> ks[m] < ks[n]
  {
    if |rows| == 0 then []
    else
      var n := |rows| - 1;
      Matching(rows[..n], currency, timestamp) + (if SameKey(rows[n], currency, timestamp) then [n] else [])
  }

  /** `.eq('currency').eq('timestamp').single()`: the row when exactly one
      matches; PostgREST answers PGRST116 both for no row and for several. */
  function SingleMatch(rows: seq<ForexRow>, currency: string, timestamp: int): (k: Option<nat>)
    ensures k.Some? ==> k.value < |rows| && SameKey(rows[k.value], currency, timestamp)
    ensures k.Some? ==> forall i :: 0 <= i < |rows| && i != k.value ==> !SameKey(rows[i], currency, timestamp)
    ensures k.None? ==> |Matching(rows, currency, timestamp)| != 1
  {
    var ks := Matching(rows, currency, timestamp);
    if |ks| == 1 then Some(ks[0]) else None
  }

  /** At most one row per (currency, timestamp). */
  ghost predicate UniqueKeys(rows: seq<ForexRow>) {
    forall i, j :: 0 <= i < j < |rows| ==> !SameKey(rows[j], rows[i].currency, rows[i].timestamp)
  }

  /** Row ids are distinct and below the next id the table will assign. */
  ghost predicate IdsFresh(rows: seq<ForexRow>, nextId: nat) {
    (forall i :: 0 <= i < |rows| ==> rows[i].id < nextId) &&
    (forall i, j :: 0 <= i < j < |rows| ==> rows[i].id != rows[j].id)
  }

  /** `.update({ rate }).eq('id', id)`: every row with that id gets the rate. */
  function SetRateById(rows: seq<ForexRow>, id: nat, rate: real): (out: seq<ForexRow>)
    ensures |out| == |rows|
    ensures forall i :: 0 <= i < |rows| ==> out[i] == if rows[i].id == id then rows[i].(rate := rate) else rows[i]
  {
    seq(|rows|, i requires 0 <= i < |rows| => if rows[i].id == id then rows[i].(rate := rate) else rows[i])
  }

  /** `saveForexData(data)` at time `now`: look the key up first; update the
      rate of the single matching row by id, or insert a new row; any error
      other than PGRST116 is thrown before anything is written. */
  function Save(rows: seq<ForexRow>, nextId: nat, currency: string, rate: real, timestamp: int, now: int, fault: Fault): (s: SaveStep)
    ensures s.outcome.Failed? ==> s.rows == rows && s.nextId == nextId && fault != NoFault
    ensures fault == LookupFails ==> s.outcome == Failed(LookupError)
    ensures s.outcome.Inserted? ==>
      s.outcome.row == ForexRow(nextId, currency, rate, timestamp, now) &&
      s.rows == rows + [s.outcome.row] && s.nextId == nextId + 1
    ensures s.outcome.Updated? ==> |s.rows| == |rows| && s.nextId == nextId
    ensures |s.rows| >= |rows| && forall i :: 0 <= i < |rows| ==> SameButRate(s.rows[i], rows[i])
    ensures !s.outcome.Failed? ==> SameKey(s.outcome.row, currency, timestamp) && s.outcome.row.rate == rate
  {
    if fault == LookupFails then SaveStep(Failed(LookupError), rows, nextId)
    else
      match SingleMatch(rows, currency, timestamp)
      case Some(k) =>
        if fault == UpdateFails then SaveStep(Failed(UpdateError), rows, nextId)
        else
          var out := SetRateById(rows, rows[k].id, rate);
          assert out[k] == rows[k].(rate := rate);
          SaveStep(Updated(rows[k].(rate := rate)), out, nextId)
      case None =>
        if fault == InsertFails then SaveStep(Failed(InsertError), rows, nextId)
        else
          var row := ForexRow(nextId, currency, rate, timestamp, now);
          assert (rows + [row])[|rows|] == row;
          SaveStep(Inserted(row), rows + [row], nextId + 1)
  }

  /** When the key is already stored, only that row's rate changes: every
      other row and every other field of that row stay as they were. */
  lemma SaveUpdatesOnlyTheRate(rows: seq<ForexRow>, nextId: nat, currency: string, rate: real, timestamp: int, now: int, fault: Fault, k: nat)
    requires IdsFresh(rows, nextId)
    requires k < |rows| && SameKey(rows[k], currency, timestamp)
    requires UniqueKeys(rows)
    requires fault != LookupFails && fault != UpdateFails
    ensures var s := Save(rows, nextId, currency, rate, timestamp, now, fault);
      s.outcome == Updated(rows[k].(rate := rate)) &&
      |s.rows| == |rows| && s.nextId == nextId &&
      s.rows[k] == rows[k].(rate := rate) &&
      forall i :: 0 <= i < |rows| && i != k ==> s.rows[i] == rows[i]
  {
    var ks := Matching(rows, currency, timestamp);
    MatchingAtMostOne(rows, currency, timestamp);
    assert k in ks;
  }

  /** When no row has the key (PGRST116), exactly one row with the given
      currency, rate and timestamp is appended. */
  lemma SaveInsertsWhenAbsent(rows: seq<ForexRow>, nextId: nat, currency: string, rate: real, timestamp: int, now: int, fault: Fault)
    requires forall i :: 0 <= i < |rows| ==> !SameKey(rows[i], currency, timestamp)
    requires fault != LookupFails && fault != InsertFails
    ensures var s := Save(rows, nextId, currency, rate, timestamp, now, fault);
      s.outcome.Inserted? && s.rows == rows + [ForexRow(nextId, currency, rate, timestamp, now)]
  {
    MatchingNone(rows, currency, timestamp);
  }

  /** Under unique keys the `.single()` lookup finds the stored row exactly
      when one has the key. */
  lemma SingleMatchUnderUniqueKeys(rows: seq<ForexRow>, currency: string, timestamp: int)
    requires UniqueKeys(rows)
    ensures SingleMatch(rows, currency, timestamp).None? ==>
      forall i :: 0 <= i < |rows| ==> !SameKey(rows[i], currency, timestamp)
  {
    MatchingAtMostOne(rows, currency, timestamp);
  }

  /** No row has the key: the lookup matches nothing. */
  lemma {:induction false} MatchingNone(rows: seq<ForexRow>, currency: string, timestamp: int)
    requires forall i :: 0 <= i < |rows| ==> !SameKey(rows[i], currency, timestamp)
    ensures Matching(rows, currency, timestamp) == []
  {
    if |rows| > 0 {
      MatchingNone(rows[..|rows| - 1], currency, timestamp);
    }
  }

  /** Under unique keys the lookup matches at most one row. */
  lemma {:induction false} MatchingAtMostOne(rows: seq<ForexRow>, currency: string, timestamp: int)
    requires UniqueKeys(rows)
    ensures |Matching(rows, currency, timestamp)| <= 1
  {
    if |rows| > 0 {
      var n := |rows| - 1;
      var init := rows[..n];
      if SameKey(rows[n], currency, timestamp) {
        assert forall i :: 0 <= i < |init| ==> init[i] == rows[i];
        MatchingNone(init, currency, timestamp);
      } else {
        MatchingAtMostOne(init, currency, timestamp);
      }
    }
  }

  /** With a single writer, a table holding at most one row per (currency,
      timestamp) still does after a save. */
  lemma SavePreservesUniqueKeys(rows: seq<ForexRow>, nextId: nat, currency: string, rate: real, timestamp: int, now: int, fault: Fault)
    requires UniqueKeys(rows)
    ensures UniqueKeys(Save(rows, nextId, currency, rate, timestamp, now, fault).rows)
  {
    var s := Save(rows, nextId, currency, rate, timestamp, now, fault);
    if s.outcome.Inserted? {
      SingleMatchUnderUniqueKeys(rows, currency, timestamp);
      var out := s.rows;
      forall i, j | 0 <= i < j < |out|
        ensures !SameKey(out[j], out[i].currency, out[i].timestamp)
      {
        if j == |rows| {
          assert out[j] == s.outcome.row && out[i] == rows[i];
        } else {
          assert out[j] == rows[j] && out[i] == rows[i];
        }
      }
    } else {
      assert |s.rows| == |rows|;
    }
  }

  /** A save keeps row ids distinct and below the next id to assign. */
  lemma SavePreservesIdsFresh(rows: seq<ForexRow>, nextId: nat, currency: string, rate: real, timestamp: int, now: int, fault: Fault)
    requires IdsFresh(rows, nextId)
    ensures var s := Save(rows, nextId, currency, rate, timestamp, now, fault);
      IdsFresh(s.rows, s.nextId)
  {
    var s := Save(rows, nextId, currency, rate, timestamp, now, fault);
    if s.outcome.Inserted? {
      AppendKeepsIdsFresh(rows, s.outcome.row, nextId);
    } else {
      assert |s.rows| == |rows| && s.nextId == nextId;
      SameIdsKeepIdsFresh(rows, s.rows, nextId);
    }
  }

  lemma AppendKeepsIdsFresh(rows: seq<ForexRow>, row: ForexRow, nextId: nat)
    requires IdsFresh(rows, nextId) && row.id == nextId
    ensures IdsFresh(rows + [row], nextId + 1)
  {
    var out := rows + [row];
    assert forall i :: 0 <= i < |rows| ==> out[i] == rows[i];
  }

  lemma SameIdsKeepIdsFresh(rows: seq<ForexRow>, out: seq<ForexRow>, nextId: nat)
    requires IdsFresh(rows, nextId) && |out| == |rows|
    requires forall i :: 0 <= i < |rows| ==> SameButRate(out[i], rows[i])
    ensures IdsFresh(out, nextId)
  {
    assert forall i :: 0 <= i < |rows| ==> out[i].id == rows[i].id;
  }

  /** A save that reports success leaves a row with the key and the new rate
      in the table. */
  lemma SavedKeyIsStored(rows: seq<ForexRow>, nextId: nat, currency: string, rate: real, timestamp: int, now: int, fault: Fault)
    requires !Save(rows, nextId, currency, rate, timestamp, now, fault).outcome.Failed?
    ensures var s := Save(rows, nextId, currency, rate, timestamp, now, fault);
      exists i :: 0 <= i < |s.rows| && SameKey(s.rows[i], currency, timestamp) && s.rows[i].rate == rate
  {
    var s := Save(rows, nextId, currency, rate, timestamp, now, fault);
    if s.outcome.Inserted? {
      assert s.rows[|rows|] == s.outcome.row;
    } else {
      var k := SingleMatch(rows, currency, timestamp).value;
      assert s.rows[k] == rows[k].(rate := rate);
    }
  }

  /** The newest `days` rows of a currency include at least one row as soon as
      the table holds any row of that currency. */
  lemma LatestRowsNonEmpty(rows: seq<ForexRow>, currency: string, days: nat, i: nat)
    requires i < |rows| && rows[i].currency == currency && days >= 1
    ensures |LatestRows(rows, currency, days)| >= 1
  {
    assert rows[i] in OfCurrency(rows, currency);
  }

  /** Only the rows of one currency, in table order. */
  function OfCurrency(rows: seq<ForexRow>, currency: string): (r: seq<ForexRow>)
    ensures forall x :: x in r <==> x in rows && x.currency == currency
  {
    if |rows| == 0 then []
    else (if rows[0].currency == currency then [rows[0]] else []) + OfCurrency(rows[1..], currency)
  }

  /** `getForexData(currency, days)`: `.eq('currency').order('timestamp',
      descending).limit(days)`. */
  function LatestRows(rows: seq<ForexRow>, currency: string, days: nat): (r: seq<ForexRow>)
    ensures |r| == if days <= |OfCurrency(rows, currency)| then days else |OfCurrency(rows, currency)|
    ensures forall x :: x in r ==> x in rows && x.currency == currency
    ensures forall i, j :: 0 <= i < j < |r| ==> r[i].timestamp >= r[j].timestamp
    ensures multiset(r) <= multiset(OfCurrency(rows, currency))
  {
    var all := SortBy(OfCurrency(rows, currency), (x: ForexRow) => -(x.timestamp as real));
    var k := if days <= |all| then days else |all|;
    assert all == all[..k] + all[k..];
    forall x | x in all[..k] ensures x in rows && x.currency == currency {
      assert x in multiset(all);
    }
    all[..k]
  }

  /** No row of the currency that `getForexData` leaves out is newer than
      one it returns. */
  lemma LatestRowsAreNewest(rows: seq<ForexRow>, currency: string, days: nat, x: ForexRow, y: ForexRow)
    requires x in rows && x.currency == currency && x !in LatestRows(rows, currency, days)
    requires y in LatestRows(rows, currency, days)
    ensures y.timestamp >= x.timestamp
  {
    var key := (z: ForexRow) => -(z.timestamp as real);
    var all := SortBy(OfCurrency(rows, currency), key);
    var k := if days <= |all| then days else |all|;
    assert LatestRows(rows, currency, days) == all[..k];
    assert x in multiset(OfCurrency(rows, currency));
    assert x in multiset(all);
    var j :| 0 <= j < |all| && all[j] == x;
    var i :| 0 <= i < k && all[i] == y;
    assert j >= k;
    assert key(all[i]) <= key(all[j]);
  }

  /** After a save that reports success, reading back the newest rows of
      the currency returns at least one row. */
  lemma SavedRowIsReadBack(rows: seq<ForexRow>, nextId: nat, currency: string, rate: real, timestamp: int, now: int, fault: Fault, days: nat)
    requires days >= 1
    ensures var s := Save(rows, nextId, currency, rate, timestamp, now, fault);
      !s.outcome.Failed? ==> |LatestRows(s.rows, currency, days)| >= 1
  {
    var s := Save(rows, nextId, currency, rate, timestamp, now, fault);
    if !s.outcome.Failed? {
      SavedKeyIsStored(rows, nextId, currency, rate, timestamp, now, fault);
      var i :| 0 <= i < |s.rows| && SameKey(s.rows[i], currency, timestamp) && s.rows[i].rate == rate;
      LatestRowsNonEmpty(s.rows, currency, days, i);
    }
  }

  /** A save leaves every row with another key exactly as it was. */
  lemma SaveKeepsOtherKeys(rows: seq<ForexRow>, nextId: nat, currency: string, rate: real, timestamp: int, now: int, fault: Fault, j: nat)
    requires IdsFresh(rows, nextId)
    requires j < |rows| && !SameKey(rows[j], currency, timestamp)
    ensures var s := Save(rows, nextId, currency, rate, timestamp, now, fault);
      j < |s.rows| && s.rows[j] == rows[j]
  {
    var s := Save(rows, nextId, currency, rate, timestamp, now, fault);
    if s.outcome.Updated? {
      var k := SingleMatch(rows, currency, timestamp).value;
      assert k != j && rows[k].id != rows[j].id;
    } else if s.outcome.Inserted? {
      assert s.rows[j] == (rows + [s.outcome.row])[j];
    }
  }

  /** A point of a route's `recent_rates` list. */
  datatype RatePoint = RatePoint(rate: real, timestamp: int)

  /** `storedData.slice(0, 3).map(d => ({ rate, timestamp }))`. */
  function Recent(rows: seq<ForexRow>): (r: seq<RatePoint>)
    ensures |r| == if |rows| < ShownRecent then |rows| else ShownRecent
    ensures forall i :: 0 <= i < |r| ==> r[i] == RatePoint(rows[i].rate, rows[i].timestamp)
  {
    var k := if |rows| < ShownRecent then |rows| else ShownRecent;
    seq(k, i requires 0 <= i < k => RatePoint(rows[i].rate, rows[i].timestamp))
  }

  /** The two tables and the ids they will hand out next. */
  class ForexStore {
    var rates: seq<ForexRow>
    var predictions: seq<PredictionRow>
    var nextRateId: nat
    var nextPredictionId: nat

    ghost predicate Valid()
      reads this
    {
      IdsFresh(rates, nextRateId)
    }

    constructor ()
      ensures Valid() && rates == [] && predictions == []
    {
      rates, predictions := [], [];
      nextRateId, nextPredictionId := 0, 0;
    }

    /** `saveForexData({ currency, rate, timestamp })`, with `created_at`
        set by the table to `now`. */
    method SaveForexData(currency: string, rate: real, timestamp: int, now: int, fault: Fault) returns (outcome: SaveOutcome)
      requires Valid()
      modifies this
      ensures Valid()
      ensures var s := Save(old(rates), old(nextRateId), currency, rate, timestamp, now, fault);
        outcome == s.outcome && rates == s.rows && nextRateId == s.nextId
      ensures predictions == old(predictions) && nextPredictionId == old(nextPredictionId)
    {
      var s := Save(rates, nextRateId, currency, rate, timestamp, now, fault);
      SavePreservesIdsFresh(rates, nextRateId, currency, rate, timestamp, now, fault);
      assert IdsFresh(s.rows, s.nextId);
      outcome := s.outcome;
      rates, nextRateId := s.rows, s.nextId;
      assert IdsFresh(rates, nextRateId);
    }

    /** A route's `saveForexData(...)` followed by `getForexData(currency, 5)`:
        after a successful save the read-back is never empty. */
    method SaveAndReadBack(currency: string, rate: real, timestamp: int, now: int, fault: Fault)
      returns (outcome: SaveOutcome, stored: seq<ForexRow>)
      requires Valid()
      modifies this
      ensures Valid()
      ensures var s := Save(old(rates), old(nextRateId), currency, rate, timestamp, now, fault);
        outcome == s.outcome && rates == s.rows && nextRateId == s.nextId
      ensures predictions == old(predictions) && nextPredictionId == old(nextPredictionId)
      ensures stored == LatestRows(rates, currency, RecentLimit)
      ensures !outcome.Failed? ==> 1 <= |stored| <= RecentLimit
    {
      SavedRowIsReadBack(rates, nextRateId, currency, rate, timestamp, now, fault, RecentLimit);
      outcome := SaveForexData(currency, rate, timestamp, now, fault);
      stored := GetForexData(currency, Some(RecentLimit));
    }

    /** `getForexData(currency, days = 30)`. */
    function GetForexData(currency: string, days: Option<nat>): (r: seq<ForexRow>)
      reads this
      ensures forall x :: x in r ==> x in rates && x.currency == currency
      ensures var limit := days.GetOr(DefaultDays);
        |r| == if limit <= |OfCurrency(rates, currency)| then limit else |OfCurrency(rates, currency)|
      ensures forall i, j :: 0 <= i < j < |r| ==> r[i].timestamp >= r[j].timestamp
      ensures multiset(r) <= multiset(OfCurrency(rates, currency))
    {
      LatestRows(rates, currency, days.GetOr(DefaultDays))
    }

    /** `savePrediction(data)`: insert one row and return it. */
    method SavePrediction(currency: string, predictedRate: real, confidence: int, predictionDate: int, targetDate: int, now: int, fails: bool)
      returns (r: Option<PredictionRow>)
      modifies this
      ensures fails ==> r.None? && predictions == old(predictions) && nextPredictionId == old(nextPredictionId)
      ensures !fails ==>
        r == Some(PredictionRow(old(nextPredictionId), currency, predictedRate, confidence, predictionDate, targetDate, now)) &&
        predictions == old(predictions) + [r.value] && nextPredictionId == old(nextPredictionId) + 1
      ensures rates == old(rates) && nextRateId == old(nextRateId)
    {
      if fails {
        return None;
      }
      var row := PredictionRow(nextPredictionId, currency, predictedRate, confidence, predictionDate, targetDate, now);
      predictions := predictions + [row];
      nextPredictionId := nextPredictionId + 1;
      r := Some(row);
    }

    /** `getPredictions(currency)` at time `now`. */
    function GetPredictions(currency: string, now: int): (r: seq<PredictionRow>)
      reads this
      ensures multiset(r) == multiset(UpcomingPredictions(predictions, currency, now))
      ensures forall x :: x in r ==> x in predictions && x.currency == currency && x.targetDate >= now
      ensures forall i, j :: 0 <= i < j < |r| ==> r[i].targetDate <= r[j].targetDate
    {
      var r := SortBy(UpcomingPredictions(predictions, currency, now), (x: PredictionRow) => x.targetDate as real);
      forall x | x in r ensures x in predictions && x.currency == currency && x.targetDate >= now {
        assert x in multiset(r);
      }
      r
    }
  }

  /** `.eq('currency').gte('target_date', now)`, in table order. */
  function UpcomingPredictions(rows: seq<PredictionRow>, currency: string, now: int): (r: seq<PredictionRow>)
    ensures forall x :: x in r <==> x in rows && x.currency == currency && x.targetDate >= now
  {
    if |rows| == 0 then []
    else
      var head := if rows[0].currency == currency && rows[0].targetDate >= now then [rows[0]] else [];
      head + UpcomingPredictions(rows[1..], currency, now)
  }
}
