/** The `/api/auto-update-forex` route: at most once every five minutes it
    asks Alpha Vantage for USD, JPY, EUR and CNY in turn, saves each rate it
    gets and reports per-currency results. A failure for one currency is
    recorded and the sweep goes on. */
module AutoUpdate {
  import opened Optional
  import opened Providers
  import opened RateTable

  /** How long after a sweep the next one is skipped, in milliseconds. */
  const UpdateInterval: int := 300000

  /** The currencies of one sweep, in order. */
  const Currencies: seq<string> := [USD, JPY, EUR, CNY]

  datatype CurrencyResult = Succeeded(currency: string, rate: real, timestamp: int) | Errored(currency: string)

  datatype AutoResponse =
    | Skipped
    | Swept(total: nat, successes: nat, errors: nat, results: seq<CurrencyResult>)

  /** `isUpdateNeeded()`: no recorded sweep (or a falsy 0), or the last one
      more than five minutes ago. */
  predicate UpdateNeeded(lastUpdate: Option<int>, now: int) {
    lastUpdate.None? || lastUpdate.value == 0 || now - lastUpdate.value > UpdateInterval
  }

  /** What one Alpha Vantage reply yields before the save: the rate (per 100
      yen for JPY) and its refresh time, or nothing when the call threw, the
      response was not ok, it carried a 'Note' or it had no exchange object. */
  function Attempt(currency: string, reply: AvReply): (rd: Option<Reading>)
    ensures rd.Some? <==> reply.AvReply? && reply.ok && !reply.note && reply.exchange.Some?
    ensures rd.Some? ==> rd.value == Reading(Per100Yen(currency, reply.exchange.value.rate), reply.exchange.value.refreshed)
  {
    match reply
    case AvThrew => None
    case AvReply(ok, _, note, exchange) =>
      if !ok || note then None
      else
        match exchange
        case Some(q) => Some(Reading(Per100Yen(currency, q.rate), q.refreshed))
        case None => None
  }

  /** The table and the results after part of a sweep. */
  datatype Sweep = Sweep(rows: seq<ForexRow>, nextId: nat, results: seq<CurrencyResult>)

  /** One currency of the sweep: a result is a success only when the reply
      yields a rate and the save reports no error. */
  function Step(s: Sweep, currency: string, reply: AvReply, fault: Fault, now: int): (t: Sweep)
    ensures |t.results| == |s.results| + 1 && t.results[..|s.results|] == s.results
    ensures t.results[|s.results|].currency == currency
    ensures var rd := Attempt(currency, reply);
      t.results[|s.results|].Succeeded? <==>
        rd.Some? && !Save(s.rows, s.nextId, currency, rd.value.rate, rd.value.timestamp, now, fault).outcome.Failed?
    ensures t.results[|s.results|].Succeeded? ==>
      Reading(t.results[|s.results|].rate, t.results[|s.results|].timestamp) == Attempt(currency, reply).value
    ensures Attempt(currency, reply).None? ==> t.rows == s.rows && t.nextId == s.nextId
    ensures var rd := Attempt(currency, reply);
      rd.Some? ==>
        var saved := Save(s.rows, s.nextId, currency, rd.value.rate, rd.value.timestamp, now, fault);
        t.rows == saved.rows && t.nextId == saved.nextId
  {
    match Attempt(currency, reply)
    case None => Sweep(s.rows, s.nextId, s.results + [Errored(currency)])
    case Some(rd) =>
      var saved := Save(s.rows, s.nextId, currency, rd.rate, rd.timestamp, now, fault);
      var result := if saved.outcome.Failed? then Errored(currency) else Succeeded(currency, rd.rate, rd.timestamp);
      Sweep(saved.rows, saved.nextId, s.results + [result])
  }

  /** The first `n` currencies of a sweep started on `rows`. */
  function SweepUpTo(rows: seq<ForexRow>, nextId: nat, replies: seq<AvReply>, faults: seq<Fault>, now: int, n: nat): (s: Sweep)
    requires n <= |Currencies| && |replies| == |Currencies| && |faults| == |Currencies|
    ensures |s.results| == n
    ensures forall i :: 0 <= i < n ==> s.results[i].currency == Currencies[i]
  {
    if n == 0 then Sweep(rows, nextId, [])
    else
      var prev := SweepUpTo(rows, nextId, replies, faults, now, n - 1);
      Step(prev, Currencies[n - 1], replies[n - 1], faults[n - 1], now)
  }

  function CountSucceeded(results: seq<CurrencyResult>): (c: nat)
    ensures c <= |results|
  {
    if |results| == 0 then 0
    else CountSucceeded(results[..|results| - 1]) + (if results[|results| - 1].Succeeded? then 1 else 0)
  }

  /** Every result marked as updated has its rate stored under its
      currency and refresh time. */
  predicate StoresReported(s: Sweep) {
    forall i :: 0 <= i < |s.results| && s.results[i].Succeeded? ==>
      exists j :: 0 <= j < |s.rows| && SameKey(s.rows[j], s.results[i].currency, s.results[i].timestamp) && s.rows[j].rate == s.results[i].rate
  }

  /** Every currency a sweep reports as updated has its rate stored under its
      refresh time when the sweep ends. */
  lemma {:induction false} SweepStoresReportedRates(rows: seq<ForexRow>, nextId: nat, replies: seq<AvReply>, faults: seq<Fault>, now: int, n: nat)
    requires n <= |Currencies| && |replies| == |Currencies| && |faults| == |Currencies|
    requires IdsFresh(rows, nextId)
    ensures var s := SweepUpTo(rows, nextId, replies, faults, now, n);
      IdsFresh(s.rows, s.nextId) && StoresReported(s)
  {
    if n > 0 {
      SweepStoresReportedRates(rows, nextId, replies, faults, now, n - 1);
      var prev := SweepUpTo(rows, nextId, replies, faults, now, n - 1);
      assert forall i :: 0 <= i < |prev.results| ==> prev.results[i].currency != Currencies[n - 1] by {
        forall i | 0 <= i < |prev.results|
          ensures prev.results[i].currency != Currencies[n - 1]
        {
          assert prev.results[i].currency == Currencies[i];
        }
      }
      StepStoresReported(prev, Currencies[n - 1], replies[n - 1], faults[n - 1], now);
    }
  }

  /** A step that handles a currency not seen before keeps the identifiers
      fresh and every earlier reported rate stored, and stores its own. */
  lemma StepStoresReported(prev: Sweep, currency: string, reply: AvReply, fault: Fault, now: int)
    requires IdsFresh(prev.rows, prev.nextId) && StoresReported(prev)
    requires forall i :: 0 <= i < |prev.results| ==> prev.results[i].currency != currency
    ensures var s := Step(prev, currency, reply, fault, now);
      IdsFresh(s.rows, s.nextId) && StoresReported(s)
  {
    var s := Step(prev, currency, reply, fault, now);
    var n := |s.results|;
    match Attempt(currency, reply) {
      case None =>
        forall i | 0 <= i < n && s.results[i].Succeeded?
          ensures exists j :: 0 <= j < |s.rows| && SameKey(s.rows[j], s.results[i].currency, s.results[i].timestamp) && s.rows[j].rate == s.results[i].rate
        {
          assert s.results[i] == prev.results[i];
        }
      case Some(rd) =>
        SavePreservesIdsFresh(prev.rows, prev.nextId, currency, rd.rate, rd.timestamp, now, fault);
        forall i | 0 <= i < n && s.results[i].Succeeded?
          ensures exists j :: 0 <= j < |s.rows| && SameKey(s.rows[j], s.results[i].currency, s.results[i].timestamp) && s.rows[j].rate == s.results[i].rate
        {
          if i == n - 1 {
            SavedKeyIsStored(prev.rows, prev.nextId, currency, rd.rate, rd.timestamp, now, fault);
          } else {
            assert s.results[i] == prev.results[i];
            var j :| 0 <= j < |prev.rows| && SameKey(prev.rows[j], prev.results[i].currency, prev.results[i].timestamp) && prev.rows[j].rate == prev.results[i].rate;
            SaveKeepsOtherKeys(prev.rows, prev.nextId, currency, rd.rate, rd.timestamp, now, fault, j);
          }
        }
    }
  }

  lemma SweepUpToNext(rows: seq<ForexRow>, nextId: nat, replies: seq<AvReply>, faults: seq<Fault>, now: int, n: nat)
    requires n < |Currencies| && |replies| == |Currencies| && |faults| == |Currencies|
    ensures SweepUpTo(rows, nextId, replies, faults, now, n + 1) ==
      Step(SweepUpTo(rows, nextId, replies, faults, now, n), Currencies[n], replies[n], faults[n], now)
  {
  }

  lemma CountSucceededAppend(results: seq<CurrencyResult>, r: CurrencyResult)
    ensures CountSucceeded(results + [r]) == CountSucceeded(results) + if r.Succeeded? then 1 else 0
  {
    assert (results + [r])[..|results|] == results;
  }

  /** The body of the sweep loop: one currency fetched, saved and recorded
      in `store` and the results. */
  method SweepCurrency(store: ForexStore, results: seq<CurrencyResult>, currency: string, reply: AvReply, fault: Fault, now: int)
    returns (after: seq<CurrencyResult>, succeeded: bool)
    requires store.Valid()
    modifies store
    ensures store.Valid() && store.predictions == old(store.predictions) && store.nextPredictionId == old(store.nextPredictionId)
    ensures Sweep(store.rates, store.nextRateId, after) == Step(Sweep(old(store.rates), old(store.nextRateId), results), currency, reply, fault, now)
    ensures succeeded <==> after[|results|].Succeeded?
  {
    match Attempt(currency, reply) {
      case None =>
        after, succeeded := results + [Errored(currency)], false;
      case Some(rd) =>
        var outcome := store.SaveForexData(currency, rd.rate, rd.timestamp, now, fault);
        if outcome.Failed? {
          after, succeeded := results + [Errored(currency)], false;
        } else {
          after, succeeded := results + [Succeeded(currency, rd.rate, rd.timestamp)], true;
        }
    }
  }

  /** The loop of a sweep: every currency in turn, on `store`. */
  method RunSweep(store: ForexStore, now: int, replies: seq<AvReply>, faults: seq<Fault>)
    returns (results: seq<CurrencyResult>, successCount: nat, errorCount: nat)
    requires |replies| == |Currencies| && |faults| == |Currencies|
    requires store.Valid()
    modifies store
    ensures store.Valid() && store.predictions == old(store.predictions) && store.nextPredictionId == old(store.nextPredictionId)
    ensures var s := SweepUpTo(old(store.rates), old(store.nextRateId), replies, faults, now, |Currencies|);
      store.rates == s.rows && store.nextRateId == s.nextId && results == s.results
    ensures successCount == CountSucceeded(results) && errorCount == |Currencies| - successCount
  {
    ghost var rows0, id0 := store.rates, store.nextRateId;
    results := [];
    successCount, errorCount := 0, 0;
    var i := 0;
    while i < |Currencies|
      invariant 0 <= i <= |Currencies|
      invariant store.Valid()
      invariant store.predictions == old(store.predictions) && store.nextPredictionId == old(store.nextPredictionId)
      invariant Sweep(store.rates, store.nextRateId, results) == SweepUpTo(rows0, id0, replies, faults, now, i)
      invariant successCount == CountSucceeded(results) && successCount + errorCount == i
    {
      ghost var before := results;
      var succeeded;
      results, succeeded := SweepCurrency(store, results, Currencies[i], replies[i], faults[i], now);
      SweepUpToNext(rows0, id0, replies, faults, now, i);
      CountSucceededAppend(before, results[i]);
      assert results == before + [results[i]];
      if succeeded {
        successCount := successCount + 1;
      } else {
        errorCount := errorCount + 1;
      }
      i := i + 1;
    }
  }

  /** The five-minute guard: the module-level `updateCache` and the table. */
  class AutoUpdater {
    var lastUpdate: Option<int>
    const store: ForexStore

    constructor (store: ForexStore)
      ensures this.store == store && lastUpdate.None?
    {
      this.store := store;
      lastUpdate := None;
    }

    /** `GET /api/auto-update-forex` at time `now`, with one Alpha Vantage
        reply and one table outcome per currency. */
    method Get(now: int, replies: seq<AvReply>, faults: seq<Fault>) returns (response: AutoResponse)
      requires |replies| == |Currencies| && |faults| == |Currencies|
      requires store.Valid()
      modifies this, store
      ensures store.Valid()
      ensures store.predictions == old(store.predictions) && store.nextPredictionId == old(store.nextPredictionId)
      ensures !UpdateNeeded(old(lastUpdate), now) ==>
        response == Skipped && lastUpdate == old(lastUpdate) &&
        store.rates == old(store.rates) && store.nextRateId == old(store.nextRateId)
      ensures UpdateNeeded(old(lastUpdate), now) ==>
        var s := SweepUpTo(old(store.rates), old(store.nextRateId), replies, faults, now, |Currencies|);
        lastUpdate == Some(now) && store.rates == s.rows && store.nextRateId == s.nextId &&
        response == Swept(|Currencies|, CountSucceeded(s.results), |Currencies| - CountSucceeded(s.results), s.results)
    {
      if !UpdateNeeded(lastUpdate, now) {
        return Skipped;
      }
      var results, successCount, errorCount := RunSweep(store, now, replies, faults);
      lastUpdate := Some(now);
      response := Swept(|Currencies|, successCount, errorCount, results);
    }

    /** `POST /api/auto-update-forex`: forget the last sweep, then run GET. */
    method Post(now: int, replies: seq<AvReply>, faults: seq<Fault>) returns (response: AutoResponse)
      requires |replies| == |Currencies| && |faults| == |Currencies|
      requires store.Valid()
      modifies this, store
      ensures store.Valid()
      ensures store.predictions == old(store.predictions) && store.nextPredictionId == old(store.nextPredictionId)
      ensures var s := SweepUpTo(old(store.rates), old(store.nextRateId), replies, faults, now, |Currencies|);
        lastUpdate == Some(now) && store.rates == s.rows && store.nextRateId == s.nextId &&
        response == Swept(|Currencies|, CountSucceeded(s.results), |Currencies| - CountSucceeded(s.results), s.results)
    {
      lastUpdate := None;
      response := Get(now, replies, faults);
    }
  }

  /** A sweep run at `now` makes every GET up to five minutes later a skip. */
  lemma SkipsForFiveMinutes(now: int, later: int)
    requires now != 0 && now <= later <= now + UpdateInterval
    ensures !UpdateNeeded(Some(now), later)
  {
  }

  /** With no recorded sweep, a recorded 0, or one more than five minutes
      before `later`, the request at `later` sweeps. */
  lemma SweepsAfterFiveMinutes(last: Option<int>, later: int)
    requires last.None? || last.value == 0 || later > last.value + UpdateInterval
    ensures UpdateNeeded(last, later)
  {
  }
}
