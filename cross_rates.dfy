/** The `/api/fetch-cross-rates` route: the KRW price of a currency derived
    from two Alpha Vantage quotes, USD/KRW divided by USD/X, saved to two
    decimals under the USD/KRW refresh time. */
module CrossRates {
  import opened Optional
  import opened JsNumber
  import opened Providers
  import opened RateTable

  datatype CrossResponse =
    | Calculated(usdKrw: real, usdCurrency: real, currentRate: real, lastRefreshed: int, storedCount: nat, recent: seq<RatePoint>)
    | ServerError

  /** The exchange-rate object of a reply without 'Error Message' or 'Note';
      a reply without one makes the route throw. The status is not looked
      at. */
  function UsableQuote(r: AvReply): (q: Option<Quote>)
    ensures q.Some? <==> r.AvReply? && !r.errorMessage && !r.note && r.exchange.Some?
    ensures q.Some? ==> q == r.exchange
  {
    if r.AvReply? && !r.errorMessage && !r.note then r.exchange else None
  }

  /** `usdKrwRate / usdCurrencyRate`: KRW per unit of the currency. */
  function Quotient(usdKrw: Quote, usdCurrency: Quote): (r: real)
    ensures r > 0.0
    ensures r * usdCurrency.rate == usdKrw.rate
  {
    usdKrw.rate / usdCurrency.rate
  }

  /** Dividing USD/KRW by USD/X gives the same KRW price as the X/USD times
      USD/KRW product of the other routes whenever the two X quotes are
      reciprocal. */
  lemma QuotientAgreesWithProduct(usdKrw: Quote, usdCurrency: Quote, currencyUsd: Quote)
    requires usdCurrency.rate * currencyUsd.rate == 1.0
    ensures Quotient(usdKrw, usdCurrency) == currencyUsd.rate * usdKrw.rate
  {
    calc {
      Quotient(usdKrw, usdCurrency);
      usdKrw.rate / usdCurrency.rate;
      { assert currencyUsd.rate == 1.0 / usdCurrency.rate; }
      currencyUsd.rate * usdKrw.rate;
    }
  }

  /** `GET /api/fetch-cross-rates?currency=…` at time `now` (the currency
      defaults to JPY); `fault` is the table's behaviour for the save. */
  method GetCrossRate(store: ForexStore, currencyParam: Option<string>, hasKey: bool, now: int, usdKrw: AvReply, usdCurrency: AvReply, fault: Fault)
    returns (response: CrossResponse)
    requires store.Valid()
    modifies store
    ensures store.Valid()
    ensures store.predictions == old(store.predictions) && store.nextPredictionId == old(store.nextPredictionId)
    ensures !hasKey || UsableQuote(usdKrw).None? || UsableQuote(usdCurrency).None? ==>
      response == ServerError && store.rates == old(store.rates) && store.nextRateId == old(store.nextRateId)
    ensures hasKey && UsableQuote(usdKrw).Some? && UsableQuote(usdCurrency).Some? ==>
      var currency := Param(currencyParam, JPY);
      var q := Quotient(usdKrw.exchange.value, usdCurrency.exchange.value);
      var saved := Save(old(store.rates), old(store.nextRateId), currency, Round2(q), usdKrw.exchange.value.refreshed, now, fault);
      var stored := LatestRows(store.rates, currency, RecentLimit);
      store.rates == saved.rows && store.nextRateId == saved.nextId &&
      (saved.outcome.Failed? ==> response == ServerError) &&
      (!saved.outcome.Failed? ==>
        response.Calculated? && response.currentRate == q && response.lastRefreshed == usdKrw.exchange.value.refreshed &&
        response.usdKrw == usdKrw.exchange.value.rate && response.usdCurrency == usdCurrency.exchange.value.rate &&
        response.storedCount == |stored| && response.recent == Recent(stored) &&
        1 <= response.storedCount <= RecentLimit)
    ensures response.Calculated? ==>
      exists i :: 0 <= i < |store.rates| && store.rates[i].rate == Round2(response.currentRate) &&
        store.rates[i].timestamp == response.lastRefreshed && store.rates[i].currency == Param(currencyParam, JPY)
  {
    var currency := Param(currencyParam, JPY);
    if !hasKey {
      return ServerError;
    }
    var krw := UsableQuote(usdKrw);
    if krw.None? {
      return ServerError;
    }
    var other := UsableQuote(usdCurrency);
    if other.None? {
      return ServerError;
    }
    var q := Quotient(krw.value, other.value);
    ghost var rows0, id0 := store.rates, store.nextRateId;
    var outcome, stored := store.SaveAndReadBack(currency, Round2(q), krw.value.refreshed, now, fault);
    if outcome.Failed? {
      return ServerError;
    }
    SavedKeyIsStored(rows0, id0, currency, Round2(q), krw.value.refreshed, now, fault);
    response := Calculated(krw.value.rate, other.value.rate, q, krw.value.refreshed, |stored|, Recent(stored));
  }
}
