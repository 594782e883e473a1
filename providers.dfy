/** What the route handlers see of the third-party rate providers. Every HTTP
    call is an input value: the fields a handler reads from the parsed JSON,
    or the fact that `fetch`/`json()` threw. */
module Providers {
  import opened Optional
  import opened JsNumber

  /** A rate Alpha Vantage reports: `parseFloat('5. Exchange Rate')`, taken to
      be a positive finite number. */
  type PositiveReal = r: real | r > 0.0 witness 1.0

  /** The 'Realtime Currency Exchange Rate' object: the rate and its
      '6. Last Refreshed' instant (epoch milliseconds). */
  datatype Quote = Quote(rate: PositiveReal, refreshed: int)

  /** One Alpha Vantage CURRENCY_EXCHANGE_RATE call: `response.ok`, whether the
      body carries 'Error Message' or 'Note', and the exchange-rate object if
      present; or the call threw. */
  datatype AvReply =
    | AvReply(ok: bool, errorMessage: bool, note: bool, exchange: Option<Quote>)
    | AvThrew

  /** One call to ExchangeRate-API, CurrencyLayer, Fixer or the Bank of Korea:
      `response.ok`, the body's `success` flag (CurrencyLayer, Fixer), the KRW
      figure if present (`rates.KRW`, `quotes[XKRW]`, `row[0].DATA_VALUE`) and
      the body's `timestamp` in epoch seconds; or the call threw. */
  datatype JsonReply =
    | JsonReply(ok: bool, success: bool, krw: Option<real>, epochSeconds: int)
    | JsonThrew

  /** What the Delegate call to `/api/fetch-real-forex` returns. */
  datatype DelegateReply =
    | DelegateOk(currentRate: real, lastRefreshed: int)
    | DelegateNotOk
    | DelegateThrew

  const USD := "USD"
  const JPY := "JPY"
  const EUR := "EUR"
  const CNY := "CNY"

  /** `searchParams.get(name) || fallback`: an absent or empty parameter
      takes the route's default. */
  function Param(query: Option<string>, fallback: string): (v: string)
    ensures query.Some? && query.value != "" ==> v == query.value
    ensures query.None? || query.value == "" ==> v == fallback
  {
    match query
    case Some(q) => if q != "" then q else fallback
    case None => fallback
  }

  /** JavaScript truthiness of a parsed number field: present and non-zero
      (NaN is not modelled). */
  predicate Truthy(x: Option<real>) {
    x.Some? && x.value != 0.0
  }

  /** A KRW figure quoted per one yen, restated per 100 yen (JPY only). */
  function Per100Yen(currency: string, rate: real): (r: real)
    ensures currency == JPY ==> r == 100.0 * rate
    ensures currency != JPY ==> r == rate
  {
    if currency == JPY then rate * 100.0 else rate
  }

  /** A rate and the instant it is stamped with (epoch milliseconds). */
  datatype Reading = Reading(rate: real, timestamp: int)

  /** EUR and CNY are priced through USD: X/USD times USD/KRW. */
  predicate CrossQuoted(currency: string) {
    currency == EUR || currency == CNY
  }

  /** `parseFloat((xUsd * usdKrw).toFixed(2))`: the KRW price of X to two
      decimals. */
  function CrossRate(xUsd: Quote, usdKrw: Quote): (r: real)
    ensures var product := xUsd.rate * usdKrw.rate;
      product - 0.005 <= r <= product + 0.005 && r == Round2(product)
  {
    ToFixed2(xUsd.rate * usdKrw.rate)
  }

  /** The Bank of Korea series code requested for a currency. */
  function BokSeriesCode(currency: string): (code: string)
    ensures code in {USD, JPY, EUR, CNY}
    ensures currency in {USD, JPY, EUR} ==> code == currency
    ensures currency !in {USD, JPY, EUR} ==> code == CNY
  {
    if currency == USD then USD
    else if currency == JPY then JPY
    else if currency == EUR then EUR
    else CNY
  }
}
