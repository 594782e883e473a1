/** The `/api/fetch-real-forex` route: a one-minute per-currency cache in
    front of a chain of rate providers (ExchangeRate-API, Alpha Vantage,
    CurrencyLayer, the Bank of Korea), each fresh rate saved to the
    `forex_rates` table. The decision is the pure function `Decide`; the
    `RealForexRoute` class applies it to the cache and the table. */
module RealForex {
  import opened Optional
  import opened JsNumber
  import opened Providers
  import opened RateTable

  /** How long a cache entry is served, in milliseconds. */
  const CacheDuration: int := 60000

  /** A cache entry: the rate and instant served, and when it was stored. */
  datatype CacheEntry = CacheEntry(rate: real, refreshed: int, setAt: int)

  /** `isCacheValid(currency)` at time `now`. */
  predicate CacheValid(cache: map<string, CacheEntry>, currency: string, now: int) {
    currency in cache && now - cache[currency].setAt < CacheDuration
  }

  /** Which of the provider keys are configured. */
  datatype Keys = Keys(alphaVantage: bool, currencyLayer: bool, bankOfKorea: bool)

  /** The replies of every provider call the route may make. For EUR and CNY,
      `av` is the X/USD quote and `avUsdKrw` the USD/KRW one; otherwise `av`
      is the X/KRW quote and `avUsdKrw` is not asked for. */
  datatype Replies = Replies(erApi: JsonReply, av: AvReply, avUsdKrw: AvReply, currencyLayer: JsonReply, bok: JsonReply)

  datatype Source = ExchangeRateApi | AlphaVantage | CurrencyLayer | BankOfKorea

  /** Why the route falls back to the newest stored row. */
  datatype Fallback = AfterApiFailure | AfterRateLimit

  /** What the route does for one request. */
  datatype Plan =
    | FromCache(entry: CacheEntry)
    | Record(source: Source, rate: real, timestamp: int)
    | FromStore(fallback: Fallback)
    | Fail

  /** Where the Alpha Vantage block ends: a rate; no usable data (a non-ok
      response or no exchange object, so the backups run); a 'Note' (the
      rate-limit error); or any other exception, which is re-thrown. */
  datatype AvOutcome = AvRate(reading: Reading) | AvNoData | AvRateLimited | AvFailed

  /** One Alpha Vantage reply as the block reads it (`Error Message` is not
      consulted here). */
  datatype AvCall = Got(quote: Quote) | NoData | Limited | Threw

  function ClassifyAv(r: AvReply): (c: AvCall)
    ensures c.Got? <==> r.AvReply? && r.ok && !r.note && r.exchange.Some?
    ensures c.Limited? <==> r.AvReply? && r.ok && r.note
    ensures c.Threw? <==> r.AvThrew?
    ensures c.Got? ==> c.quote == r.exchange.value
  {
    match r
    case AvThrew => Threw
    case AvReply(ok, _, note, exchange) =>
      if !ok then NoData
      else if note then Limited
      else if exchange.None? then NoData
      else Got(exchange.value)
  }

  /** The ExchangeRate-API step: a truthy `rates.KRW`, per 100 yen for JPY,
      stamped with the request time. */
  function ErApiReading(currency: string, r: JsonReply, now: int): (rd: Option<Reading>)
    ensures rd.Some? <==> r.JsonReply? && r.ok && Truthy(r.krw)
    ensures rd.Some? ==> rd.value.timestamp == now
    ensures rd.Some? && currency == JPY ==> rd.value.rate == 100.0 * r.krw.value
    ensures rd.Some? && currency != JPY ==> rd.value.rate == r.krw.value
  {
    if r.JsonReply? && r.ok && Truthy(r.krw) then Some(Reading(Per100Yen(currency, r.krw.value), now))
    else None
  }

  /** The Alpha Vantage block. */
  function AlphaVantageStep(currency: string, av: AvReply, avUsdKrw: AvReply): (o: AvOutcome)
    ensures !CrossQuoted(currency) ==>
      (o.AvRate? <==> ClassifyAv(av).Got?) &&
      (o.AvRate? ==> o.reading == Reading(Per100Yen(currency, av.exchange.value.rate), av.exchange.value.refreshed))
    ensures CrossQuoted(currency) && o.AvRate? ==>
      ClassifyAv(av).Got? && ClassifyAv(avUsdKrw).Got? &&
      o.reading == Reading(CrossRate(av.exchange.value, avUsdKrw.exchange.value), avUsdKrw.exchange.value.refreshed)
    ensures o.AvFailed? ==> av.AvThrew? || (CrossQuoted(currency) && ClassifyAv(av).Got? && avUsdKrw.AvThrew?)
    ensures o.AvRateLimited? ==> ClassifyAv(av).Limited? || (CrossQuoted(currency) && ClassifyAv(avUsdKrw).Limited?)
  {
    match ClassifyAv(av)
    case Threw => AvFailed
    case NoData => AvNoData
    case Limited => AvRateLimited
    case Got(q) =>
      if !CrossQuoted(currency) then AvRate(Reading(Per100Yen(currency, q.rate), q.refreshed))
      else
        match ClassifyAv(avUsdKrw)
        case Threw => AvFailed
        case NoData => AvNoData
        case Limited => AvRateLimited
        case Got(usdKrw) => AvRate(Reading(CrossRate(q, usdKrw), usdKrw.refreshed))
  }

  /** A CurrencyLayer reply the route takes: the key is set and the ok
      response reports `success` with a truthy KRW quote. */
  predicate UsableCurrencyLayer(keys: Keys, r: JsonReply) {
    keys.currencyLayer && r.JsonReply? && r.ok && r.success && Truthy(r.krw)
  }

  /** A Bank of Korea reply the route takes: the key is set and the ok
      response carries a figure. */
  predicate UsableBankOfKorea(keys: Keys, r: JsonReply) {
    keys.bankOfKorea && r.JsonReply? && r.ok && r.krw.Some?
  }

  /** The CurrencyLayer and Bank of Korea backups, tried in that order when
      their keys are set. */
  function BackupReading(currency: string, keys: Keys, currencyLayer: JsonReply, bok: JsonReply, now: int): (b: Option<(Source, Reading)>)
    ensures b.Some? ==> b.value.1.timestamp == now
    ensures b.Some? ==> b.value.0 == CurrencyLayer || b.value.0 == BankOfKorea
    ensures UsableCurrencyLayer(keys, currencyLayer) ==>
      b == Some((CurrencyLayer, Reading(Per100Yen(currency, currencyLayer.krw.value), now)))
    ensures b.Some? && b.value.0 == CurrencyLayer ==> UsableCurrencyLayer(keys, currencyLayer)
    ensures b.Some? && b.value.0 == BankOfKorea ==>
      !UsableCurrencyLayer(keys, currencyLayer) && UsableBankOfKorea(keys, bok) && b.value.1.rate == ToFixed2(bok.krw.value)
    ensures b.None? <==> !UsableCurrencyLayer(keys, currencyLayer) && !UsableBankOfKorea(keys, bok)
  {
    if UsableCurrencyLayer(keys, currencyLayer) then
      Some((CurrencyLayer, Reading(Per100Yen(currency, currencyLayer.krw.value), now)))
    else if UsableBankOfKorea(keys, bok) then
      Some((BankOfKorea, Reading(ToFixed2(bok.krw.value), now)))
    else None
  }

  /** The route's decision for `currency` at time `now`. */
  function Decide(currency: string, force: bool, cache: map<string, CacheEntry>, now: int, keys: Keys, replies: Replies): (p: Plan)
    ensures !force && CacheValid(cache, currency, now) ==> p == FromCache(cache[currency])
    ensures p.FromCache? ==> !force && CacheValid(cache, currency, now)
    ensures !p.FromCache? && ErApiReading(currency, replies.erApi, now).Some? ==>
      p == Record(ExchangeRateApi, ErApiReading(currency, replies.erApi, now).value.rate, now)
    ensures p.Record? && p.source != ExchangeRateApi ==> keys.alphaVantage
    ensures !keys.alphaVantage ==> p.FromCache? || (p.Record? && p.source == ExchangeRateApi) || p == FromStore(AfterApiFailure)
    ensures p.FromStore? && p.fallback == AfterRateLimit ==> keys.alphaVantage && AlphaVantageStep(currency, replies.av, replies.avUsdKrw).AvRateLimited?
    ensures p.Record? && p.source == ExchangeRateApi ==> ErApiReading(currency, replies.erApi, now).Some?
    ensures !p.FromCache? && ErApiReading(currency, replies.erApi, now).None? && !keys.alphaVantage ==>
      p == FromStore(AfterApiFailure)
    ensures !p.FromCache? && ErApiReading(currency, replies.erApi, now).None? && keys.alphaVantage ==>
      match AlphaVantageStep(currency, replies.av, replies.avUsdKrw)
      case AvRate(rd) => p == Record(AlphaVantage, rd.rate, rd.timestamp)
      case AvRateLimited => p == FromStore(AfterRateLimit)
      case AvFailed => p == Fail
      case AvNoData =>
        match BackupReading(currency, keys, replies.currencyLayer, replies.bok, now)
        case Some((src, rd)) => p == Record(src, rd.rate, rd.timestamp)
        case None => p == Fail
    ensures p.Record? && (p.source == CurrencyLayer || p.source == BankOfKorea) ==>
      AlphaVantageStep(currency, replies.av, replies.avUsdKrw).AvNoData?
  {
    if !force && CacheValid(cache, currency, now) then FromCache(cache[currency])
    else
      match ErApiReading(currency, replies.erApi, now)
      case Some(rd) => Record(ExchangeRateApi, rd.rate, rd.timestamp)
      case None =>
        if !keys.alphaVantage then FromStore(AfterApiFailure)
        else
          match AlphaVantageStep(currency, replies.av, replies.avUsdKrw)
          case AvRate(rd) => Record(AlphaVantage, rd.rate, rd.timestamp)
          case AvRateLimited => FromStore(AfterRateLimit)
          case AvFailed => Fail
          case AvNoData =>
            match BackupReading(currency, keys, replies.currencyLayer, replies.bok, now)
            case Some((src, rd)) => Record(src, rd.rate, rd.timestamp)
            case None => Fail
  }

  /** Without an Alpha Vantage key the route never consults Alpha Vantage,
      CurrencyLayer or the Bank of Korea. */
  lemma WithoutKeyOnlyExchangeRateApi(currency: string, force: bool, cache: map<string, CacheEntry>, now: int, keys: Keys, r1: Replies, r2: Replies)
    requires !keys.alphaVantage && r1.erApi == r2.erApi
    ensures Decide(currency, force, cache, now, keys, r1) == Decide(currency, force, cache, now, keys, r2)
  {
  }

  /** An Alpha Vantage exception other than the rate limit ends the request
      with an error: the backups are not tried. */
  lemma FetchErrorSkipsBackups(currency: string, cache: map<string, CacheEntry>, now: int, keys: Keys, replies: Replies)
    requires keys.alphaVantage && !CacheValid(cache, currency, now)
    requires ErApiReading(currency, replies.erApi, now).None?
    requires replies.av.AvThrew?
    ensures Decide(currency, false, cache, now, keys, replies) == Fail
  {
  }

  /** When Alpha Vantage answers with a non-ok response, the backups are
      tried: CurrencyLayer first, then the Bank of Korea, then an error. */
  lemma BackupsAfterAlphaVantageNoData(currency: string, cache: map<string, CacheEntry>, now: int, keys: Keys, replies: Replies)
    requires keys.alphaVantage && !CacheValid(cache, currency, now)
    requires ErApiReading(currency, replies.erApi, now).None?
    requires replies.av.AvReply? && !replies.av.ok
    ensures UsableCurrencyLayer(keys, replies.currencyLayer) ==>
      Decide(currency, false, cache, now, keys, replies) == Record(CurrencyLayer, Per100Yen(currency, replies.currencyLayer.krw.value), now)
    ensures !UsableCurrencyLayer(keys, replies.currencyLayer) && UsableBankOfKorea(keys, replies.bok) ==>
      Decide(currency, false, cache, now, keys, replies) == Record(BankOfKorea, ToFixed2(replies.bok.krw.value), now)
    ensures !UsableCurrencyLayer(keys, replies.currencyLayer) && !UsableBankOfKorea(keys, replies.bok) ==>
      Decide(currency, false, cache, now, keys, replies) == Fail
  {
    assert ClassifyAv(replies.av) == NoData;
  }

  /** The EUR and CNY cross rate: X/USD times USD/KRW to two decimals, stamped
      with the USD/KRW refresh time. */
  lemma CrossRateRecorded(currency: string, cache: map<string, CacheEntry>, now: int, keys: Keys, replies: Replies, xUsd: Quote, usdKrw: Quote)
    requires CrossQuoted(currency) && keys.alphaVantage && !CacheValid(cache, currency, now)
    requires ErApiReading(currency, replies.erApi, now).None?
    requires replies.av.AvReply? && replies.av.ok && !replies.av.note && replies.av.exchange == Some(xUsd)
    requires replies.avUsdKrw.AvReply? && replies.avUsdKrw.ok && !replies.avUsdKrw.note && replies.avUsdKrw.exchange == Some(usdKrw)
    ensures Decide(currency, false, cache, now, keys, replies) == Record(AlphaVantage, CrossRate(xUsd, usdKrw), usdKrw.refreshed)
  {
    assert ClassifyAv(replies.av) == Got(xUsd);
    assert ClassifyAv(replies.avUsdKrw) == Got(usdKrw);
  }

  /** A rate recorded at `now` is what the route serves, unchanged, to every
      request for that currency within the next minute that does not force
      an update, whatever the providers then reply. */
  lemma RecordedRateServedForAMinute(currency: string, cache: map<string, CacheEntry>, rate: real, timestamp: int, now: int, later: int, keys: Keys, replies: Replies)
    requires now <= later < now + CacheDuration
    ensures Decide(currency, false, cache[currency := CacheEntry(rate, timestamp, now)], later, keys, replies) ==
      FromCache(CacheEntry(rate, timestamp, now))
  {
  }

  datatype Response =
    | CachedRate(rate: real, refreshed: int)
    | Fresh(source: Source, rate: real, refreshed: int, storedCount: nat, recent: seq<RatePoint>)
    | StoredRate(fallback: Fallback, rate: real, refreshed: int)
    | ServerError

  /** The stored-row fallback: the newest row of the currency, or a 500. */
  function StoredResponse(rows: seq<ForexRow>, currency: string, fallback: Fallback): (r: Response)
    ensures r.ServerError? <==> forall i :: 0 <= i < |rows| ==> rows[i].currency != currency
    ensures r.StoredRate? ==> r.fallback == fallback
    ensures r.StoredRate? ==>
      exists i :: 0 <= i < |rows| && rows[i].currency == currency && rows[i].rate == r.rate && rows[i].timestamp == r.refreshed
    ensures r.StoredRate? ==> forall i :: 0 <= i < |rows| && rows[i].currency == currency ==> rows[i].timestamp <= r.refreshed
  {
    var latest := LatestRows(rows, currency, 1);
    if |latest| == 0 then
      assert forall i :: 0 <= i < |rows| ==> rows[i].currency != currency by {
        forall i | 0 <= i < |rows| ensures rows[i].currency != currency {
          if rows[i].currency == currency {
            LatestRowsNonEmpty(rows, currency, 1, i);
          }
        }
      }
      ServerError
    else
      var row := latest[0];
      assert row in LatestRows(rows, currency, 1);
      forall i | 0 <= i < |rows| && rows[i].currency == currency
        ensures rows[i].timestamp <= row.timestamp
      {
        if rows[i] !in latest {
          LatestRowsAreNewest(rows, currency, 1, rows[i], row);
        }
      }
      StoredRate(fallback, row.rate, row.timestamp)
  }

  /** The module-level cache and the table the route writes to. */
  class RealForexRoute {
    var cache: map<string, CacheEntry>
    const store: ForexStore

    constructor (store: ForexStore)
      ensures this.store == store && cache == map[]
    {
      this.store := store;
      cache := map[];
    }

    /** `GET /api/fetch-real-forex?currency=…&force=…` at time `now`; the
        table calls are taken to succeed. */
    method Get(currencyParam: Option<string>, forceParam: Option<string>, now: int, keys: Keys, replies: Replies)
      returns (response: Response)
      requires store.Valid()
      modifies this, store
      ensures store.Valid()
      ensures store.predictions == old(store.predictions) && store.nextPredictionId == old(store.nextPredictionId)
      ensures
        var currency := Param(currencyParam, USD);
        match Decide(currency, forceParam == Some("true"), old(cache), now, keys, replies)
        case FromCache(e) =>
          response == CachedRate(e.rate, e.refreshed) && cache == old(cache) &&
          store.rates == old(store.rates) && store.nextRateId == old(store.nextRateId)
        case Record(src, rate, t) =>
          var saved := Save(old(store.rates), old(store.nextRateId), currency, rate, t, now, NoFault);
          var stored := LatestRows(store.rates, currency, RecentLimit);
          store.rates == saved.rows && store.nextRateId == saved.nextId &&
          cache == old(cache)[currency := CacheEntry(rate, t, now)] &&
          response.Fresh? && response.source == src && response.rate == rate && response.refreshed == t &&
          response.storedCount == |stored| && response.recent == Recent(stored) &&
          1 <= response.storedCount <= RecentLimit
        case FromStore(f) =>
          response == StoredResponse(old(store.rates), currency, f) && cache == old(cache) &&
          store.rates == old(store.rates) && store.nextRateId == old(store.nextRateId)
        case Fail =>
          response == ServerError && cache == old(cache) &&
          store.rates == old(store.rates) && store.nextRateId == old(store.nextRateId)
    {
      var currency := Param(currencyParam, USD);
      var plan := Decide(currency, forceParam == Some("true"), cache, now, keys, replies);
      match plan {
        case FromCache(e) =>
          response := CachedRate(e.rate, e.refreshed);
        case Record(src, rate, t) =>
          var _, stored := store.SaveAndReadBack(currency, rate, t, now, NoFault);
          // The direct Alpha Vantage path's not-found error never fires: the
          // save has just stored a row of the currency.
          assert |stored| >= 1;
          response := Fresh(src, rate, t, |stored|, Recent(stored));
          cache := cache[currency := CacheEntry(rate, t, now)];
        case FromStore(f) =>
          response := StoredResponse(store.rates, currency, f);
        case Fail =>
          response := ServerError;
      }
    }
  }
}
