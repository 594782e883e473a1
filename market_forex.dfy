/** The `/api/fetch-market-forex` route: CurrencyLayer, Fixer, Alpha Vantage
    and the Bank of Korea are tried in that order, every failure of one is
    swallowed and the next is tried, and the first usable rate is saved. When
    all four fail the route relays `/api/fetch-real-forex`. */
module MarketForex {
  import opened Optional
  import opened JsNumber
  import opened Providers
  import opened RateTable

  /** The replies of the calls the route may make. For EUR and CNY, `av` is
      the X/USD quote and `avUsdKrw` the USD/KRW one. */
  datatype MarketReplies = MarketReplies(
    currencyLayer: JsonReply, fixer: JsonReply, av: AvReply, avUsdKrw: AvReply,
    bok: JsonReply, delegate: DelegateReply)

  datatype MarketSource = CurrencyLayer | Fixer | AlphaVantageCross | AlphaVantageMarket | BankOfKorea

  datatype MarketPlan = Record(source: MarketSource, reading: Reading) | Delegate

  /** `data.success && data.rates.KRW` (or `data.quotes[XKRW]`) on an ok
      response. */
  predicate SuccessfulQuote(r: JsonReply) {
    r.JsonReply? && r.ok && r.success && Truthy(r.krw)
  }

  /** The exchange-rate object of an ok Alpha Vantage reply; this route does
      not look at 'Note' or 'Error Message'. */
  function AvQuote(r: AvReply): (q: Option<Quote>)
    ensures q.Some? <==> r.AvReply? && r.ok && r.exchange.Some?
    ensures q.Some? ==> q == r.exchange
  {
    if r.AvReply? && r.ok then r.exchange else None
  }

  /** CurrencyLayer and Fixer: the figure to two decimals, stamped with the
      body's `timestamp` (seconds) as milliseconds. */
  function TimestampedQuote(r: JsonReply): (rd: Reading)
    requires SuccessfulQuote(r)
    ensures rd.timestamp == r.epochSeconds * 1000
    ensures r.krw.value - 0.005 <= rd.rate <= r.krw.value + 0.005
  {
    Reading(ToFixed2(r.krw.value), r.epochSeconds * 1000)
  }

  /** The Alpha Vantage step: the cross rate for EUR and CNY, otherwise the
      direct X/KRW figure as reported (not restated per 100 yen). */
  function AlphaVantageReading(currency: string, av: AvReply, avUsdKrw: AvReply): (o: Option<(MarketSource, Reading)>)
    ensures CrossQuoted(currency) ==>
      (o.Some? <==> AvQuote(av).Some? && AvQuote(avUsdKrw).Some?) &&
      (o.Some? ==> o.value == (AlphaVantageCross, Reading(CrossRate(av.exchange.value, avUsdKrw.exchange.value), avUsdKrw.exchange.value.refreshed)))
    ensures !CrossQuoted(currency) ==>
      (o.Some? <==> AvQuote(av).Some?) &&
      (o.Some? ==> o.value == (AlphaVantageMarket, Reading(av.exchange.value.rate, av.exchange.value.refreshed)))
  {
    if CrossQuoted(currency) then
      match (AvQuote(av), AvQuote(avUsdKrw))
      case (Some(xUsd), Some(usdKrw)) => Some((AlphaVantageCross, Reading(CrossRate(xUsd, usdKrw), usdKrw.refreshed)))
      case _ => None
    else
      match AvQuote(av)
      case Some(q) => Some((AlphaVantageMarket, Reading(q.rate, q.refreshed)))
      case None => None
  }

  /** The Bank of Korea figure, published per 100 yen for JPY, restated per
      yen and taken to two decimals; stamped with the request time. */
  function BankOfKoreaReading(currency: string, bok: JsonReply, now: int): (o: Option<Reading>)
    ensures o.Some? <==> bok.JsonReply? && bok.ok && bok.krw.Some?
    ensures o.Some? ==> o.value.timestamp == now
    ensures o.Some? && currency == JPY ==> o.value.rate == ToFixed2(bok.krw.value / 100.0)
    ensures o.Some? && currency != JPY ==> o.value.rate == ToFixed2(bok.krw.value)
  {
    if bok.JsonReply? && bok.ok && bok.krw.Some? then
      var perUnit := if currency == JPY then bok.krw.value / 100.0 else bok.krw.value;
      Some(Reading(ToFixed2(perUnit), now))
    else None
  }

  /** The route's decision: the first provider that yields a rate. */
  function Decide(currency: string, replies: MarketReplies, now: int): (p: MarketPlan)
    ensures SuccessfulQuote(replies.currencyLayer) ==> p == Record(CurrencyLayer, TimestampedQuote(replies.currencyLayer))
    ensures p.Record? && p.source == CurrencyLayer ==>
      SuccessfulQuote(replies.currencyLayer) && p.reading == TimestampedQuote(replies.currencyLayer)
    ensures p.Record? && p.source == Fixer ==>
      !SuccessfulQuote(replies.currencyLayer) && SuccessfulQuote(replies.fixer) && p.reading == TimestampedQuote(replies.fixer)
    ensures p.Record? && (p.source == AlphaVantageCross || p.source == AlphaVantageMarket) ==>
      !SuccessfulQuote(replies.currencyLayer) && !SuccessfulQuote(replies.fixer) &&
      AlphaVantageReading(currency, replies.av, replies.avUsdKrw) == Some((p.source, p.reading))
    ensures p.Record? && p.source == BankOfKorea ==>
      !SuccessfulQuote(replies.currencyLayer) && !SuccessfulQuote(replies.fixer) &&
      AlphaVantageReading(currency, replies.av, replies.avUsdKrw).None? &&
      BankOfKoreaReading(currency, replies.bok, now) == Some(p.reading)
    ensures p.Delegate? <==>
      !SuccessfulQuote(replies.currencyLayer) && !SuccessfulQuote(replies.fixer) &&
      AlphaVantageReading(currency, replies.av, replies.avUsdKrw).None? &&
      BankOfKoreaReading(currency, replies.bok, now).None?
  {
    if SuccessfulQuote(replies.currencyLayer) then Record(CurrencyLayer, TimestampedQuote(replies.currencyLayer))
    else if SuccessfulQuote(replies.fixer) then Record(Fixer, TimestampedQuote(replies.fixer))
    else
      match AlphaVantageReading(currency, replies.av, replies.avUsdKrw)
      case Some((src, rd)) => Record(src, rd)
      case None =>
        match BankOfKoreaReading(currency, replies.bok, now)
        case Some(rd) => Record(BankOfKorea, rd)
        case None => Delegate
  }

  /** Unlike `/api/fetch-real-forex`, this route does not treat an Alpha
      Vantage 'Note' or 'Error Message' as a failure: the decision does not
      depend on them. */
  lemma NoteDoesNotMatter(currency: string, replies: MarketReplies, now: int, note: bool, errorMessage: bool)
    requires replies.av.AvReply?
    ensures Decide(currency, replies.(av := replies.av.(note := note, errorMessage := errorMessage)), now) ==
      Decide(currency, replies, now)
  {
    assert AvQuote(replies.av.(note := note, errorMessage := errorMessage)) == AvQuote(replies.av);
  }

  datatype MarketResponse =
    | Fresh(source: MarketSource, rate: real, refreshed: int, storedCount: nat, recent: seq<RatePoint>)
    | Relayed(rate: real, refreshed: int)
    | ServerError

  /** `GET /api/fetch-market-forex?currency=…` at time `now`; the table calls
      are taken to succeed. */
  method GetMarketForex(store: ForexStore, currencyParam: Option<string>, now: int, replies: MarketReplies)
    returns (response: MarketResponse)
    requires store.Valid()
    modifies store
    ensures store.Valid()
    ensures store.predictions == old(store.predictions) && store.nextPredictionId == old(store.nextPredictionId)
    ensures
      var currency := Param(currencyParam, USD);
      match Decide(currency, replies, now)
      case Record(src, rd) =>
        var saved := Save(old(store.rates), old(store.nextRateId), currency, rd.rate, rd.timestamp, now, NoFault);
        var stored := LatestRows(store.rates, currency, RecentLimit);
        store.rates == saved.rows && store.nextRateId == saved.nextId &&
        response.Fresh? && response.source == src && response.rate == rd.rate && response.refreshed == rd.timestamp &&
        response.storedCount == |stored| && response.recent == Recent(stored) &&
        1 <= response.storedCount <= RecentLimit
      case Delegate =>
        store.rates == old(store.rates) && store.nextRateId == old(store.nextRateId) &&
        response == match replies.delegate
          case DelegateOk(rate, refreshed) => Relayed(rate, refreshed)
          case _ => ServerError
  {
    var currency := Param(currencyParam, USD);
    match Decide(currency, replies, now) {
      case Record(src, rd) =>
        var _, stored := store.SaveAndReadBack(currency, rd.rate, rd.timestamp, now, NoFault);
        response := Fresh(src, rd.rate, rd.timestamp, |stored|, Recent(stored));
      case Delegate =>
        match replies.delegate {
          case DelegateOk(rate, refreshed) =>
            response := Relayed(rate, refreshed);
          case _ =>
            response := ServerError;
        }
    }
  }
}
