# Forex dashboard core, modelled in Dafny

This project models the server-side and numeric core of a Korean-won forex
dashboard. The dashboard is a Next.js application: route handlers fetch
exchange rates from third-party providers and store them in a hosted table,
and client components compute forecasts and indicators from the stored
series. The model covers:

- **The rate tables** (`rate_table.dfy`). These are the `forex_rates` and
  `forex_predictions` tables and the four helpers that write and read them:
  - `saveForexData` looks a key up with `.single()`, then updates or
    inserts. PGRST116 (no single row) counts as "absent".
  - `getForexData` returns the newest `days` rows of a currency, newest
    first.
  - `savePrediction` and `getPredictions` store predictions and read back
    the upcoming ones in target-date order.
  - The class `ForexStore` holds both tables as sequences and the ids each
    will hand out next.
- **The rate-fetching routes**:
  - `/api/fetch-real-forex` (`real_forex.dfy`): a one-minute cache, then
    ExchangeRate-API, Alpha Vantage (with the rate-limit fallback to the
    stored rate), CurrencyLayer and the Bank of Korea.
  - `/api/fetch-market-forex` (`market_forex.dfy`): CurrencyLayer, Fixer,
    Alpha Vantage and the Bank of Korea, then a relay to the real-forex
    route.
  - `/api/auto-update-forex` (`auto_update.dfy`): a sweep of the four
    currencies with a five-minute throttle.
  - `/api/fetch-all-forex` (`fetch_all.dfy`): one Alpha Vantage
    `CURRENCY_EXCHANGE_RATE` call per currency, and a partition into
    results and errors.
  - `/api/fetch-cross-rates` (`cross_rates.dfy`): a KRW cross rate from two
    USD quotes.
  - `/api/fetch-ohlc-forex` (`ohlc.dfy`): the daily OHLC window,
    oldest-first.
- **The read routes**:
  - `/api/forex-rates` (`forex_rates_route.dfy`): the newest `limit` rows,
    oldest-first.
  - The chat route `/api/forex-prediction` (`chat_intent.dfy`): it detects
    the currency asked about and composes a reply from the newest rate and
    the newest prediction.
- **The numeric components**:
  - The ARIMA-style model class (`arima.dfy`): differencing, reintegration,
    weight fitting, rollout forecasts, volatility and confidence.
  - The technical-analysis indicators (`technical.dfy`): SMA and Bollinger
    bands.
  - The ensemble prediction enhancer (`ensemble.dfy`): four component
    forecasts, their blend, the market-state adjustments and the confidence
    schedule.
  - The heat-map grid (`heatmap.dfy`): a table of base rates, a per-cell
    random nudge, and percentage changes against the grid the refresh
    function sees. The retry button, shown only while an error message is
    displayed, measures them against the grid on display. The 30-second interval, set up once on mount, keeps the first
    render's empty grid, so every polled refresh reports zero change. The
    rendering helpers are also modelled.

Shared modules:

- `optional.dfy`: the absent-or-present value.
- `js_number.dfy`: JavaScript number helpers over `real`.
- `sorting.dfy`: a stable sort by key, used for the tables' `.order`.
- `js_array.dfy`: `reverse`, including an in-place reversal of an array.
- `providers.dfy`: what the routes see of each provider reply.

The routes do not agree on how JPY is scaled when stored:

- `/api/fetch-real-forex` and `/api/auto-update-forex` store the KRW price
  of 100 yen.
- `/api/fetch-market-forex` stores the price of one yen. Its Bank of Korea
  figure is divided by 100.
- `/api/fetch-all-forex` and `/api/fetch-cross-rates` store the figure as
  the provider reports it.

Each of these is modelled as written.

`ArimaModel.predict` undoes differencing `d` times, and every pass starts
from the last observed value (utils/arimaModel.ts:107-116). For `d = 1`
this re-integrates the forecast differences. For `d >= 2` it is not the
inverse of differencing. The model follows the code (`Arima.UndoN`), and
proves the prefix-sum reading for `d = 1` only.

Where the routes call a provider, the reply is an input of the model (a
datatype of the shapes the handler distinguishes). The clock is an integer
`now` in epoch milliseconds. The random numbers drawn by `Math.random` are
inputs too. `Math.exp` and `Math.sqrt` are function parameters, of which
only their sign is assumed.

## Model

| member | source | states |
|---|---|---|
| RateTable.SingleMatch | utils/supabase.ts:38-48 | the `.single()` lookup yields a row index only when that row has the key and no other row does; otherwise the key matches zero rows or more than one (PGRST116) |
| RateTable.Matching | utils/supabase.ts:38-43 | the indices of exactly the rows with the (currency, timestamp) key, in ascending order |
| RateTable.SetRateById | utils/supabase.ts:53-58 | every row with the id gets the new rate; every other row is unchanged and the length is kept |
| RateTable.Save | utils/supabase.ts:33-87 | a failed save leaves the table and the next id as they were, and a lookup error fails first; an insert appends the row with the next id and `created_at = now`; an update keeps the length; every earlier row keeps its id, key and creation time; a successful save returns a row with the key and the new rate |
| RateTable.SaveUpdatesOnlyTheRate | utils/supabase.ts:50-66 | when the key is stored (unique keys, fresh ids), the save is an update that changes that row's rate and no other row or field |
| RateTable.SaveInsertsWhenAbsent | utils/supabase.ts:45-48 | when no row has the key, the lookup's PGRST116 leads to an insert of exactly one new row |
| RateTable.SingleMatchUnderUniqueKeys | utils/supabase.ts:38-48 | under unique keys, "no single row" means that no row has the key |
| RateTable.MatchingNone | utils/supabase.ts:38-43 | a key no row carries matches nothing |
| RateTable.MatchingAtMostOne | utils/supabase.ts:38-43 | under unique keys a key matches at most one row |
| RateTable.SavePreservesUniqueKeys | utils/supabase.ts:33-87 | at most one row per (currency, timestamp) before a save implies the same after it |
| RateTable.SavePreservesIdsFresh | utils/supabase.ts:33-87 | row ids stay distinct and below the next id to assign |
| RateTable.SavedKeyIsStored | utils/supabase.ts:50-82 | after a successful save some row has the key and the new rate |
| RateTable.SaveKeepsOtherKeys | utils/supabase.ts:53-58 | a save leaves every row with another key exactly as it was |
| RateTable.OfCurrency | utils/supabase.ts:93-96 | keeps exactly the rows of the currency |
| RateTable.LatestRows | utils/supabase.ts:90-111 | exactly `min(days, count)` rows of the currency, each taken at most as often as it is stored (a sub-multiset of the currency's rows), in non-increasing timestamp order |
| RateTable.LatestRowsAreNewest | utils/supabase.ts:93-98 | no row of the currency left out of the result is newer than a row in it |
| RateTable.LatestRowsNonEmpty | utils/supabase.ts:93-98 | a currency with a stored row reads back at least one row |
| RateTable.SavedRowIsReadBack | utils/supabase.ts:33-111 | after a successful save, reading the currency back returns at least one row |
| RateTable.UpcomingPredictions | utils/supabase.ts:126-130 | keeps exactly the predictions of the currency whose target date is not before `now` |
| RateTable.Recent | app/api/fetch-real-forex/route.ts:179-182 | the first three rows read back, as (rate, timestamp) points, in order |
| RateTable.ForexStore.SaveForexData | utils/supabase.ts:33-87 | the new table and next id are those of `Save`, and the prediction table is unchanged; fresh ids are kept |
| RateTable.ForexStore.SaveAndReadBack | app/api/fetch-real-forex/route.ts:164-170 | the save of `SaveForexData`, then the newest five rows; a successful save reads back between one and five rows |
| RateTable.ForexStore.GetForexData | utils/supabase.ts:90-111 | exactly `min(days, count)` rows of the currency (days defaulting to 30), newest first, a sub-multiset of the stored rows of that currency; the table is unchanged |
| RateTable.ForexStore.SavePrediction | utils/supabase.ts:114-122 | a failed insert changes nothing; otherwise exactly one row with the next id and `created_at = now` is appended and returned, and the rate table is untouched |
| RateTable.ForexStore.GetPredictions | utils/supabase.ts:125-135 | a permutation of the upcoming predictions of the currency, in ascending target-date order |
| Providers.Param | app/api/fetch-real-forex/route.ts:25 | an absent or empty query parameter takes the default; otherwise it is used as given |
| Providers.Per100Yen | app/api/fetch-real-forex/route.ts:66-69 | the JPY figure is multiplied by 100; every other figure is unchanged |
| Providers.CrossRate | app/api/fetch-real-forex/route.ts:252-253 | X/USD times USD/KRW, rounded to two decimals (within 0.005 of the product) |
| Providers.BokSeriesCode | app/api/fetch-real-forex/route.ts:566 | USD, JPY and EUR request their own series; every other currency requests CNY |
| RealForex.ClassifyAv | app/api/fetch-real-forex/route.ts:395-408 | an ok reply without 'Note' that carries the exchange object yields its quote; an ok reply with 'Note' is the rate limit; a throw is a throw; anything else is no data |
| RealForex.ErApiReading | app/api/fetch-real-forex/route.ts:144-160 | an ok reply with a truthy `rates.KRW` gives that rate (times 100 for JPY), stamped with the request time; otherwise nothing |
| RealForex.AlphaVantageStep | app/api/fetch-real-forex/route.ts:199-471 | USD and JPY: the direct quote (per 100 yen for JPY) at its refresh time; EUR and CNY: the cross rate at the USD/KRW refresh time, only when both quotes arrive; a failure comes from a throw and a rate limit from a 'Note' |
| RealForex.BackupReading | app/api/fetch-real-forex/route.ts:502-618 | CurrencyLayer exactly when its key is set and it answers ok, successfully, with a truthy quote (per 100 yen for JPY); the Bank of Korea figure to two decimals exactly when CurrencyLayer is not usable and the Bank of Korea key is set and it answers with a figure; nothing exactly when neither is usable; stamped with the request time |
| RealForex.Decide | app/api/fetch-real-forex/route.ts:23-621 | a valid cache entry is served unless `force=true`; otherwise ExchangeRate-API wins whenever it answers; when it does not: without the Alpha Vantage key the stored row is served, and with it the Alpha Vantage outcome decides (its rate is recorded, a 'Note' falls back to the stored row, an exception fails), and only when Alpha Vantage has no data are CurrencyLayer and then the Bank of Korea tried, failing when neither answers |
| RealForex.BackupsAfterAlphaVantageNoData | app/api/fetch-real-forex/route.ts:502-621 | after ExchangeRate-API and an Alpha Vantage reply that is not ok: a usable CurrencyLayer quote is recorded, else a usable Bank of Korea figure, else the request fails |
| RealForex.WithoutKeyOnlyExchangeRateApi | app/api/fetch-real-forex/route.ts:51-138 | without an Alpha Vantage key the outcome does not depend on any provider but ExchangeRate-API |
| RealForex.FetchErrorSkipsBackups | app/api/fetch-real-forex/route.ts:472-500 | an Alpha Vantage exception other than the rate limit ends the request with an error, and the backups are not tried |
| RealForex.CrossRateRecorded | app/api/fetch-real-forex/route.ts:202-291 | for EUR and CNY, two good quotes record the cross rate stamped with the USD/KRW refresh time |
| RealForex.RecordedRateServedForAMinute | app/api/fetch-real-forex/route.ts:4-20 | a rate cached at `now` is served unchanged to every request without `force` in the following minute |
| RealForex.StoredResponse | app/api/fetch-real-forex/route.ts:109-134 | an error exactly when the currency has no stored row; otherwise the rate and timestamp of a stored row of that currency that no other row of it postdates |
| RealForex.RealForexRoute.Get | app/api/fetch-real-forex/route.ts:23-637 | follows `Decide`: a cache hit changes nothing; a recorded rate is saved (the row id counter moving as the save says) and cached with `now`, and the response reports the count and first three of the currency's newest five rows read back (1 to 5 rows); a fallback answers from the newest stored row; a failure is a 500 with nothing changed; the predictions and their id counter never change |
| MarketForex.AvQuote | app/api/fetch-market-forex/route.ts:238-242 | the exchange object of an ok reply; 'Note' and 'Error Message' are ignored |
| MarketForex.TimestampedQuote | app/api/fetch-market-forex/route.ts:20-22 | the quote to two decimals, stamped with the body's `timestamp` in seconds, converted to milliseconds |
| MarketForex.AlphaVantageReading | app/api/fetch-market-forex/route.ts:96-274 | the cross rate for EUR and CNY exactly when both quotes arrive; the direct quote as reported (not per 100 yen) for the others |
| MarketForex.BankOfKoreaReading | app/api/fetch-market-forex/route.ts:277-305 | a figure exactly when the reply carries one; JPY's figure is divided by 100; two decimals; stamped with the request time |
| MarketForex.Decide | app/api/fetch-market-forex/route.ts:11-331 | CurrencyLayer wins when it answers and is recorded only with its own quote and timestamp; then Fixer, then Alpha Vantage, then the Bank of Korea; the relay to the real-forex route happens exactly when none of the four yields a rate |
| MarketForex.NoteDoesNotMatter | app/api/fetch-market-forex/route.ts:107-111 | an Alpha Vantage 'Note' or 'Error Message' does not change the decision |
| MarketForex.GetMarketForex | app/api/fetch-market-forex/route.ts:4-360 | a chosen rate is saved, and the response reports the count and first three of the currency's newest five rows read back (1 to 5 rows); the relay keeps the table and the id counter and answers with the delegate's rate, or a 500 when the delegate fails; the predictions and their id counter never change |
| AutoUpdate.Attempt | app/api/auto-update-forex/route.ts:46-72 | a rate exactly when the call did not throw, the response is ok, carries no 'Note' and has the exchange object; the rate is per 100 yen for JPY and stamped with its refresh time |
| AutoUpdate.Step | app/api/auto-update-forex/route.ts:43-109 | one currency appends exactly one result for it and keeps the earlier results; it succeeds exactly when the reply yields a reading and its save does not fail, and then reports that reading; the table changes only through that save |
| AutoUpdate.SweepUpTo | app/api/auto-update-forex/route.ts:42-110 | after `n` currencies there are `n` results, the `i`-th for the `i`-th currency of USD, JPY, EUR, CNY |
| AutoUpdate.CountSucceeded | app/api/auto-update-forex/route.ts:91 | the success count never exceeds the number of results |
| AutoUpdate.SweepStoresReportedRates | app/api/auto-update-forex/route.ts:64-91 | every currency reported as updated has its rate stored under its refresh time when the sweep ends, and ids stay fresh |
| AutoUpdate.StepStoresReported | app/api/auto-update-forex/route.ts:77-91 | a step for a currency not seen before keeps every earlier reported rate stored and stores its own |
| AutoUpdate.SweepUpToNext | app/api/auto-update-forex/route.ts:42 | the sweep over `n + 1` currencies is the sweep over `n` followed by one step |
| AutoUpdate.CountSucceededAppend | app/api/auto-update-forex/route.ts:91-108 | one more result adds one to the success count exactly when it is a success |
| AutoUpdate.SweepCurrency | app/api/auto-update-forex/route.ts:43-109 | the table and results after the loop body are those of `Step`, and the success flag is the new result's |
| AutoUpdate.RunSweep | app/api/auto-update-forex/route.ts:37-110 | the loop leaves the table and results of the full sweep; `successCount` counts the successes and `errorCount` the rest |
| AutoUpdate.AutoUpdater.Get | app/api/auto-update-forex/route.ts:22-142 | within five minutes of the last sweep the request is skipped and neither the table nor either id counter changes; otherwise the sweep runs, the table and row id counter become the sweep's, its results and counts are returned and `now` is recorded; predictions are never touched |
| AutoUpdate.AutoUpdater.Post | app/api/auto-update-forex/route.ts:145-149 | the sweep always runs, whatever the last sweep time: the table and row id counter become the sweep's, the results and counts are returned, and the predictions and their counter are unchanged |
| AutoUpdate.SkipsForFiveMinutes | app/api/auto-update-forex/route.ts:10-16 | a sweep recorded at a non-zero `now` makes every request up to five minutes later a skip |
| AutoUpdate.SweepsAfterFiveMinutes | app/api/auto-update-forex/route.ts:10-16 | with no recorded sweep, a recorded 0, or one more than five minutes old, the request sweeps |
| FetchAll.Attempt | app/api/fetch-all-forex/route.ts:25-41 | a quote exactly when the call did not throw, the body has neither 'Error Message' nor 'Note' and it carries the exchange object; the status is not consulted |
| FetchAll.Step | app/api/fetch-all-forex/route.ts:19-82 | one currency is filed exactly once: as an error, or as one more result that reads back at least one stored row |
| FetchAll.StepFollowsReply | app/api/fetch-all-forex/route.ts:25-81 | a step files an error exactly when the reply yields no quote or its save fails, and otherwise a result with the quote's rate and refresh time whose stored count and recent rates are those of the currency's newest five rows after the save; the table changes only through that save |
| FetchAll.Names | app/api/fetch-all-forex/route.ts:98 | the currencies of the results, in order |
| FetchAll.StepFilesCurrency | app/api/fetch-all-forex/route.ts:18-83 | one step adds its currency exactly once to the results and errors together |
| FetchAll.FilingAddsCurrency | app/api/fetch-all-forex/route.ts:58-81 | filing a currency adds it exactly once to the multiset of result and error currencies |
| FetchAll.StepReadsBack | app/api/fetch-all-forex/route.ts:52-63 | a step keeps every result read back from the table |
| FetchAll.RunPartitionsCurrencies | app/api/fetch-all-forex/route.ts:18-83 | the results and errors together hold each processed currency exactly once |
| FetchAll.RunStepFilesOne | app/api/fetch-all-forex/route.ts:18-19 | the run over `n` currencies files the `n`-th exactly once after the run over `n - 1` |
| FetchAll.PartitionStep | app/api/fetch-all-forex/route.ts:18-83 | the partition of the processed currencies extends by the currency just filed |
| FetchAll.RunReadsBack | app/api/fetch-all-forex/route.ts:52-68 | every result of the run reports at least one stored row |
| FetchAll.GetAllForex | app/api/fetch-all-forex/route.ts:7-115 | without a key nothing is stored; otherwise the loop leaves the run's table and row id counter, and the response lists its results and errors, succeeding exactly when there is no error; the predictions and their counter are unchanged |
| CrossRates.UsableQuote | app/api/fetch-cross-rates/route.ts:21-28 | a quote exactly when the call did not throw, the body has neither 'Error Message' nor 'Note' and it carries the exchange object |
| CrossRates.Quotient | app/api/fetch-cross-rates/route.ts:47 | a positive rate that, multiplied by USD/X, gives USD/KRW |
| CrossRates.QuotientAgreesWithProduct | app/api/fetch-cross-rates/route.ts:45-47 | when the X/USD and USD/X quotes are reciprocal, USD/KRW ÷ USD/X equals the X/USD × USD/KRW product the other routes use |
| CrossRates.GetCrossRate | app/api/fetch-cross-rates/route.ts:6-96 | a missing key or an unusable quote is a 500 with nothing stored; otherwise the quotient rounded by `Math.round(x * 100) / 100` is saved under the USD/KRW refresh time; a failed save is a 500; a success reports the unrounded quotient, a stored row that carries its rounding, and the count and first three of the currency's newest five rows; the predictions and their counter are unchanged |
| Ohlc.ToRecord | app/api/fetch-ohlc-forex/route.ts:39-46 | the date, its timestamp and the four prices of one day, unchanged |
| Ohlc.Parsed | app/api/fetch-ohlc-forex/route.ts:38-47 | one record per series entry, in the series' order |
| Ohlc.ParseSeries | app/api/fetch-ohlc-forex/route.ts:35-47 | the parsing loop yields `Parsed` of the series |
| Ohlc.Window | app/api/fetch-ohlc-forex/route.ts:50-56 | as many records as `slice(0, days)` keeps, negative `days` included, and a sub-multiset of the parsed records |
| Ohlc.WindowAscending | app/api/fetch-ohlc-forex/route.ts:50-56 | the returned records are in ascending date order |
| Ohlc.WindowKeepsNewest | app/api/fetch-ohlc-forex/route.ts:50-53 | no record left out of the window is later than a record kept |
| Ohlc.DroppedBehind | app/api/fetch-ohlc-forex/route.ts:53 | a sorted record that the slice does not keep sits at or after the cut |
| Ohlc.ReversedSameMultiset | app/api/fetch-ohlc-forex/route.ts:56 | reversing keeps every element and its count |
| Ohlc.ReversedMembers | app/api/fetch-ohlc-forex/route.ts:56 | an element of the reversed sequence is an element of the original |
| Ohlc.NewestWindow | app/api/fetch-ohlc-forex/route.ts:50-56 | sorting, slicing into a fresh array and reversing it in place yields `Window` |
| Ohlc.GetOhlc | app/api/fetch-ohlc-forex/route.ts:3-89 | a throw is a 500; a reply without the series is the rate-limit answer when it carries 'Note' and a 500 otherwise; a series gives the window, its count, and first and last dates exactly when it is not empty |
| JsArray.Reversed | app/api/fetch-ohlc-forex/route.ts:56 | the same length as its argument |
| JsArray.ReversedAt | app/api/fetch-ohlc-forex/route.ts:56 | position `k` of the reversal holds position `n - 1 - k` of the original |
| JsArray.ReversedTwice | app/api/forex-rates/route.ts:24 | reversing twice gives the sequence back |
| JsArray.ReverseInPlace | app/api/fetch-ohlc-forex/route.ts:56 | the array afterwards holds the reversal of its old contents |
| JsArray.SliceEnd | app/api/fetch-ohlc-forex/route.ts:53 | the number of elements `slice(0, end)` keeps, with a negative `end` counting back from the length |
| Sorting.Insert | utils/supabase.ts:97 | inserting into a sorted sequence keeps it sorted and adds exactly the one element |
| Sorting.InsertStep | utils/supabase.ts:97 | the least element put before the insertion into the rest keeps the order and the elements |
| Sorting.SortedCons | utils/supabase.ts:97 | a head no greater than every element of a sorted tail gives a sorted sequence |
| Sorting.SortBy | utils/supabase.ts:97 | a permutation of its argument, in ascending key order |
| ForexRatesRoute.ReversedIsAscending | app/api/forex-rates/route.ts:23-24 | reversing a newest-first list gives an oldest-first one |
| ForexRatesRoute.ReversedSameRows | app/api/forex-rates/route.ts:24 | reversal keeps exactly the same rows |
| ForexRatesRoute.GetForexRates | app/api/forex-rates/route.ts:4-46 | a read error is a 500; no rows gives the no-data answer; otherwise the newest `limit` rows (default 30), reversed; the rows listed are the currency's, from the table, in ascending timestamp order, and at most `limit` of them |
| ForexRatesRoute.ReverseRows | app/api/forex-rates/route.ts:24 | the rows in reverse order, produced by reversing an array copy in place |
| ChatIntent.UpperChar | app/api/forex-prediction/route.ts:23 | one character's upper case: `a`-`z` move to `A`-`Z`, other ASCII stays, and no lower-case ASCII letter is left; the result has one to three characters, as `ß` gives `SS` |
| ChatIntent.ToUpper | app/api/forex-prediction/route.ts:23 | the message upper-cased character by character: no lower-case ASCII letter remains, it is never shorter, and an ASCII message keeps its length |
| ChatIntent.ToUpperIdempotent | app/api/forex-prediction/route.ts:23 | upper-casing twice gives the same string as upper-casing once |
| ChatIntent.FirstFound | app/api/forex-prediction/route.ts:22-24 | the index of the first code the text contains, or nothing exactly when it contains none |
| ChatIntent.DetectCurrency | app/api/forex-prediction/route.ts:21-24 | one of USD, JPY, CNY, EUR found in the upper-cased message, or nothing exactly when none occurs |
| ChatIntent.EarlierCodeWins | app/api/forex-prediction/route.ts:21-24 | a message containing two codes asks about the one earlier in the list, wherever the two occur |
| ChatIntent.DetectCaseInsensitive | app/api/forex-prediction/route.ts:21-24 | for every message, upper-casing it first does not change the currency detected |
| ChatIntent.LowerCaseCodeDetected | app/api/forex-prediction/route.ts:23 | "usd" is recognised as USD |
| ChatIntent.LongSCodeDetected | app/api/forex-prediction/route.ts:23 | "u\u017Fd", with a long s, is recognised as USD, since the long s upper-cases to S |
| ChatIntent.LatestPrediction | app/api/forex-prediction/route.ts:46-51 | a stored prediction of the currency that no other prediction of it postdates, or nothing exactly when it has none |
| ChatIntent.ShownConfidence | app/api/forex-prediction/route.ts:74 | the stored confidence when it is non-zero, otherwise a value in [75, 95) |
| ChatIntent.ComposeReply | app/api/forex-prediction/route.ts:58-85 | no rate row gives the cannot-retrieve sentence; a zero rate gives the invalid-data sentence; otherwise the current rate to two decimals, then the prediction and its confidence when the prediction has a truthy rate, then the guidance sentence |
| ChatIntent.Post | app/api/forex-prediction/route.ts:16-102 | no code asks which currency is meant; a rate-read error is a 500; otherwise the reply is composed from the newest rate row and the newest prediction, and a prediction-read error only drops the prediction |
| Arima.DiffOnce | utils/arimaModel.ts:24-28 | one element shorter (empty stays empty); element `j` is `r[j+1] - r[j]` |
| Arima.DiffN | utils/arimaModel.ts:20-31 | `order` passes shorten the series by `order`, never below empty |
| Arima.Integrate | utils/arimaModel.ts:110-115 | one re-integration pass keeps the length |
| Arima.IntegrateIsPrefixSums | utils/arimaModel.ts:110-115 | element `k` of a pass is the base plus the first `k + 1` values |
| Arima.IntegrateUndoesDiff | utils/arimaModel.ts:106-116 | re-integrating the differences of a series from its first value gives back the rest of the series |
| Arima.UndoStep | utils/arimaModel.ts:112-114 | one more difference re-integrates to one more value |
| Arima.TailSnoc | utils/arimaModel.ts:112-114 | the tail of a series is the tail of its front plus its last value |
| Arima.DiffSnoc | utils/arimaModel.ts:25-27 | the differences of a series end with the difference of its last two values |
| Arima.IntegrateSnoc | utils/arimaModel.ts:112-114 | re-integrating one more value appends the last running sum plus that value |
| Arima.UndoN | utils/arimaModel.ts:107-116 | `d` passes, each started at the last observed value, keep the length |
| Arima.Zeros | utils/arimaModel.ts:73 | `n` zeros |
| Arima.TakeLast | utils/arimaModel.ts:85 | `slice(-p)`: the last `p` entries, and the whole series for `p = 0` |
| Arima.StartWindow | utils/arimaModel.ts:85-90 | the window holds `p` entries (the whole series for `p = 0`): the last differences behind leading zeros |
| Arima.Shift | utils/arimaModel.ts:103 | the window keeps its length (one entry if it was empty) and ends with the new value |
| Arima.Rollout | utils/arimaModel.ts:92-104 | exactly `steps` differenced forecasts |
| Arima.WeightedSumOfConstant | utils/arimaModel.ts:96-98 | a window holding one value `c` weighs to `c` times the sum of the weights used |
| Arima.WeightedSum | utils/arimaModel.ts:93-98 | a window whose last `m` values are zero weighs to zero; non-negative weights over non-negative values never weigh to a negative sum |
| Arima.ConstantWindowForecastFlat | utils/arimaModel.ts:92-104 | weights summing to one and a constant window forecast that constant at every step |
| Arima.EqualWeights | utils/arimaModel.ts:47-49 | `k` weights, each `1/k` |
| Arima.EqualWeightsSumToOne | utils/arimaModel.ts:47-49 | `k > 0` equal weights sum to one |
| Arima.DecayWeights | utils/arimaModel.ts:55-59 | weight `i` is `exp(-0.1 i)`, for `i < p` |
| Arima.Normalised | utils/arimaModel.ts:64 | each weight divided by the total, the length kept |
| Arima.FitWeightsShort | utils/arimaModel.ts:45-51 | too few differences give one equal weight per difference, summing to one unless there are none |
| Arima.FitWeights | utils/arimaModel.ts:34-68 | an empty series gets the single weight 1; otherwise one weight per difference when there are at most `p` of them, and `p` weights when there are more |
| Arima.NormalisedPositive | utils/arimaModel.ts:62-64 | positive weights normalised by their sum are positive and sum to one |
| Arima.FitWeightsLong | utils/arimaModel.ts:53-67 | enough differences give exactly `p` positive weights that sum to one |
| Arima.FitWeightsEmpty | utils/arimaModel.ts:37-40 | fitting an empty series sets the single weight 1 |
| Arima.Forecast | utils/arimaModel.ts:71-119 | exactly `steps` forecasts |
| Arima.ForecastFallbacks | utils/arimaModel.ts:72-82 | no data forecasts zeros; data that differencing empties forecasts its last value throughout |
| Arima.ForecastFirstDifferences | utils/arimaModel.ts:106-116 | with `d = 1`, forecast `k` is the last observed value plus the first `k + 1` forecast differences |
| Arima.WindowOfConstant | utils/arimaModel.ts:85 | a window cut from constant differences holds only that constant |
| Arima.PrefixSumsOfConstant | utils/arimaModel.ts:110-115 | running sums of a constant `c` grow by `c` per step |
| Arima.ForecastKeepsSteadyStep | utils/arimaModel.ts:71-119 | a series moving by the same step `c` throughout, with weights summing to one and `d = 1`, is forecast to keep moving by `c` per step |
| Arima.Volatility | utils/arimaModel.ts:136-152 | 0.1 for fewer than two points; never negative |
| Arima.Returns | utils/arimaModel.ts:139-145 | at most one return per consecutive pair, and exactly one per pair when no previous value is zero |
| Arima.ConfidenceAt | utils/arimaModel.ts:125-132 | every confidence lies within [30, 100] |
| Arima.ShortWeights | utils/arimaModel.ts:47-49 | the short-series weights are `EqualWeights(n)` |
| Arima.DecayLoop | utils/arimaModel.ts:54-59 | the loop builds `DecayWeights(p)` |
| Arima.PadWindow | utils/arimaModel.ts:88-90 | the padding loop puts zeros in front up to `p` entries and leaves a longer window alone |
| Arima.WeighWindow | utils/arimaModel.ts:93-98 | the inner loop computes the weighted sum over `min(weights, window)` terms |
| Arima.ForecastDifferences | utils/arimaModel.ts:84-104 | the forecast loop yields `Rollout` |
| Arima.IntegratePass | utils/arimaModel.ts:110-115 | one pass of the re-integration loop yields `Integrate` |
| Arima.Reintegrate | utils/arimaModel.ts:107-116 | the `d` passes yield `UndoN` |
| Arima.ArimaModel.constructor | utils/arimaModel.ts:13-17 | the parameters are stored, and data and weights start empty |
| Arima.ArimaModel.DifferenceOnce | utils/arimaModel.ts:24-28 | the inner loop yields `DiffOnce` |
| Arima.ArimaModel.Difference | utils/arimaModel.ts:20-31 | `difference(data, order)` yields `DiffN` |
| Arima.ArimaModel.Fit | utils/arimaModel.ts:34-68 | the series is stored and the weights are `FitWeights` of it |
| Arima.ArimaModel.Predict | utils/arimaModel.ts:71-119 | the forecasts are `Forecast` of the stored series and weights |
| Arima.ArimaModel.CalculateVolatility | utils/arimaModel.ts:136-152 | the loop's returns give `Volatility`: 0.1 without returns, otherwise the population standard deviation of the returns |
| Arima.ArimaModel.CalculateConfidence | utils/arimaModel.ts:122-133 | one confidence per forecast, each in [30, 100] and equal to `ConfidenceAt` of its index and the volatility |
| Technical.Trailing | components/TechnicalAnalysis.tsx:81 | the `period` values ending at `idx` |
| Technical.Sma | components/TechnicalAnalysis.tsx:78-84 | one entry per value, null exactly for the first `period - 1` |
| Technical.WindowMeanWithinRange | components/TechnicalAnalysis.tsx:81-82 | a window of values within [lo, hi] averages to within [lo, hi] |
| Technical.SmaWithinRange | components/TechnicalAnalysis.tsx:78-84 | every average lies between any lower and upper bound of the series |
| Technical.SmaOfConstant | components/TechnicalAnalysis.tsx:78-84 | a constant series averages to itself wherever an average is defined |
| Technical.Bollinger | components/TechnicalAnalysis.tsx:55-75 | the middle band is the SMA; the upper and lower bands have one entry per value, null exactly for the first `period - 1` |
| Technical.BandsOrdered | components/TechnicalAnalysis.tsx:57-74 | lower ≤ middle ≤ upper, and the bands are symmetric about the middle |
| Technical.DeviationNonNegative | components/TechnicalAnalysis.tsx:57-63 | the window's standard deviation is never negative |
| Technical.Present | components/TechnicalAnalysis.tsx:104-108 | filtering out nulls never lengthens the list |
| Technical.PresentCount | components/TechnicalAnalysis.tsx:104-108 | a list null for exactly its first `m` entries keeps `max(0, n - m)` entries |
| Technical.SortedRates | components/TechnicalAnalysis.tsx:92-98 | the rates of the points, in ascending timestamp order |
| Technical.IndicatorCounts | components/TechnicalAnalysis.tsx:97-109 | each 20-period list holds `max(0, n - 19)` values and the 50-period one `max(0, n - 49)` |
| Ensemble.SquareSum | components/ForexPredictionEnhancer.tsx:246-248 | the sum of squared deviations is never negative |
| Ensemble.Autocorrelation | components/ForexPredictionEnhancer.tsx:235-251 | 0 whenever the lag leaves fewer than two pairs |
| Ensemble.LagZeroIsSquareSum | components/ForexPredictionEnhancer.tsx:242-248 | at lag 0 the numerator's products equal the denominator's squares |
| Ensemble.AutocorrelationAtLagZero | components/ForexPredictionEnhancer.tsx:235-251 | a varying series has autocorrelation exactly 1 at lag 0 |
| Ensemble.CalculateAutocorrelation | components/ForexPredictionEnhancer.tsx:235-251 | the two loops compute `Autocorrelation` |
| Ensemble.ArimaComponent | components/ForexPredictionEnhancer.tsx:102-121 | below ten points the forecast is the base rate |
| Ensemble.DriftPathWithoutDrift | components/ForexPredictionEnhancer.tsx:113-118 | with zero average difference the drift loop never leaves the base rate, whatever the autocorrelation |
| Ensemble.DriftPath | components/ForexPredictionEnhancer.tsx:113-118 | with a non-negative autocorrelation the path never falls below the base rate under a non-negative average drift, and never rises above it under a non-positive one |
| Ensemble.Differences | components/ForexPredictionEnhancer.tsx:105-108 | the loop yields the first differences of the series |
| Ensemble.Drift | components/ForexPredictionEnhancer.tsx:113-118 | the loop yields `days` steps of the drift path |
| Ensemble.CalculateArimaPrediction | components/ForexPredictionEnhancer.tsx:102-121 | the method computes `ArimaComponent` |
| Ensemble.IndexSums | components/ForexPredictionEnhancer.tsx:131-134 | closed forms: twice the index sum is n(n-1), six times the index-square sum is (n-1)n(2n-1) |
| Ensemble.DenominatorAlgebra | components/ForexPredictionEnhancer.tsx:136 | for those closed forms n·sumXX − sumX² is positive once n ≥ 2 |
| Ensemble.DenominatorPositive | components/ForexPredictionEnhancer.tsx:136 | the regression never divides by zero on two or more points |
| Ensemble.SlopeOfFlat | components/ForexPredictionEnhancer.tsx:136 | a constant series has slope 0 |
| Ensemble.Slope | components/ForexPredictionEnhancer.tsx:136 | the slope is zero exactly when `n * sumXY == sumX * sumY`, and for a positive denominator positive exactly when `n * sumXY` exceeds `sumX * sumY` |
| Ensemble.InterceptOfFlat | components/ForexPredictionEnhancer.tsx:137 | with slope 0 the intercept is the constant |
| Ensemble.Intercept | components/ForexPredictionEnhancer.tsx:137 | the fitted line passes through the mean point `(sumX / n, sumY / n)` |
| Ensemble.LinearComponent | components/ForexPredictionEnhancer.tsx:124-140 | below five points the forecast is the base rate |
| Ensemble.CrossSumOfConstant | components/ForexPredictionEnhancer.tsx:133 | for a constant series, sumXY is the constant times sumX |
| Ensemble.FlatSums | components/ForexPredictionEnhancer.tsx:131-133 | a constant series has sumY = n·c and sumXY = c·sumX |
| Ensemble.FlatLinear | components/ForexPredictionEnhancer.tsx:124-140 | the regression through a constant series predicts that constant on every horizon |
| Ensemble.SmoothedWithinRange | components/ForexPredictionEnhancer.tsx:146-151 | the smoothed level stays within any bounds of the values |
| Ensemble.Smoothed | components/ForexPredictionEnhancer.tsx:146-151 | a series constant over its first `k` values smooths to that value |
| Ensemble.SmoothingComponent | components/ForexPredictionEnhancer.tsx:143-157 | below three points the forecast is the base rate |
| Ensemble.CalculateExponentialSmoothing | components/ForexPredictionEnhancer.tsx:143-157 | the smoothing loop computes `SmoothingComponent` |
| Ensemble.FlatSmoothing | components/ForexPredictionEnhancer.tsx:143-157 | smoothing a constant series predicts that constant |
| Ensemble.TailMean | components/ForexPredictionEnhancer.tsx:163-164 | the mean of the last k positive rates is positive, so the momentum's division is defined |
| Ensemble.MovingAverageComponent | components/ForexPredictionEnhancer.tsx:160-170 | below twenty points the forecast is the base rate |
| Ensemble.FlatMovingAverage | components/ForexPredictionEnhancer.tsx:160-170 | a constant series has no momentum and predicts its level |
| Ensemble.FlatArima | components/ForexPredictionEnhancer.tsx:102-121 | a constant series has zero drift and the ARIMA forecast is its level |
| Ensemble.MarketReturns | components/ForexPredictionEnhancer.tsx:176-179 | one return per consecutive pair |
| Ensemble.Returns | components/ForexPredictionEnhancer.tsx:176-179 | the loop yields the relative change of every consecutive pair |
| Ensemble.MarketVolatility | components/ForexPredictionEnhancer.tsx:173-185 | 0.02 for fewer than ten points; the annualised volatility is never negative |
| Ensemble.CalculateMarketVolatility | components/ForexPredictionEnhancer.tsx:173-185 | the method computes the volatility: 0.02 below ten points, otherwise sqrt of 252 times the variance of the returns |
| Ensemble.CountConsistent | components/ForexPredictionEnhancer.tsx:200-202 | at most k values count and the first always counts |
| Ensemble.TrendStrength | components/ForexPredictionEnhancer.tsx:188-205 | the trend strength is never negative |
| Ensemble.CountOutliers | components/ForexPredictionEnhancer.tsx:219 | no more outliers than values |
| Ensemble.QualityScore | components/ForexPredictionEnhancer.tsx:211-222 | the score lies in (1/3, 1] |
| Ensemble.DataQuality | components/ForexPredictionEnhancer.tsx:208-223 | 0.5 on no data, otherwise in (1/3, 1] |
| Ensemble.DetectRegime | components/ForexPredictionEnhancer.tsx:226-232 | crisis exactly above 0.25, normal exactly at or below 0.15 |
| Ensemble.RegimeFactor | components/ForexPredictionEnhancer.tsx:82-83 | the regime factor lies in [0.7, 1] |
| Ensemble.RegimeFactorMonotone | components/ForexPredictionEnhancer.tsx:82-83 | a more volatile market never gets a larger regime factor |
| Ensemble.BlendIsWeightedMean | components/ForexPredictionEnhancer.tsx:50-61 | the weights sum to one: the blend lies between the least and greatest forecast, and equal forecasts blend to themselves |
| Ensemble.Blend | components/ForexPredictionEnhancer.tsx:48-59 | measured from the moving-average forecast, the blend is 40% of the ARIMA gap, 25% of the regression gap and 20% of the smoothing gap: the four weights sum to one |
| Ensemble.VolatilityAdjust | components/ForexPredictionEnhancer.tsx:72 | the volatility adjustment lies in [0.7, 1.3] |
| Ensemble.TrendAdjust | components/ForexPredictionEnhancer.tsx:75 | the trend adjustment lies in [0.8, 1.2], saturating at trend ≤ −1/3 and trend ≥ 1 |
| Ensemble.QualityAdjust | components/ForexPredictionEnhancer.tsx:78 | the quality adjustment lies in [0.8, 1.1] and passes a quality already in that range unchanged |
| Ensemble.Adjustment | components/ForexPredictionEnhancer.tsx:72-86 | the product of the four adjustments is positive |
| Ensemble.RawConfidence | components/ForexPredictionEnhancer.tsx:85-87 | the confidence lies in [60, 95] |
| Ensemble.ScaledConfidenceMonotone | components/ForexPredictionEnhancer.tsx:69-87 | for a positive scale a later day never gets a higher confidence |
| Ensemble.BaseConfidence | components/ForexPredictionEnhancer.tsx:69 | at most 90 from day 1 on, and at least 72 up to day 7 |
| Ensemble.ScaledConfidence | components/ForexPredictionEnhancer.tsx:85-87 | always within [60, 95], and equal to the scaled base confidence whenever that already lies in the range |
| Ensemble.ConfidenceNonIncreasing | components/ForexPredictionEnhancer.tsx:69-87 | a later horizon never gets a higher confidence than an earlier one |
| Ensemble.PredictionAt | components/ForexPredictionEnhancer.tsx:32-95 | each prediction carries its day, source `ensemble`, the volatility flag, and a confidence in [60, 95] |
| Ensemble.ShortSeriesPredictsBase | components/ForexPredictionEnhancer.tsx:102-170 | under three points every prediction is the base rate to two decimals |
| Ensemble.FlatSeriesPredictsLevel | components/ForexPredictionEnhancer.tsx:28-170 | a constant series is predicted at its own level on every horizon |
| Ensemble.PredictHorizon | components/ForexPredictionEnhancer.tsx:37-95 | one pass of the loop yields `PredictionAt` of its day |
| Ensemble.Forecasts | components/ForexPredictionEnhancer.tsx:31-96 | the forecasts for n days hold n entries |
| Ensemble.ForecastsAt | components/ForexPredictionEnhancer.tsx:31-96 | entry k of the forecasts is the prediction for day k + 1 |
| Ensemble.GenerateEnsemblePredictions | components/ForexPredictionEnhancer.tsx:28-99 | the seven predictions are `Forecasts` for days 1 to 7 |
| Heatmap.InitialRate | app/components/ForexHeatmap.tsx:91-116 | the table rate of the pair, or 1 when the table holds none; always positive |
| Heatmap.TableCoversGrid | app/components/ForexHeatmap.tsx:91-113 | the table holds every ordered pair of distinct grid codes |
| Heatmap.Row | app/components/ForexHeatmap.tsx:48-49 | every pair of a row has the row's base and a different target |
| Heatmap.Grid | app/components/ForexHeatmap.tsx:47-49 | every pair of the grid joins two different codes |
| Heatmap.RowCovers | app/components/ForexHeatmap.tsx:48-49 | a row holds every target other than its base |
| Heatmap.RowLength | app/components/ForexHeatmap.tsx:48-49 | a row over distinct targets has one pair fewer than targets exactly when the base is among them |
| Heatmap.GridCovers | app/components/ForexHeatmap.tsx:47-49 | the grid holds every ordered pair of distinct codes |
| Heatmap.GridLength | app/components/ForexHeatmap.tsx:47-49 | bases drawn from distinct targets give one row per base, each one pair shorter than the target list |
| Heatmap.PairList | app/components/ForexHeatmap.tsx:6-49 | the refresh visits twenty pairs, none of a code with itself |
| Heatmap.PairListShape | app/components/ForexHeatmap.tsx:6-49 | every ordered pair of distinct codes is visited |
| Heatmap.FindRate | app/components/ForexHeatmap.tsx:53-60 | the first cell of the pair when there is one; none exactly when no cell has that pair |
| Heatmap.Variation | app/components/ForexHeatmap.tsx:63 | the variation lies in [−0.2, 0.2) percent |
| Heatmap.Nudged | app/components/ForexHeatmap.tsx:63-64 | the new rate lies within 0.2% of the table rate and is positive |
| Heatmap.Cell | app/components/ForexHeatmap.tsx:52-75 | the cell of a pair carries the pair and the refresh instant, and no change when the previous grid lacks the pair |
| Heatmap.Priced | app/components/ForexHeatmap.tsx:53-75 | the change is the percent move from the previous grid's rate for the pair, or 0 when it has none |
| Heatmap.PercentMove | app/components/ForexHeatmap.tsx:67 | the percent move times the old rate is 100 times the difference |
| Heatmap.FoundPositive | app/components/ForexHeatmap.tsx:67 | a rate found in a grid of positive rates is positive, so the division is defined |
| Heatmap.CellNearTable | app/components/ForexHeatmap.tsx:52-64 | each cell's rate lies within 0.2% of its table rate |
| Heatmap.Refreshed | app/components/ForexHeatmap.tsx:47-77 | one cell per pair, the k-th drawn with the k-th random value |
| Heatmap.RefreshShape | app/components/ForexHeatmap.tsx:39-79 | a refresh yields twenty positive cells, none of a code with itself, each within 0.2% of its table rate |
| Heatmap.RefreshedPositive | app/components/ForexHeatmap.tsx:47-79 | a refresh keeps every stored rate positive |
| Heatmap.RefreshedAppend | app/components/ForexHeatmap.tsx:69-75 | one more pair appends its cell |
| Heatmap.FirstRefreshHasNoChange | app/components/ForexHeatmap.tsx:53-67 | the first refresh, with no previous grid, reports zero change everywhere |
| Heatmap.RateGrid.constructor | app/components/ForexHeatmap.tsx:33 | the grid starts empty |
| Heatmap.RateGrid.GetRateData | app/components/ForexHeatmap.tsx:144-151 | the stored cell of the pair if any, none exactly when no stored cell has that pair |
| Heatmap.RateGrid.FetchExchangeRates | app/components/ForexHeatmap.tsx:39-88 | a refresh from the button: the stored grid becomes `Refreshed` of the grid on display over the twenty pairs; rates stay positive |
| Heatmap.RateGrid.Poll | app/components/ForexHeatmap.tsx:119-141 | a refresh from the mounted interval: the grid becomes `Refreshed` of the empty grid, so every cell's change is zero; rates stay positive |
| Heatmap.RefreshGrid | app/components/ForexHeatmap.tsx:45-78 | the nested loops over base and target codes build exactly `Refreshed` of the given previous grid over the twenty pairs |
| Heatmap.RowStep | app/components/ForexHeatmap.tsx:48-49 | one more target extends a row by at most its pair |
| Heatmap.RefreshStep | app/components/ForexHeatmap.tsx:48-76 | one inner step appends the cell of the pair exactly when the target differs from the base |
| Heatmap.GridStep | app/components/ForexHeatmap.tsx:47 | one more base extends the grid by its row |
| Heatmap.RefreshRow | app/components/ForexHeatmap.tsx:48-76 | the inner loop over the targets extends the refreshed grid by the row of base i |
| Heatmap.FormatDecimals | app/components/ForexHeatmap.tsx:154-159 | two to five decimals: five exactly below 0.01, two exactly from 10 |
| Heatmap.FormatDecimalsMonotone | app/components/ForexHeatmap.tsx:154-159 | a smaller rate is never shown with fewer decimals |
| Heatmap.StyleOf | app/components/ForexHeatmap.tsx:162-166 | rising exactly above 0.1%, falling exactly below −0.1% |
| Heatmap.StyleSymmetric | app/components/ForexHeatmap.tsx:162-166 | opposite moves get mirrored styles |
| JsNumber.Round2 | components/ForexPredictionEnhancer.tsx:91 | the two-decimal rounding moves a value by at most half a hundredth |
| JsNumber.Round2Idempotent | components/ForexPredictionEnhancer.tsx:91 | rounding an already rounded value changes nothing |
| JsNumber.Clamp | components/ForexPredictionEnhancer.tsx:85-87 | the clamp lies within its bounds and leaves values inside them unchanged |
| JsNumber.ClampMonotone | components/ForexPredictionEnhancer.tsx:85-87 | clamping keeps the order of its arguments |
| JsNumber.ToFixed2 | app/api/fetch-market-forex/route.ts:303 | `parseFloat(x.toFixed(2))` moves a value by at most half a hundredth and agrees with the two-decimal rounding on non-negative values |
| JsNumber.MathRound | components/ForexPredictionEnhancer.tsx:92 | the nearest integer, halves rounded upward |
| RateTable.ForexStore.constructor | utils/supabase.ts:10 | both tables start empty and the store is valid |
| RealForex.RealForexRoute.constructor | app/api/fetch-real-forex/route.ts:5 | the route starts with an empty call cache |
| AutoUpdate.AutoUpdater.constructor | app/api/auto-update-forex/route.ts:7 | the updater starts with no recorded last update |

## Left out

- HTTP, the provider clients and the hosted-table SDK. Each provider reply is an input datatype holding only the fields the handlers branch on. Response envelopes, status texts and messages are not modelled; only the outcome and the stored rows are.
- Environment variables. The presence of each API key is a boolean input.
- `setTimeout` sleeps between provider calls and all logging. They change nothing the model observes.
- Concurrency. The read-before-write race in `saveForexData` (utils/supabase.ts:37-82) is not modelled; saves are sequential with a single writer.
- Table faults. They are modelled only where a handler branches on them: the lookup, update and insert errors of `saveForexData`, the `/api/forex-rates` query error and the two chat-route query errors. Elsewhere the table calls are taken to succeed.
- The clock. `Date.now()` and `new Date()` are the integer parameter `now`, in milliseconds. ISO date strings are the instants they denote, so `toISOString` and date parsing are taken as exact and injective.
- IEEE-754 arithmetic. Numbers are `real`, so NaN, Infinity and rounding error do not arise. `Math.round`, `toFixed(2)` and the clamps are exact on reals. `Math.exp` and `Math.sqrt` are parameters of which only the sign is known. A non-numeric `limit` or `days` query parameter, which `parseInt` turns into NaN, is not modelled.
- `Math.random`. Its draws are inputs: the chat route's confidence draw is a number below 20, and the heat map's k-th draw is `random(k)` in [0, 1).
- ChatIntent.UpperChar: models `String.prototype.toUpperCase` only where the result holds an ASCII letter (`a`-`z` and the seventeen characters such as `ſ`, `ı`, `ß`, `ẙ` and the ligatures whose Unicode 15 upper case contains one). Every other character is kept as it is instead of its real upper case, so the model's upper-cased text differs from the source's there. That upper case holds no ASCII letter, so the currency detected is the same.
- The Korean wording of the chat replies. Each sentence is a datatype value carrying the figures it shows.
- `Array.prototype.sort` is a stable insertion sort by key. The table's order among equal keys is unspecified; the model resolves a tie to the row stored first.
- The relay from `/api/fetch-market-forex` to `/api/fetch-real-forex`. Its reply is an input (`DelegateReply`), not a call into the modelled route.
- The prediction date of the ensemble (`date.toISOString().split('T')[0]`). Each prediction carries its horizon day instead.
- `evaluateModelPerformance` and the mock performance record it sets, and the unused `calculateStandardDeviation` of the ARIMA class.
- The ARIMA order `q`. It is stored but never read by the source.
- React state, rendering, charts, the heat map's loading flag, error message and clock display, and the timer behind the 30-second polling interval. Each tick of the timer is `RateGrid.Poll`: it refreshes against the empty grid the mounted interval closed over, so polled cells always report zero change (app/components/ForexHeatmap.tsx:119-141). Only the retry button (app/components/ForexHeatmap.tsx:190-194) compares with the previous grid, which `RateGrid.FetchExchangeRates` models; that button is rendered only while an error message is shown (app/components/ForexHeatmap.tsx:187-195). The heat map's per-cell `toISOString()` is taken as the single refresh instant `now`.
- ForexRatesRoute.GetForexRates: the `limit` parameter is a `nat`. `parseInt` also accepts a negative `limit` (app/api/forex-rates/route.ts:8), which is passed unchanged to the table query's `.limit(…)` (utils/supabase.ts:98). How the table service answers a negative row limit is not part of this model. If it refuses the query, that is the `queryFails` path.
- Ensemble.TailMean: requires every rate positive. The source divides by means and previous rates, which on zero rates gives Infinity or NaN in JavaScript.
- Ensemble.MovingAverageComponent: requires every rate positive, for the division by the 20-value mean.
- Ensemble.MarketReturns: requires every rate positive, for the division by each previous rate.
- Ensemble.Returns: requires every rate positive, as `MarketReturns`.
- Ensemble.MarketVolatility: requires every rate positive, as `MarketReturns`.
- Ensemble.CalculateMarketVolatility: requires every rate positive, as `MarketReturns`.
- Ensemble.TrendStrength: requires every rate positive, for the division by the older mean.
- Ensemble.PredictionAt: requires every rate positive, as its components.
- Ensemble.PredictHorizon: requires every rate positive, as its components.
- Ensemble.ShortSeriesPredictsBase: requires every rate positive, as `PredictionAt`.
- Ensemble.FlatMovingAverage: requires every rate positive, as `MovingAverageComponent`.
- Ensemble.FlatSeriesPredictsLevel: requires every rate positive, as `PredictionAt`.
- Ensemble.Forecasts: requires every rate positive, as `PredictionAt`.
- Ensemble.ForecastsAt: requires every rate positive, as `PredictionAt`.
- Ensemble.GenerateEnsemblePredictions: requires every rate positive, as its components.
- Technical.Sma: requires a period of at least 1. For period 0 the source averages an empty window, which is NaN; it calls the indicators with periods 20 and 50 only.
- Technical.Bollinger: requires a period of at least 1, as `Sma`.
- Technical.SmaWithinRange: requires a period of at least 1, as `Sma`.
- Technical.SmaOfConstant: requires a period of at least 1, as `Sma`.
- Technical.BandsOrdered: requires a period of at least 1, as `Sma`.
