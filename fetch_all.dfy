/** The `/api/fetch-all-forex` route: with an Alpha Vantage key it fetches
    USD, JPY, CNY and EUR in turn, saves each rate as reported and sorts the
    currencies into results and errors; the response is a success only when
    no currency failed. */
module FetchAll {
  import opened Optional
  import opened Providers
  import opened RateTable

  /** The currencies of one run, in order. */
  const Currencies: seq<string> := [USD, JPY, CNY, EUR]

  /** One entry of `results`. */
  datatype Fetched = Fetched(currency: string, rate: real, lastRefreshed: int, storedCount: nat, recent: seq<RatePoint>)

  datatype FetchAllResponse =
    | MissingKey
    | Summary(success: bool, results: seq<Fetched>, errors: seq<string>, total: nat, successful: nat, failed: nat)

  /** What one reply yields before the save: the figure as reported and its
      refresh time, or nothing when the call threw, the body carried an
      'Error Message' or a 'Note', or it had no exchange object. The response
      status is not looked at. */
  function Attempt(reply: AvReply): (q: Option<Quote>)
    ensures q.Some? <==> reply.AvReply? && !reply.errorMessage && !reply.note && reply.exchange.Some?
    ensures q.Some? ==> q == reply.exchange
  {
    match reply
    case AvThrew => None
    case AvReply(_, errorMessage, note, exchange) =>
      if errorMessage || note then None else exchange
  }

  /** The table, the results and the failed currencies after part of a run. */
  datatype Progress = Progress(rows: seq<ForexRow>, nextId: nat, results: seq<Fetched>, errors: seq<string>)

  /** `t` extends `p` by `currency`, either as an error or as one more
      result that reports a stored row. */
  predicate FilesOne(p: Progress, t: Progress, currency: string) {
    (t.results == p.results && t.errors == p.errors + [currency]) ||
    (t.errors == p.errors && |t.results| == |p.results| + 1 && t.results[..|p.results|] == p.results &&
     t.results[|p.results|].currency == currency && t.results[|p.results|].storedCount >= 1)
  }

  /** One currency: it is a result when the reply yields a rate and the save
      reports no error, and an error otherwise. */
  function Step(p: Progress, currency: string, reply: AvReply, fault: Fault, now: int): (t: Progress)
    ensures |t.results| + |t.errors| == |p.results| + |p.errors| + 1
    ensures FilesOne(p, t, currency)
  {
    match Attempt(reply)
    case None => Progress(p.rows, p.nextId, p.results, p.errors + [currency])
    case Some(q) =>
      var saved := Save(p.rows, p.nextId, currency, q.rate, q.refreshed, now, fault);
      if saved.outcome.Failed? then Progress(saved.rows, saved.nextId, p.results, p.errors + [currency])
      else
        SavedRowIsReadBack(p.rows, p.nextId, currency, q.rate, q.refreshed, now, fault, RecentLimit);
        var stored := LatestRows(saved.rows, currency, RecentLimit);
        Progress(saved.rows, saved.nextId, p.results + [Fetched(currency, q.rate, q.refreshed, |stored|, Recent(stored))], p.errors)
  }

  /** What one step files follows from the reply and the save: an error
      exactly when the reply yields no quote or the save fails, otherwise
      a result carrying the quote's rate and refresh time; the table
      changes only through that save. */
  lemma StepFollowsReply(p: Progress, currency: string, reply: AvReply, fault: Fault, now: int)
    ensures var t := Step(p, currency, reply, fault, now); var q := Attempt(reply);
      t.errors == p.errors + [currency] <==>
        q.None? || Save(p.rows, p.nextId, currency, q.value.rate, q.value.refreshed, now, fault).outcome.Failed?
    ensures var t := Step(p, currency, reply, fault, now);
      t.errors != p.errors + [currency] ==>
        var stored := LatestRows(t.rows, currency, RecentLimit);
        t.results[|p.results|].rate == Attempt(reply).value.rate &&
        t.results[|p.results|].lastRefreshed == Attempt(reply).value.refreshed &&
        t.results[|p.results|].storedCount == |stored| && t.results[|p.results|].recent == Recent(stored)
    ensures var t := Step(p, currency, reply, fault, now);
      Attempt(reply).None? ==> t.rows == p.rows && t.nextId == p.nextId
    ensures var t := Step(p, currency, reply, fault, now); var q := Attempt(reply);
      q.Some? ==>
        var saved := Save(p.rows, p.nextId, currency, q.value.rate, q.value.refreshed, now, fault);
        t.rows == saved.rows && t.nextId == saved.nextId
  {
  }

  /** The first `n` of `currencies` processed in order, starting on `rows`. */
  function RunUpTo(rows: seq<ForexRow>, nextId: nat, currencies: seq<string>, replies: seq<AvReply>, faults: seq<Fault>, now: int, n: nat): (p: Progress)
    requires n <= |currencies| && |replies| == |currencies| && |faults| == |currencies|
  {
    if n == 0 then Progress(rows, nextId, [], [])
    else Step(RunUpTo(rows, nextId, currencies, replies, faults, now, n - 1), currencies[n - 1], replies[n - 1], faults[n - 1], now)
  }

  function Names(results: seq<Fetched>): (names: seq<string>)
    ensures |names| == |results|
    ensures forall i :: 0 <= i < |results| ==> names[i] == results[i].currency
  {
    if |results| == 0 then [] else Names(results[..|results| - 1]) + [results[|results| - 1].currency]
  }

  /** Every result reports at least one stored row. */
  predicate AllReadBack(results: seq<Fetched>) {
    forall i :: 0 <= i < |results| ==> results[i].storedCount >= 1
  }

  /** One step files its currency either as a result or as an error. */
  lemma StepFilesCurrency(p: Progress, currency: string, reply: AvReply, fault: Fault, now: int)
    ensures var t := Step(p, currency, reply, fault, now);
      multiset(Names(t.results)) + multiset(t.errors) == multiset(Names(p.results)) + multiset(p.errors) + multiset{currency}
  {
    FilingAddsCurrency(p, Step(p, currency, reply, fault, now), currency);
  }

  lemma FilingAddsCurrency(p: Progress, t: Progress, currency: string)
    requires FilesOne(p, t, currency)
    ensures multiset(Names(t.results)) + multiset(t.errors) == multiset(Names(p.results)) + multiset(p.errors) + multiset{currency}
  {
    if t.errors != p.errors + [currency] {
      assert Names(t.results)[..|p.results|] == Names(p.results) by {
        assert t.results[..|p.results|] == p.results;
      }
      assert Names(t.results) == Names(p.results) + [currency];
    }
  }

  /** A step keeps the earlier results and adds only one read back from the
      table. */
  lemma StepReadsBack(p: Progress, currency: string, reply: AvReply, fault: Fault, now: int)
    requires AllReadBack(p.results)
    ensures AllReadBack(Step(p, currency, reply, fault, now).results)
  {
  }

  /** Every currency of the run ends up either among the results or among
      the errors, exactly once. */
  lemma {:induction false} RunPartitionsCurrencies(rows: seq<ForexRow>, nextId: nat, currencies: seq<string>, replies: seq<AvReply>, faults: seq<Fault>, now: int, n: nat)
    requires n <= |currencies| && |replies| == |currencies| && |faults| == |currencies|
    ensures var p := RunUpTo(rows, nextId, currencies, replies, faults, now, n);
      multiset(Names(p.results)) + multiset(p.errors) == multiset(currencies[..n])
  {
    if n == 0 {
      assert currencies[..n] == [];
    } else {
      RunPartitionsCurrencies(rows, nextId, currencies, replies, faults, now, n - 1);
      RunStepFilesOne(rows, nextId, currencies, replies, faults, now, n);
      assert currencies[..n] == currencies[..n - 1] + [currencies[n - 1]];
      PartitionStep(RunUpTo(rows, nextId, currencies, replies, faults, now, n - 1),
                    RunUpTo(rows, nextId, currencies, replies, faults, now, n), currencies[..n - 1], currencies[n - 1]);
    }
  }

  lemma RunStepFilesOne(rows: seq<ForexRow>, nextId: nat, currencies: seq<string>, replies: seq<AvReply>, faults: seq<Fault>, now: int, n: nat)
    requires 0 < n <= |currencies| && |replies| == |currencies| && |faults| == |currencies|
    ensures FilesOne(RunUpTo(rows, nextId, currencies, replies, faults, now, n - 1),
                     RunUpTo(rows, nextId, currencies, replies, faults, now, n), currencies[n - 1])
  {
  }

  lemma PartitionStep(prev: Progress, p: Progress, done: seq<string>, currency: string)
    requires multiset(Names(prev.results)) + multiset(prev.errors) == multiset(done)
    requires FilesOne(prev, p, currency)
    ensures multiset(Names(p.results)) + multiset(p.errors) == multiset(done + [currency])
  {
    FilingAddsCurrency(prev, p, currency);
    assert multiset(done + [currency]) == multiset(done) + multiset{currency};
  }

  /** Every result of the run was read back from the table after its save. */
  lemma {:induction false} RunReadsBack(rows: seq<ForexRow>, nextId: nat, currencies: seq<string>, replies: seq<AvReply>, faults: seq<Fault>, now: int, n: nat)
    requires n <= |currencies| && |replies| == |currencies| && |faults| == |currencies|
    ensures AllReadBack(RunUpTo(rows, nextId, currencies, replies, faults, now, n).results)
  {
    if n > 0 {
      RunReadsBack(rows, nextId, currencies, replies, faults, now, n - 1);
      var prev := RunUpTo(rows, nextId, currencies, replies, faults, now, n - 1);
      StepReadsBack(prev, currencies[n - 1], replies[n - 1], faults[n - 1], now);
    }
  }

  /** `GET /api/fetch-all-forex` at time `now`, with one Alpha Vantage reply
      and one table outcome per currency. */
  method GetAllForex(store: ForexStore, hasKey: bool, now: int, replies: seq<AvReply>, faults: seq<Fault>)
    returns (response: FetchAllResponse)
    requires |replies| == |Currencies| && |faults| == |Currencies|
    requires store.Valid()
    modifies store
    ensures store.Valid()
    ensures store.predictions == old(store.predictions) && store.nextPredictionId == old(store.nextPredictionId)
    ensures !hasKey ==> response == MissingKey && store.rates == old(store.rates) && store.nextRateId == old(store.nextRateId)
    ensures hasKey ==>
      var p := RunUpTo(old(store.rates), old(store.nextRateId), Currencies, replies, faults, now, |Currencies|);
      store.rates == p.rows && store.nextRateId == p.nextId &&
      response == Summary(|p.errors| == 0, p.results, p.errors, |Currencies|, |p.results|, |p.errors|)
  {
    if !hasKey {
      return MissingKey;
    }
    ghost var rows0, id0 := store.rates, store.nextRateId;
    var results: seq<Fetched> := [];
    var errors: seq<string> := [];
    var i := 0;
    while i < |Currencies|
      invariant 0 <= i <= |Currencies|
      invariant store.Valid()
      invariant store.predictions == old(store.predictions) && store.nextPredictionId == old(store.nextPredictionId)
      invariant Progress(store.rates, store.nextRateId, results, errors) == RunUpTo(rows0, id0, Currencies, replies, faults, now, i)
    {
      var currency := Currencies[i];
      match Attempt(replies[i]) {
        case None =>
          errors := errors + [currency];
        case Some(q) =>
          var outcome, stored := store.SaveAndReadBack(currency, q.rate, q.refreshed, now, faults[i]);
          if outcome.Failed? {
            errors := errors + [currency];
          } else {
            results := results + [Fetched(currency, q.rate, q.refreshed, |stored|, Recent(stored))];
          }
      }
      i := i + 1;
    }
    response := Summary(|errors| == 0, results, errors, |Currencies|, |results|, |errors|);
  }
}
