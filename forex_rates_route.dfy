/** The `/api/forex-rates` route: the newest `limit` stored rates of a
    currency, returned oldest first. */
module ForexRatesRoute {
  import opened Optional
  import opened Providers
  import opened RateTable
  import opened JsArray

  /** The default of the `limit` parameter. */
  const DefaultLimit: nat := 30

  datatype RatesResponse =
    | Rates(currency: string, count: nat, data: seq<ForexRow>)
    | NoData(currency: string)
    | ServerError

  /** Reversing a newest-first list gives an oldest-first one. */
  lemma {:induction false} ReversedIsAscending(rows: seq<ForexRow>)
    requires forall i, j :: 0 <= i < j < |rows| ==> rows[i].timestamp >= rows[j].timestamp
    ensures forall i, j :: 0 <= i < j < |rows| ==> Reversed(rows)[i].timestamp <= Reversed(rows)[j].timestamp
  {
    forall i, j | 0 <= i < j < |rows|
      ensures Reversed(rows)[i].timestamp <= Reversed(rows)[j].timestamp
    {
      ReversedAt(rows, i);
      ReversedAt(rows, j);
    }
  }

  /** Reversal keeps exactly the same rows. */
  lemma {:induction false} ReversedSameRows<T>(s: seq<T>)
    ensures forall x :: x in Reversed(s) <==> x in s
  {
    forall x | x in s ensures x in Reversed(s) {
      var k :| 0 <= k < |s| && s[k] == x;
      ReversedAt(s, |s| - 1 - k);
    }
    forall x | x in Reversed(s) ensures x in s {
      var k :| 0 <= k < |s| && Reversed(s)[k] == x;
      ReversedAt(s, k);
    }
  }

  /** `GET /api/forex-rates?currency=…&limit=…`; `queryFails` is a table
      error on the read. */
  method GetForexRates(store: ForexStore, currencyParam: Option<string>, limitParam: Option<nat>, queryFails: bool)
    returns (response: RatesResponse)
    ensures queryFails ==> response == ServerError
    ensures !queryFails ==>
      var currency := Param(currencyParam, USD);
      var newest := LatestRows(store.rates, currency, limitParam.GetOr(DefaultLimit));
      (|newest| == 0 ==> response == NoData(currency)) &&
      (|newest| > 0 ==> response == Rates(currency, |newest|, Reversed(newest)))
    ensures response.Rates? ==>
      response.count == |response.data| && response.count <= limitParam.GetOr(DefaultLimit) &&
      (forall x :: x in response.data ==> x in store.rates && x.currency == response.currency) &&
      (forall i, j :: 0 <= i < j < |response.data| ==> response.data[i].timestamp <= response.data[j].timestamp)
  {
    var currency := Param(currencyParam, USD);
    if queryFails {
      return ServerError;
    }
    var data := store.GetForexData(currency, Some(limitParam.GetOr(DefaultLimit)));
    if |data| == 0 {
      return NoData(currency);
    }
    var sorted := ReverseRows(data);
    ReversedIsAscending(data);
    ReversedSameRows(data);
    response := Rates(currency, |sorted|, sorted);
  }

  /** `data.reverse()` on a copy of the rows held in an array. */
  method ReverseRows(data: seq<ForexRow>) returns (rows: seq<ForexRow>)
    ensures rows == Reversed(data)
  {
    var a := new ForexRow[|data|](i requires 0 <= i < |data| => data[i]);
    assert a[..] == data;
    ReverseInPlace(a);
    rows := a[..];
  }
}
