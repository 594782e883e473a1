/** The `/api/forex-prediction` chat route: it picks the currency a message
    asks about, reads the newest stored rate and the newest prediction of
    that currency, and answers with a few sentences built from them. The
    Korean wording is not modelled: a reply is the list of its sentences. */
module ChatIntent {
  import opened Optional
  import opened JsNumber
  import opened Providers
  import opened RateTable

  /** The codes looked for, in the order `find` tries them. */
  const Codes: seq<string> := [USD, JPY, CNY, EUR]

  /** `toUpperCase` on one character, as Unicode's full case mapping gives
      it wherever the result holds an ASCII letter: `a`-`z`, and the
      seventeen other characters whose upper case contains one (dotless i,
      long s, sharp s, the Latin ligatures and the letters with a
      decomposed upper case). Any other character stands for itself: its
      upper case holds no ASCII letter, so it can neither form nor break a
      currency code. */
  function UpperChar(c: char): (u: string)
    ensures 1 <= |u| <= 3
    ensures forall x :: x in u ==> !('a' <= x <= 'z')
    ensures 'a' <= c <= 'z' ==> u == [(c as int - 32) as char]
    ensures c < '\U{80}' && !('a' <= c <= 'z') ==> u == [c]
  {
    if 'a' <= c <= 'z' then [(c as int - 32) as char]
    else if c == '\U{DF}' then "SS"
    else if c == '\U{131}' then "I"
    else if c == '\U{149}' then ['\U{2BC}', 'N']
    else if c == '\U{17F}' then "S"
    else if c == '\U{1F0}' then ['J', '\U{30C}']
    else if c == '\U{1E96}' then ['H', '\U{331}']
    else if c == '\U{1E97}' then ['T', '\U{308}']
    else if c == '\U{1E98}' then ['W', '\U{30A}']
    else if c == '\U{1E99}' then ['Y', '\U{30A}']
    else if c == '\U{1E9A}' then ['A', '\U{2BE}']
    else if c == '\U{FB00}' then "FF"
    else if c == '\U{FB01}' then "FI"
    else if c == '\U{FB02}' then "FL"
    else if c == '\U{FB03}' then "FFI"
    else if c == '\U{FB04}' then "FFL"
    else if c == '\U{FB05}' || c == '\U{FB06}' then "ST"
    else [c]
  }

  /** `message.toUpperCase()`: each character upper-cased in place; a
      message in plain ASCII keeps its length. */
  function ToUpper(s: string): (u: string)
    ensures |u| >= |s|
    ensures forall x :: x in u ==> !('a' <= x <= 'z')
    ensures (forall i :: 0 <= i < |s| ==> s[i] < '\U{80}') ==> |u| == |s|
  {
    if |s| == 0 then "" else UpperChar(s[0]) + ToUpper(s[1..])
  }

  /** Upper-casing distributes over concatenation. */
  lemma {:induction false} ToUpperAppend(s: string, t: string)
    ensures ToUpper(s + t) == ToUpper(s) + ToUpper(t)
  {
    if |s| == 0 {
      assert s + t == t;
    } else {
      assert (s + t)[1..] == s[1..] + t;
      ToUpperAppend(s[1..], t);
    }
  }

  /** An upper-cased character is its own upper case. */
  lemma UpperCharIdempotent(c: char)
    ensures ToUpper(UpperChar(c)) == UpperChar(c)
  {
    var u := UpperChar(c);
    if |u| == 1 {
      assert ToUpper(u) == UpperChar(u[0]) + ToUpper(u[1..]);
    } else if |u| == 2 {
      assert ToUpper(u) == UpperChar(u[0]) + (UpperChar(u[1]) + ToUpper(u[2..]));
    } else {
      assert ToUpper(u) == UpperChar(u[0]) + (UpperChar(u[1]) + (UpperChar(u[2]) + ToUpper(u[3..])));
    }
  }

  /** Upper-casing twice is upper-casing once. */
  lemma {:induction false} ToUpperIdempotent(s: string)
    ensures ToUpper(ToUpper(s)) == ToUpper(s)
  {
    if |s| > 0 {
      ToUpperAppend(UpperChar(s[0]), ToUpper(s[1..]));
      UpperCharIdempotent(s[0]);
      ToUpperIdempotent(s[1..]);
    }
  }

  predicate OccursAt(text: string, part: string, i: int) {
    0 <= i <= |text| - |part| && text[i..i + |part|] == part
  }

  /** `text.includes(part)`. */
  predicate Contains(text: string, part: string) {
    exists i :: 0 <= i <= |text| - |part| && OccursAt(text, part, i)
  }

  /** `codes.find(c => text.includes(c))`: the first code the text contains. */
  function FirstFound(codes: seq<string>, text: string): (found: Option<nat>)
    ensures found.Some? ==> found.value < |codes| && Contains(text, codes[found.value])
    ensures found.Some? ==> forall m :: 0 <= m < found.value ==> !Contains(text, codes[m])
    ensures found.None? <==> forall m :: 0 <= m < |codes| ==> !Contains(text, codes[m])
  {
    if |codes| == 0 then None
    else if Contains(text, codes[0]) then Some(0)
    else
      match FirstFound(codes[1..], text)
      case None => None
      case Some(k) => Some(k + 1)
  }

  /** The currency the message asks about: the first of USD, JPY, CNY, EUR
      whose code occurs in the upper-cased message. */
  function DetectCurrency(message: string): (code: Option<string>)
    ensures code.Some? ==> code.value in Codes && Contains(ToUpper(message), code.value)
    ensures code.None? <==> forall m :: 0 <= m < |Codes| ==> !Contains(ToUpper(message), Codes[m])
  {
    match FirstFound(Codes, ToUpper(message))
    case None => None
    case Some(k) => Some(Codes[k])
  }

  /** A message naming two codes asks about the one earlier in the list,
      wherever the two occur in the message. */
  lemma EarlierCodeWins(message: string, m: nat, n: nat)
    requires m < n < |Codes|
    requires Contains(ToUpper(message), Codes[m])
    ensures DetectCurrency(message) != Some(Codes[n])
  {
    var found := FirstFound(Codes, ToUpper(message));
    if found.Some? {
      assert found.value <= m;
    }
  }

  /** Detection ignores case: a message and its upper-cased form ask about
      the same currency. */
  lemma DetectCaseInsensitive(message: string)
    ensures DetectCurrency(ToUpper(message)) == DetectCurrency(message)
  {
    ToUpperIdempotent(message);
  }

  /** Lower-case codes are recognised too. */
  lemma LowerCaseCodeDetected()
    ensures DetectCurrency("usd") == Some(USD)
  {
    assert ToUpper("usd") == USD;
    assert OccursAt(ToUpper("usd"), Codes[0], 0);
  }

  /** A long s upper-cases to S, so "u\U{17F}d" asks about USD. */
  lemma LongSCodeDetected()
    ensures DetectCurrency("u\U{17F}d") == Some(USD)
  {
    assert ToUpper("u\U{17F}d") == USD;
    assert OccursAt(ToUpper("u\U{17F}d"), Codes[0], 0);
  }

  /** `currencyNames[code] || code`: the Korean name of each of the four
      codes. */
  function CurrencyName(code: string): string {
    if code == USD then "미국 달러"
    else if code == JPY then "일본 엔"
    else if code == CNY then "중국 위안"
    else if code == EUR then "유럽 유로"
    else code
  }

  /** The newest prediction of a currency by `created_at`; on a tie the one
      stored first. */
  function LatestPrediction(rows: seq<PredictionRow>, currency: string): (p: Option<PredictionRow>)
    ensures p.Some? ==> p.value in rows && p.value.currency == currency
    ensures p.Some? ==> forall r :: r in rows && r.currency == currency ==> r.createdAt <= p.value.createdAt
    ensures p.None? <==> forall r :: r in rows ==> r.currency != currency
  {
    if |rows| == 0 then None
    else
      var init := rows[..|rows| - 1];
      var last := rows[|rows| - 1];
      assert rows == init + [last];
      var prev := LatestPrediction(init, currency);
      if last.currency == currency && (prev.None? || last.createdAt > prev.value.createdAt) then Some(last)
      else prev
  }

  /** One sentence of a reply. */
  datatype Sentence =
    | CurrentRate(name: string, code: string, rate: real)
    | NextPrediction(rate: real)
    | ConfidencePercent(percent: int)
    | Guidance(name: string)
    | InvalidData(name: string)
    | CannotRetrieve(name: string)

  datatype ChatResponse = AskCurrency | Reply(sentences: seq<Sentence>) | ServerError

  /** A prediction is announced only when it has a truthy `predicted_rate`. */
  predicate Announced(prediction: Option<PredictionRow>) {
    prediction.Some? && prediction.value.predictedRate != 0.0
  }

  /** `confidence || Math.floor(Math.random() * 20) + 75`, with `draw` the
      random integer in [0, 20). */
  function ShownConfidence(p: PredictionRow, draw: nat): (c: int)
    requires draw < 20
    ensures p.confidence != 0 ==> c == p.confidence
    ensures p.confidence == 0 ==> 75 <= c < 95
  {
    if p.confidence != 0 then p.confidence else 75 + draw
  }

  /** What a reply says, given the newest rate rows read (at most one) and
      the newest prediction. */
  predicate Answers(reply: seq<Sentence>, code: string, latest: seq<ForexRow>, prediction: Option<PredictionRow>, draw: nat)
    requires draw < 20
  {
    var name := CurrencyName(code);
    (|latest| == 0 ==> reply == [CannotRetrieve(name)]) &&
    (|latest| > 0 && latest[0].rate == 0.0 ==> reply == [InvalidData(name)]) &&
    (|latest| > 0 && latest[0].rate != 0.0 ==>
      |reply| >= 2 &&
      reply[0] == CurrentRate(name, code, ToFixed2(latest[0].rate)) &&
      reply[|reply| - 1] == Guidance(name) &&
      (Announced(prediction) ==>
        reply == [reply[0], NextPrediction(ToFixed2(prediction.value.predictedRate)),
                  ConfidencePercent(ShownConfidence(prediction.value, draw)), Guidance(name)]) &&
      (!Announced(prediction) ==> |reply| == 2))
  }

  /** The `let response` string, built up sentence by sentence. */
  method ComposeReply(code: string, latest: seq<ForexRow>, prediction: Option<PredictionRow>, draw: nat)
    returns (reply: seq<Sentence>)
    requires draw < 20
    ensures Answers(reply, code, latest, prediction, draw)
  {
    var name := CurrencyName(code);
    if |latest| == 0 {
      return [CannotRetrieve(name)];
    }
    if latest[0].rate == 0.0 {
      return [InvalidData(name)];
    }
    reply := [CurrentRate(name, code, ToFixed2(latest[0].rate))];
    if Announced(prediction) {
      reply := reply + [NextPrediction(ToFixed2(prediction.value.predictedRate))];
      reply := reply + [ConfidencePercent(ShownConfidence(prediction.value, draw))];
    }
    reply := reply + [Guidance(name)];
  }

  /** `POST /api/forex-prediction` with body `{ message }`. `rateFails` and
      `predictionFails` are table errors on the two reads; `draw` is the
      random integer behind the confidence fallback. */
  method Post(store: ForexStore, message: string, rateFails: bool, predictionFails: bool, draw: nat)
    returns (response: ChatResponse)
    requires draw < 20
    ensures DetectCurrency(message).None? ==> response == AskCurrency
    ensures DetectCurrency(message).Some? && rateFails ==> response == ServerError
    ensures DetectCurrency(message).Some? && !rateFails ==>
      var code := DetectCurrency(message).value;
      var prediction := if predictionFails then None else LatestPrediction(store.predictions, code);
      response.Reply? && Answers(response.sentences, code, LatestRows(store.rates, code, 1), prediction, draw)
  {
    var found := DetectCurrency(message);
    if found.None? {
      return AskCurrency;
    }
    var code := found.value;
    if rateFails {
      return ServerError;
    }
    var latest := store.GetForexData(code, Some(1));
    var prediction := if predictionFails then None else LatestPrediction(store.predictions, code);
    var sentences := ComposeReply(code, latest, prediction, draw);
    response := Reply(sentences);
  }
}
