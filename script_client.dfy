/** The live backend client: response classification in `safeFetch`, the
    URL-keyed TTL cache in `cachedFetch`, the timeframe-to-action lookup, the
    combined realtime/history read, the table reads, and the form bodies of the
    write calls. The network exchange, the clock and JSON parsing arrive as
    inputs. */
module ScriptClient {
  import opened Js

  // ----- transport: what fetch produced, and how safeFetch classifies it -----

  /** A response as `fetch` delivers it. `text` is what `res.text()` settles
      with; `json` is what `JSON.parse` yields on that text (a SyntaxError when
      it does not parse). `ok` is the Fetch "ok status" test, taken as given. */
  datatype Response = Response(
    ok: bool,
    status: nat,
    contentType: Option<string>,
    text: Outcome<string>,
    json: Outcome<JsValue>)

  /** How the `fetch` call itself settled: a response, or a rejection (network
      failure, CORS block, or an abort raised by the request's timeout). */
  datatype Exchange = Responded(response: Response) | Rejected(error: Failure)

  const NetworkErrorMessage := "Network error or CORS blocked"
  const AbortedMessage := "Request aborted"

  /** `res.headers.get('content-type') || ''` */
  function ContentType(r: Response): string {
    match r.contentType
    case None => ""
    case Some(t) => t
  }

  predicate IsJsonResponse(r: Response) {
    Contains(ContentType(r), "application/json")
  }

  /** The body text of a failed response: `res.text().catch(() => '')` */
  function ErrorBodyText(r: Response): string {
    match r.text
    case Ok(t) => t
    case Err(_) => ""
  }

  /** The part of `safeFetch` that runs once a response has arrived. */
  function Classify(r: Response): (o: Outcome<JsValue>)
    // a non-ok response always fails, and never with an empty message
    ensures !r.ok ==> o.Err? && o.error.message != []
    ensures !r.ok && ErrorBodyText(r) != [] ==> o.error.message == ErrorBodyText(r)
    ensures !r.ok && ErrorBodyText(r) == [] ==> o.error.message == "HTTP " + NatText(r.status)
    // an ok response whose body could be read and parsed yields the parsed payload
    ensures r.ok && r.text.Ok? && r.json.Ok? ==> o == Ok(r.json.value)
    // outside a declared JSON content type, a parse failure degrades to {message: text}
    ensures r.ok && !IsJsonResponse(r) && r.text.Ok? ==> o.Ok?
    ensures r.ok && !IsJsonResponse(r) && r.text.Ok? && r.json.Err? ==>
      o == Ok(Obj(map["message" := Str(r.text.value)]))
    // a declared JSON body that does not parse fails with the parser's error
    ensures r.ok && IsJsonResponse(r) && r.text.Ok? && r.json.Err? ==> o == Err(r.json.error)
    // a body that cannot be read fails with the reader's error
    ensures r.ok && r.text.Err? ==> o == Err(r.text.error)
  {
    if !r.ok then
      var t := ErrorBodyText(r);
      Err(Failure("Error", if t != [] then t else "HTTP " + NatText(r.status)))
    else
      match r.text
      case Err(e) => Err(e)
      case Ok(t) =>
        if IsJsonResponse(r) then r.json
        else
          match r.json
          case Ok(v) => Ok(v)
          case Err(_) => Ok(Obj(map["message" := Str(t)]))
  }

  /** `safeFetch(url, options)`: a rejected fetch is rethrown as "Request
      aborted" (name AbortError) when it was an abort, otherwise with its own
      message or the network-error text. */
  function SafeFetch(x: Exchange): (o: Outcome<JsValue>)
    ensures x.Rejected? ==> o.Err? && o.error.message != []
    ensures x.Rejected? ==> (o.error.name == "AbortError" <==> x.error.name == "AbortError")
    ensures x.Rejected? && x.error.name != "AbortError" && x.error.message != [] ==>
      o.error.message == x.error.message
    ensures x.Responded? ==> o == Classify(x.response)
  {
    match x
    case Rejected(e) =>
      if e.name == "AbortError" then Err(Failure("AbortError", AbortedMessage))
      else Err(Failure("Error", if e.message != [] then e.message else NetworkErrorMessage))
    case Responded(r) => Classify(r)
  }

  // ----- timeframes, actions and URLs -----

  /** `historyActionForTimeframe(timeframe)` */
  function HistoryActionForTimeframe(timeframe: string): string {
    if timeframe == "1hour" then "history1hour"
    else if timeframe == "1day" then "history1day"
    else if timeframe == "1week" then "history1week"
    else "history"
  }

  /** The three named timeframes get their own action; every other string,
      "all" included, falls through to the generic action. */
  lemma HistoryActionTable(timeframe: string)
    ensures timeframe == "1hour" <==> HistoryActionForTimeframe(timeframe) == "history1hour"
    ensures timeframe == "1day" <==> HistoryActionForTimeframe(timeframe) == "history1day"
    ensures timeframe == "1week" <==> HistoryActionForTimeframe(timeframe) == "history1week"
    ensures timeframe !in {"1hour", "1day", "1week"} <==> HistoryActionForTimeframe(timeframe) == "history"
  {
  }

  /** `${base}?action=realtime` */
  function RealtimeUrl(base: string): string {
    base + "?action=realtime"
  }

  /** `${base}?action=${action}&limit=${limit}`; both parts consist of
      characters that `encodeURIComponent` leaves as they are. */
  function HistoryUrl(base: string, action: string, limit: nat): string {
    base + "?action=" + action + "&limit=" + NatText(limit)
  }

  /** The realtime read and a history read never share a cache entry. */
  lemma {:induction false} RealtimeAndHistoryKeysDiffer(base: string, timeframe: string, limit: nat)
    ensures RealtimeUrl(base) != HistoryUrl(base, HistoryActionForTimeframe(timeframe), limit)
  {
    var k := |base| + |"?action="|;
    var h := HistoryUrl(base, HistoryActionForTimeframe(timeframe), limit);
    assert RealtimeUrl(base)[k] == 'r';
    assert h[k] == 'h';
  }

  /** A history URL determines its limit: reads with different limits use different cache entries. */
  lemma {:induction false} HistoryUrlDeterminesLimit(base: string, action: string, l1: nat, l2: nat)
    ensures HistoryUrl(base, action, l1) == HistoryUrl(base, action, l2) ==> l1 == l2
  {
    var prefix := base + "?action=" + action + "&limit=";
    if HistoryUrl(base, action, l1) == HistoryUrl(base, action, l2) {
      assert HistoryUrl(base, action, l1)[|prefix|..] == NatText(l1);
      assert HistoryUrl(base, action, l2)[|prefix|..] == NatText(l2);
      NatTextInjective(l1, l2);
    }
  }

  // ----- the TTL cache -----

  /** `{ ts, data }` as stored in `_cache`. */
  datatype Entry = Entry(ts: int, data: JsValue)

  /** An entry is reused only while it is strictly younger than `ttl`. */
  predicate IsFresh(entries: map<string, Entry>, key: string, now: int, ttl: int) {
    key in entries && now - entries[key].ts < ttl
  }

  /** The table after a fetch settles: written only when the fetch succeeded,
      stamped with the time the response was processed. */
  function AfterFetch(entries: map<string, Entry>, key: string, doneAt: int, o: Outcome<JsValue>): map<string, Entry> {
    if o.Ok? then entries[key := Entry(doneAt, o.value)] else entries
  }

  /** An entry whose age is exactly the ttl is already stale. */
  lemma AgeEqualToTtlIsStale(entries: map<string, Entry>, key: string, ttl: int)
    requires key in entries
    ensures !IsFresh(entries, key, entries[key].ts + ttl, ttl)
    ensures IsFresh(entries, key, entries[key].ts + ttl - 1, ttl)
  {
  }

  /** A successful fetch writes exactly its own key; a failed one writes nothing. */
  lemma AfterFetchFrame(entries: map<string, Entry>, key: string, doneAt: int, o: Outcome<JsValue>)
    ensures o.Ok? ==> AfterFetch(entries, key, doneAt, o) == entries[key := Entry(doneAt, o.value)]
    ensures o.Err? ==> AfterFetch(entries, key, doneAt, o) == entries
    ensures forall k | k != key :: (k in entries <==> k in AfterFetch(entries, key, doneAt, o))
    ensures forall k | k != key && k in entries :: AfterFetch(entries, key, doneAt, o)[k] == entries[k]
  {
  }

  /** After a successful fetch, every read of the same URL that comes less than
      `ttl` after the store is served from the table with the same data. */
  lemma StoredDataServedWithinTtl(entries: map<string, Entry>, key: string, doneAt: int, data: JsValue, now: int, ttl: int)
    requires 0 <= now - doneAt < ttl
    ensures IsFresh(AfterFetch(entries, key, doneAt, Ok(data)), key, now, ttl)
    ensures AfterFetch(entries, key, doneAt, Ok(data))[key].data == data
  {
  }

  /** One read: what its request would produce, and the clock when its
      response is processed. */
  datatype Leg = Leg(exchange: Exchange, doneAt: int)

  datatype DataPair = DataPair(realtime: JsValue, history: JsValue)

  /** The sheet-backed configuration tables, each with a read and a write action. */
  datatype Table = Calibrations | RangeDefinitions | FuzzyRules

  function ReadAction(t: Table): string {
    match t
    case Calibrations => "getCalibrations"
    case RangeDefinitions => "getRangeDefinitions"
    case FuzzyRules => "getFuzzyRules"
  }

  /** The process-wide response cache `_cache`, keyed by URL alone: the
      request options (timeout, method, body) only shape the exchange. */
  class ResponseCache {
    var entries: map<string, Entry>

    constructor ()
      ensures entries == map[]
    {
      entries := map[];
    }

    /** `cachedFetch(url, options, ttl)`. `now` is the clock when the call is
        made and `doneAt` the clock when the response is processed; `exchange`
        is what the request would produce, and is consulted only on a miss. */
    method CachedFetch(url: string, ttl: int, now: int, doneAt: int, exchange: Exchange)
      returns (r: Outcome<JsValue>, fetched: bool)
      modifies this
      ensures fetched <==> !IsFresh(old(entries), url, now, ttl)
      ensures !fetched ==> r == Ok(old(entries)[url].data) && entries == old(entries)
      ensures fetched ==> r == SafeFetch(exchange)
      ensures fetched ==> entries == AfterFetch(old(entries), url, doneAt, r)
    {
      if url in entries && now - entries[url].ts < ttl {
        return Ok(entries[url].data), false;
      }
      r := SafeFetch(exchange);
      fetched := true;
      if r.Ok? {
        entries := entries[url := Entry(doneAt, r.value)];
      }
    }

    /** `fetchAllData(timeframe, limit)`: the realtime read (ttl 5000) and the
        history read (ttl 15000) both run to completion; the call succeeds
        only when both do. When both fail, `historyFailsFirst` says which
        rejection `Promise.all` saw first. */
    method FetchAllData(base: string, timeframe: string, limit: nat, now: int,
                        realtime: Leg, history: Leg, historyFailsFirst: bool)
      returns (r: Outcome<DataPair>)
      modifies this
      ensures var rUrl := RealtimeUrl(base);
        var hUrl := HistoryUrl(base, HistoryActionForTimeframe(timeframe), limit);
        var rOut := if IsFresh(old(entries), rUrl, now, 5000) then Ok(old(entries)[rUrl].data) else SafeFetch(realtime.exchange);
        var mid := if IsFresh(old(entries), rUrl, now, 5000) then old(entries) else AfterFetch(old(entries), rUrl, realtime.doneAt, rOut);
        var hOut := if IsFresh(mid, hUrl, now, 15000) then Ok(mid[hUrl].data) else SafeFetch(history.exchange);
        && entries == (if IsFresh(mid, hUrl, now, 15000) then mid else AfterFetch(mid, hUrl, history.doneAt, hOut))
        && (rOut.Ok? && hOut.Ok? <==> r.Ok?)
        && (r.Ok? ==> r.value == DataPair(rOut.value, hOut.value))
        && (r.Err? ==> r.error == if rOut.Err? && (hOut.Ok? || !historyFailsFirst) then rOut.error else hOut.error)
    {
      var rUrl := RealtimeUrl(base);
      var hUrl := HistoryUrl(base, HistoryActionForTimeframe(timeframe), limit);
      var rOut, _ := CachedFetch(rUrl, 5000, now, realtime.doneAt, realtime.exchange);
      var hOut, _ := CachedFetch(hUrl, 15000, now, history.doneAt, history.exchange);
      if rOut.Ok? && hOut.Ok? {
        r := Ok(DataPair(rOut.value, hOut.value));
      } else if rOut.Err? && (hOut.Ok? || !historyFailsFirst) {
        r := Err(rOut.error);
      } else {
        r := Err(hOut.error);
      }
    }

    /** `fetchCalibrations` / `fetchRangeDefinitions` / `fetchFuzzyRules`:
        a cached read of one table with a ttl of 60000. */
    method FetchTable(base: string, t: Table, now: int, leg: Leg) returns (r: Outcome<JsValue>)
      modifies this
      ensures var url := base + "?action=" + ReadAction(t);
        && (IsFresh(old(entries), url, now, 60000) ==> r == Ok(old(entries)[url].data) && entries == old(entries))
        && (!IsFresh(old(entries), url, now, 60000) ==>
              r == SafeFetch(leg.exchange) && entries == AfterFetch(old(entries), url, leg.doneAt, r))
    {
      var fetched;
      r, fetched := CachedFetch(base + "?action=" + ReadAction(t), 60000, now, leg.doneAt, leg.exchange);
    }
  }

  // ----- form bodies of the write calls -----

  /** A form field's value before URL encoding: a literal string, `String(v)`
      of a value, or `JSON.stringify(v)` of a value. The two conversions
      belong to the serializer and are not modelled. */
  datatype FormValue = Text(s: string) | Stringified(v: JsValue) | Json(v: JsValue)

  /** The fields of a `URLSearchParams`, in order. */
  type FormBody = seq<(string, FormValue)>

  /** The params of `setStatus` whose value is neither null nor undefined, as
      form fields, in entry order. */
  function KeptParams(params: seq<(string, JsValue)>): seq<(string, FormValue)>
    decreases |params|
  {
    if params == [] then []
    else
      (if IsNullish(params[0].1) then [] else [(params[0].0, Stringified(params[0].1))])
      + KeptParams(params[1..])
  }

  /** Filtering distributes over concatenation, so entry order is kept. */
  lemma {:induction false} KeptParamsAppend(a: seq<(string, JsValue)>, b: seq<(string, JsValue)>)
    ensures KeptParams(a + b) == KeptParams(a) + KeptParams(b)
    decreases |a|
  {
    if a == [] {
      assert a + b == b;
    } else {
      assert (a + b)[0] == a[0];
      assert (a + b)[1..] == a[1..] + b;
      KeptParamsAppend(a[1..], b);
    }
  }

  /** A field is sent exactly for each param whose value is neither null nor undefined. */
  lemma {:induction false} KeptParamsMembers(params: seq<(string, JsValue)>, k: string, v: JsValue)
    ensures (k, Stringified(v)) in KeptParams(params) <==> (k, v) in params && !IsNullish(v)
    decreases |params|
  {
    if params != [] {
      KeptParamsMembers(params[1..], k, v);
      assert params == [params[0]] + params[1..];
    }
  }

  /** At most one field per param. */
  lemma {:induction false} KeptParamsLength(params: seq<(string, JsValue)>)
    ensures |KeptParams(params)| <= |params|
    decreases |params|
  {
    if params != [] {
      KeptParamsLength(params[1..]);
    }
  }

  /** `setStatus(params)`: the body starts with `action=setStatus` and then
      appends, one `forEach` step per entry of `params`, each value that is
      neither null nor undefined. */
  method SetStatusBody(params: seq<(string, JsValue)>) returns (body: FormBody)
    ensures body == [("action", Text("setStatus"))] + KeptParams(params)
  {
    body := [("action", Text("setStatus"))];
    var i := 0;
    while i < |params|
      invariant 0 <= i <= |params|
      invariant body == [("action", Text("setStatus"))] + KeptParams(params[..i])
    {
      var (k, v) := params[i];
      if !IsNullish(v) {
        body := body + [(k, Stringified(v))];
      }
      assert params[..i + 1] == params[..i] + [params[i]];
      KeptParamsAppend(params[..i], [params[i]]);
      assert KeptParams([params[i]]) == (if IsNullish(v) then [] else [(k, Stringified(v))]);
      i := i + 1;
    }
    assert params[..i] == params;
  }

  function UpdateAction(t: Table): string {
    match t
    case Calibrations => "updateCalibrations"
    case RangeDefinitions => "updateRangeDefinitions"
    case FuzzyRules => "updateFuzzyRules"
  }

  /** `updateCalibrations` / `updateRangeDefinitions` / `updateFuzzyRules`:
      the action and the JSON of the rows, with a falsy argument sent as `[]`. */
  function UpdateBody(t: Table, dataArray: JsValue): (body: FormBody)
    ensures |body| == 2
    ensures body[0] == ("action", Text(UpdateAction(t)))
    ensures body[1].0 == "data" && body[1].1.Json?
    ensures IsTruthy(dataArray) ==> body[1].1.v == dataArray
    ensures IsFalsy(dataArray) ==> body[1].1.v == Arr([])
  {
    [("action", Text(UpdateAction(t))), ("data", Json(Or(dataArray, Arr([]))))]
  }

  /** Each table has its own write action, distinct from every read action. */
  lemma ActionsDistinct(t: Table, u: Table)
    ensures UpdateAction(t) == UpdateAction(u) ==> t == u
    ensures ReadAction(t) == ReadAction(u) ==> t == u
    ensures UpdateAction(t) != ReadAction(u)
  {
  }
}
