/** The earlier client draft (src/api/googleScript.js, the complete version at
    lines 113-212): no cache and no timeouts, but every read and the status
    write first try the script endpoint and, on any failure, repeat the same
    action against the local proxy `/api.php`. Each network exchange arrives
    as an input; a run reports the outcome and the requests issued, in order. */
module DraftClient {
  import opened Js
  import SC = ScriptClient

  datatype Target = Script | LocalProxy

  /** A request the client issues: a query-string read (with its `limit`, for
      history reads), a JSON POST of an object's entries, or a form POST. */
  datatype Call =
    | Read(target: Target, action: string, limit: Option<nat>)
    | PostJson(target: Target, fields: seq<(string, JsValue)>)
    | PostForm(target: Target, form: SC.FormBody)

  /** What an operation settled with, and the requests it issued in order. */
  datatype Run<+T> = Run(result: Outcome<T>, calls: seq<Call>)

  /** `historyActionForTimeframe` as this draft defines it. */
  function HistoryActionForTimeframe(timeframe: string): string {
    if timeframe == "1hour" then "history1hour"
    else if timeframe == "1day" then "history1day"
    else if timeframe == "1week" then "history1week"
    else "history"
  }

  /** The draft's timeframe lookup is the live client's, default case included. */
  lemma ActionLookupMatchesLiveClient(timeframe: string)
    ensures HistoryActionForTimeframe(timeframe) == SC.HistoryActionForTimeframe(timeframe)
    ensures timeframe !in {"1hour", "1day", "1week"} ==> HistoryActionForTimeframe(timeframe) == "history"
  {
  }

  /** This draft's `safeFetch` once a response arrived: unlike the live client
      it reads the body of a failed response without a fallback, so a body that
      cannot be read fails with the reader's error. */
  function Classify(r: SC.Response): (o: Outcome<JsValue>)
    ensures !r.ok ==> o.Err?
    ensures !r.ok && r.text.Err? ==> o == Err(r.text.error)
    ensures !(!r.ok && r.text.Err?) ==> o == SC.Classify(r)
  {
    if !r.ok && r.text.Err? then Err(r.text.error) else SC.Classify(r)
  }

  /** This draft's `safeFetch`: every rejected fetch becomes a plain Error with
      its own message or the network-error text (there is no AbortError case). */
  function SafeFetch(x: SC.Exchange): (o: Outcome<JsValue>)
    ensures x.Rejected? ==> o.Err? && o.error.name == "Error" && o.error.message != []
    ensures x.Responded? ==> o == Classify(x.response)
  {
    match x
    case Rejected(e) => Err(Failure("Error", if e.message != [] then e.message else SC.NetworkErrorMessage))
    case Responded(r) => Classify(r)
  }

  /** The two transports differ only on aborts and on unreadable failed responses. */
  lemma SafeFetchMatchesLiveClient(x: SC.Exchange)
    requires x.Rejected? ==> x.error.name != "AbortError"
    requires x.Responded? ==> x.response.ok || x.response.text.Ok?
    ensures SafeFetch(x) == SC.SafeFetch(x)
  {
  }

  /** `fetchAllData(timeframe, limit)`: both script reads are issued together
      (`historyFailsFirst` says which rejection `Promise.all` reports when both
      fail); on any failure the proxy is read sequentially, realtime first. */
  function FetchAllData(timeframe: string, limit: nat,
                        realtime: SC.Exchange, history: SC.Exchange, historyFailsFirst: bool,
                        proxyRealtime: SC.Exchange, proxyHistory: SC.Exchange): Run<SC.DataPair>
  {
    var action := HistoryActionForTimeframe(timeframe);
    var primaryCalls := [Read(Script, "realtime", None), Read(Script, action, Some(limit))];
    var r1 := SafeFetch(realtime);
    var h1 := SafeFetch(history);
    if r1.Ok? && h1.Ok? then
      Run(Ok(SC.DataPair(r1.value, h1.value)), primaryCalls)
    else
      var primaryError := if r1.Err? && (h1.Ok? || !historyFailsFirst) then r1.error else h1.error;
      var r2 := SafeFetch(proxyRealtime);
      if r2.Err? then
        Run(Err(primaryError), primaryCalls + [Read(LocalProxy, "realtime", None)])
      else
        var h2 := SafeFetch(proxyHistory);
        var calls := primaryCalls + [Read(LocalProxy, "realtime", None), Read(LocalProxy, action, Some(limit))];
        if h2.Err? then Run(Err(primaryError), calls)
        else Run(Ok(SC.DataPair(r2.value, h2.value)), calls)
  }

  /** What `fetchAllData` promises: the script pair when both script reads
      succeed; otherwise the proxy pair when both proxy reads succeed;
      otherwise the primary error, never a proxy error. The proxy history read
      is issued only after the proxy realtime read succeeded. */
  lemma FetchAllDataFallback(timeframe: string, limit: nat,
                             realtime: SC.Exchange, history: SC.Exchange, historyFailsFirst: bool,
                             proxyRealtime: SC.Exchange, proxyHistory: SC.Exchange)
    ensures var run := FetchAllData(timeframe, limit, realtime, history, historyFailsFirst, proxyRealtime, proxyHistory);
      var r1, h1 := SafeFetch(realtime), SafeFetch(history);
      var r2, h2 := SafeFetch(proxyRealtime), SafeFetch(proxyHistory);
      var action := HistoryActionForTimeframe(timeframe);
      && run.calls[..2] == [Read(Script, "realtime", None), Read(Script, action, Some(limit))]
      && (r1.Ok? && h1.Ok? ==> run.result == Ok(SC.DataPair(r1.value, h1.value)) && |run.calls| == 2)
      && (!(r1.Ok? && h1.Ok?) && r2.Ok? && h2.Ok? ==> run.result == Ok(SC.DataPair(r2.value, h2.value)))
      && (run.result.Err? ==> run.result.error == (if r1.Err? && (h1.Ok? || !historyFailsFirst) then r1.error else h1.error))
      && (run.result.Err? <==> !(r1.Ok? && h1.Ok?) && (r2.Err? || h2.Err?))
      && (Read(LocalProxy, action, Some(limit)) in run.calls <==> !(r1.Ok? && h1.Ok?) && r2.Ok?)
  {
  }

  /** `fetchRangeDefinitions` / `fetchFuzzyRules`: the script read, or else
      whatever the proxy read yields, its error included. */
  function FetchWithFallback(action: string, primary: SC.Exchange, proxy: SC.Exchange): (run: Run<JsValue>)
    ensures SafeFetch(primary).Ok? ==> run == Run(SafeFetch(primary), [Read(Script, action, None)])
    ensures SafeFetch(primary).Err? ==>
      run == Run(SafeFetch(proxy), [Read(Script, action, None), Read(LocalProxy, action, None)])
  {
    var r1 := SafeFetch(primary);
    if r1.Ok? then Run(r1, [Read(Script, action, None)])
    else Run(SafeFetch(proxy), [Read(Script, action, None), Read(LocalProxy, action, None)])
  }

  function FetchRangeDefinitions(primary: SC.Exchange, proxy: SC.Exchange): (run: Run<JsValue>)
    ensures forall c | c in run.calls :: c.Read? && c.action == "getRangeDefinitions"
    ensures run.result == if SafeFetch(primary).Ok? then SafeFetch(primary) else SafeFetch(proxy)
  {
    FetchWithFallback("getRangeDefinitions", primary, proxy)
  }

  function FetchFuzzyRules(primary: SC.Exchange, proxy: SC.Exchange): (run: Run<JsValue>)
    ensures forall c | c in run.calls :: c.Read? && c.action == "getFuzzyRules"
    ensures run.result == if SafeFetch(primary).Ok? then SafeFetch(primary) else SafeFetch(proxy)
  {
    FetchWithFallback("getFuzzyRules", primary, proxy)
  }

  // ----- setStatus: `{ action: 'setStatus', ...params }` -----

  // An object is kept as its properties in creation order; `Enumerated` gives
  // the order in which JavaScript lists them (and so `JSON.stringify` and
  // `new URLSearchParams` send them): array-index keys first, ascending, then
  // the other keys in creation order.

  predicate DistinctKeys(fields: seq<(string, JsValue)>) {
    forall i, j | 0 <= i < j < |fields| :: fields[i].0 != fields[j].0
  }

  function Keys(fields: seq<(string, JsValue)>): set<string> {
    set i | 0 <= i < |fields| :: fields[i].0
  }

  /** Writing property `k` into an object literal under construction: an
      existing key keeps its place in creation order and takes the new value;
      a new key is created last. */
  function Put(fields: seq<(string, JsValue)>, k: string, v: JsValue): seq<(string, JsValue)>
    decreases |fields|
  {
    if fields == [] then [(k, v)]
    else if fields[0].0 == k then [(k, v)] + fields[1..]
    else [fields[0]] + Put(fields[1..], k, v)
  }

  /** `{ ...fields, ...params }` */
  function Spread(fields: seq<(string, JsValue)>, params: seq<(string, JsValue)>): seq<(string, JsValue)>
    decreases |params|
  {
    if params == [] then fields else Spread(Put(fields, params[0].0, params[0].1), params[1..])
  }

  lemma {:induction false} PutKeepsFirstKey(fields: seq<(string, JsValue)>, k: string, v: JsValue)
    requires fields != []
    ensures Put(fields, k, v) != [] && Put(fields, k, v)[0].0 == fields[0].0
  {
  }

  lemma {:induction false} PutNewKeyAppends(fields: seq<(string, JsValue)>, k: string, v: JsValue)
    requires k !in Keys(fields)
    ensures Put(fields, k, v) == fields + [(k, v)]
    decreases |fields|
  {
    if fields != [] {
      assert fields[0].0 in Keys(fields);
      assert Keys(fields[1..]) <= Keys(fields) by {
        forall x | x in Keys(fields[1..]) ensures x in Keys(fields) {
          var i :| 0 <= i < |fields[1..]| && fields[1..][i].0 == x;
          assert fields[i + 1].0 == x;
        }
      }
      PutNewKeyAppends(fields[1..], k, v);
      assert [fields[0]] + (fields[1..] + [(k, v)]) == fields + [(k, v)];
    }
  }

  lemma KeysAppend(fields: seq<(string, JsValue)>, p: (string, JsValue))
    ensures Keys(fields + [p]) == Keys(fields) + {p.0}
  {
    assert (fields + [p])[|fields|].0 == p.0;
    forall x | x in Keys(fields) ensures x in Keys(fields + [p]) {
      var i :| 0 <= i < |fields| && fields[i].0 == x;
      assert (fields + [p])[i].0 == x;
    }
  }

  lemma KeysCons(p: (string, JsValue), fields: seq<(string, JsValue)>)
    ensures Keys([p] + fields) == {p.0} + Keys(fields)
  {
    assert ([p] + fields)[0].0 == p.0;
    forall x | x in Keys(fields) ensures x in Keys([p] + fields) {
      var i :| 0 <= i < |fields| && fields[i].0 == x;
      assert ([p] + fields)[i + 1].0 == x;
    }
    forall x | x in Keys([p] + fields) ensures x in {p.0} + Keys(fields) {
      var i :| 0 <= i < |[p] + fields| && ([p] + fields)[i].0 == x;
      if i > 0 {
        assert fields[i - 1].0 == x;
      }
    }
  }

  /** Writing a key adds exactly that key to the object's keys. */
  lemma {:induction false} KeysPut(fields: seq<(string, JsValue)>, k: string, v: JsValue)
    ensures Keys(Put(fields, k, v)) == Keys(fields) + {k}
    decreases |fields|
  {
    if fields == [] {
      assert Keys([(k, v)]) == {k} by { KeysCons((k, v), []); }
    } else if fields[0].0 == k {
      KeysCons((k, v), fields[1..]);
      KeysCons(fields[0], fields[1..]);
      assert [fields[0]] + fields[1..] == fields;
    } else {
      KeysPut(fields[1..], k, v);
      KeysCons(fields[0], Put(fields[1..], k, v));
      KeysCons(fields[0], fields[1..]);
      assert [fields[0]] + fields[1..] == fields;
    }
  }

  /** Spreading adds exactly the spread object's keys. */
  lemma {:induction false} KeysSpread(fields: seq<(string, JsValue)>, params: seq<(string, JsValue)>)
    ensures Keys(Spread(fields, params)) == Keys(fields) + Keys(params)
    decreases |params|
  {
    if params != [] {
      KeysPut(fields, params[0].0, params[0].1);
      KeysSpread(Put(fields, params[0].0, params[0].1), params[1..]);
      KeysCons(params[0], params[1..]);
      assert [params[0]] + params[1..] == params;
    }
  }

  /** The properties of the literal are created first, whatever is spread
      after them. */
  lemma {:induction false} SpreadKeepsFirstKey(fields: seq<(string, JsValue)>, params: seq<(string, JsValue)>)
    requires fields != []
    ensures Spread(fields, params) != [] && Spread(fields, params)[0].0 == fields[0].0
    decreases |params|
  {
    if params != [] {
      PutKeepsFirstKey(fields, params[0].0, params[0].1);
      SpreadKeepsFirstKey(Put(fields, params[0].0, params[0].1), params[1..]);
    }
  }

  /** With no key in common, spreading is concatenation in creation order:
      the params are created after the literal's own properties. */
  lemma {:induction false} SpreadDisjointAppends(fields: seq<(string, JsValue)>, params: seq<(string, JsValue)>)
    requires DistinctKeys(params)
    requires Keys(fields) !! Keys(params)
    ensures Spread(fields, params) == fields + params
    decreases |params|
  {
    if params != [] {
      var p := params[0];
      assert p.0 in Keys(params);
      PutNewKeyAppends(fields, p.0, p.1);
      var rest := params[1..];
      KeysAppend(fields, p);
      assert Keys(fields + [p]) !! Keys(rest) by {
        forall x | x in Keys(rest) ensures x !in Keys(fields) + {p.0} {
          var i :| 0 <= i < |rest| && rest[i].0 == x;
          assert params[i + 1].0 == x;
          assert x in Keys(params);
        }
      }
      SpreadDisjointAppends(fields + [p], rest);
      assert fields + [p] + rest == fields + params;
    }
  }

  /** `a` does not come after `b` in dictionary order. */
  predicate LexNotAfter(a: string, b: string)
    decreases |a|
  {
    a == [] || (b != [] && (a[0] < b[0] || (a[0] == b[0] && LexNotAfter(a[1..], b[1..]))))
  }

  lemma {:induction false} LexTotal(a: string, b: string)
    requires |a| == |b|
    ensures LexNotAfter(a, b) || LexNotAfter(b, a)
    decreases |a|
  {
    if a != [] && a[0] == b[0] {
      LexTotal(a[1..], b[1..]);
    }
  }

  /** The largest array index, 2^32 - 2. */
  const MaxIndexText := "4294967294"

  /** A key that is an array index: the canonical decimal text (no sign, no
      leading zero) of an integer no larger than 2^32 - 2. */
  predicate IsArrayIndex(k: string) {
    && k != [] && IsDigits(k) && (k[0] != '0' || |k| == 1)
    && (|k| < |MaxIndexText| || (|k| == |MaxIndexText| && LexNotAfter(k, MaxIndexText)))
  }

  /** Numeric order on canonical decimal texts: the shorter text is the
      smaller number, and texts of one length compare digit by digit. */
  predicate IndexNotAfter(a: string, b: string) {
    |a| < |b| || (|a| == |b| && LexNotAfter(a, b))
  }

  /** The array-index properties, in creation order. */
  function IndexEntries(fields: seq<(string, JsValue)>): (r: seq<(string, JsValue)>)
    ensures |r| <= |fields|
    decreases |fields|
  {
    if fields == [] then []
    else (if IsArrayIndex(fields[0].0) then [fields[0]] else []) + IndexEntries(fields[1..])
  }

  /** The other properties, in creation order. */
  function NamedEntries(fields: seq<(string, JsValue)>): seq<(string, JsValue)>
    decreases |fields|
  {
    if fields == [] then []
    else (if IsArrayIndex(fields[0].0) then [] else [fields[0]]) + NamedEntries(fields[1..])
  }

  /** Each property lands in the part of its own kind. */
  lemma {:induction false} EntryKinds(fields: seq<(string, JsValue)>)
    ensures forall e | e in IndexEntries(fields) :: IsArrayIndex(e.0)
    ensures forall e | e in NamedEntries(fields) :: !IsArrayIndex(e.0)
    decreases |fields|
  {
    if fields != [] {
      EntryKinds(fields[1..]);
    }
  }

  predicate Ascending(s: seq<(string, JsValue)>) {
    forall i, j | 0 <= i < j < |s| :: IndexNotAfter(s[i].0, s[j].0)
  }

  /** Inserts an array-index property before the first one with a larger key. */
  function InsertAscending(e: (string, JsValue), s: seq<(string, JsValue)>): seq<(string, JsValue)>
    decreases |s|
  {
    if s == [] || IndexNotAfter(e.0, s[0].0) then [e] + s
    else [s[0]] + InsertAscending(e, s[1..])
  }

  /** Inserting into an ascending list keeps it ascending and loses nothing. */
  lemma {:induction false} InsertKeepsAscending(e: (string, JsValue), s: seq<(string, JsValue)>)
    requires Ascending(s)
    ensures Ascending(InsertAscending(e, s))
    ensures multiset(InsertAscending(e, s)) == multiset(s) + multiset{e}
    decreases |s|
  {
    if s == [] || IndexNotAfter(e.0, s[0].0) {
      forall j | 0 <= j < |s| ensures IndexNotAfter(e.0, s[j].0) {
        if j > 0 {
          IndexOrderTransitive(e.0, s[0].0, s[j].0);
        }
      }
    } else {
      var rest := InsertAscending(e, s[1..]);
      InsertKeepsAscending(e, s[1..]);
      assert s == [s[0]] + s[1..];
      assert IndexNotAfter(s[0].0, e.0) by {
        if |s[0].0| == |e.0| {
          LexTotal(s[0].0, e.0);
        }
      }
      forall j | 0 <= j < |rest| ensures IndexNotAfter(s[0].0, rest[j].0) {
        assert rest[j] in multiset(s[1..]) + multiset{e};
        if rest[j] != e {
          assert rest[j] in s[1..];
        }
      }
    }
  }

  lemma {:induction false} LexTransitive(a: string, b: string, c: string)
    requires LexNotAfter(a, b) && LexNotAfter(b, c)
    ensures LexNotAfter(a, c)
    decreases |a|
  {
    if a != [] && a[0] == b[0] && b[0] == c[0] {
      LexTransitive(a[1..], b[1..], c[1..]);
    }
  }

  lemma IndexOrderTransitive(a: string, b: string, c: string)
    requires IndexNotAfter(a, b) && IndexNotAfter(b, c)
    ensures IndexNotAfter(a, c)
  {
    if |a| == |b| == |c| {
      LexTransitive(a, b, c);
    }
  }

  /** The array-index properties in ascending numeric order (insertion sort). */
  function SortAscending(s: seq<(string, JsValue)>): seq<(string, JsValue)>
    decreases |s|
  {
    if s == [] then [] else InsertAscending(s[0], SortAscending(s[1..]))
  }

  /** Sorting gives an ascending list holding each property once. */
  lemma {:induction false} SortIsAscending(s: seq<(string, JsValue)>)
    ensures Ascending(SortAscending(s)) && multiset(SortAscending(s)) == multiset(s)
    decreases |s|
  {
    if s != [] {
      SortIsAscending(s[1..]);
      InsertKeepsAscending(s[0], SortAscending(s[1..]));
      assert s == [s[0]] + s[1..];
    }
  }

  /** The order JavaScript lists an object's own properties in: array-index
      keys ascending, then the other keys in creation order. */
  function Enumerated(fields: seq<(string, JsValue)>): seq<(string, JsValue)> {
    SortAscending(IndexEntries(fields)) + NamedEntries(fields)
  }

  /** Enumeration lists every property once, the array-index keys first and
      in ascending order. */
  lemma EnumeratedOrder(fields: seq<(string, JsValue)>)
    ensures multiset(Enumerated(fields)) == multiset(fields) && |Enumerated(fields)| == |fields|
    ensures forall i | 0 <= i < |fields| :: IsArrayIndex(Enumerated(fields)[i].0) <==> i < |IndexEntries(fields)|
    ensures Ascending(Enumerated(fields)[..|IndexEntries(fields)|])
  {
    PartitionKeepsEntries(fields);
    EntryKinds(fields);
    SortIsAscending(IndexEntries(fields));
    var sorted := SortAscending(IndexEntries(fields));
    var r := Enumerated(fields);
    assert |sorted| == |IndexEntries(fields)| by {
      assert |multiset(sorted)| == |multiset(IndexEntries(fields))|;
    }
    forall i | 0 <= i < |sorted| ensures IsArrayIndex(r[i].0) {
      assert sorted[i] in multiset(IndexEntries(fields));
    }
    forall i | |sorted| <= i < |r| ensures !IsArrayIndex(r[i].0) {
      assert r[i] in NamedEntries(fields);
    }
    assert r[..|sorted|] == sorted;
    assert |multiset(r)| == |multiset(fields)|;
  }

  /** Splitting the properties into the two kinds loses none of them. */
  lemma {:induction false} PartitionKeepsEntries(fields: seq<(string, JsValue)>)
    ensures multiset(IndexEntries(fields)) + multiset(NamedEntries(fields)) == multiset(fields)
    decreases |fields|
  {
    if fields != [] {
      PartitionKeepsEntries(fields[1..]);
      assert fields == [fields[0]] + fields[1..];
    }
  }

  lemma {:induction false} PartitionCons(p: (string, JsValue), fields: seq<(string, JsValue)>)
    requires !IsArrayIndex(p.0)
    ensures IndexEntries([p] + fields) == IndexEntries(fields)
    ensures NamedEntries([p] + fields) == [p] + NamedEntries(fields)
  {
    assert ([p] + fields)[1..] == fields;
  }

  /** No array-index property exactly when no key is an array index. */
  lemma {:induction false} NoIndexEntries(fields: seq<(string, JsValue)>)
    ensures IndexEntries(fields) == [] <==> forall k | k in Keys(fields) :: !IsArrayIndex(k)
    decreases |fields|
  {
    if fields != [] {
      NoIndexEntries(fields[1..]);
      KeysCons(fields[0], fields[1..]);
      assert [fields[0]] + fields[1..] == fields;
    }
  }

  /** The status object `setStatus` sends, in the order it is sent. */
  function StatusFields(params: seq<(string, JsValue)>): seq<(string, JsValue)> {
    Enumerated(Spread([("action", Str("setStatus"))], params))
  }

  /** `new URLSearchParams(record)`: every value becomes `String(v)`, null and
      undefined included. */
  function FormOf(fields: seq<(string, JsValue)>): (form: SC.FormBody)
    ensures |form| == |fields|
    ensures forall i | 0 <= i < |fields| :: form[i] == (fields[i].0, SC.Stringified(fields[i].1))
  {
    seq(|fields|, i requires 0 <= i < |fields| => (fields[i].0, SC.Stringified(fields[i].1)))
  }

  /** `setStatus(params)`: a JSON POST to the script; on failure the same
      fields as a form POST to the proxy, whose outcome is returned as is. */
  function SetStatus(params: seq<(string, JsValue)>, primary: SC.Exchange, proxy: SC.Exchange): (run: Run<JsValue>)
    ensures |run.calls| >= 1 && run.calls[0] == PostJson(Script, StatusFields(params))
    ensures SafeFetch(primary).Ok? ==> run.result == SafeFetch(primary) && |run.calls| == 1
    ensures SafeFetch(primary).Err? ==>
      run.result == SafeFetch(proxy) && run.calls[1..] == [PostForm(LocalProxy, FormOf(StatusFields(params)))]
  {
    var fields := StatusFields(params);
    var r1 := SafeFetch(primary);
    if r1.Ok? then Run(r1, [PostJson(Script, fields)])
    else Run(SafeFetch(proxy), [PostJson(Script, fields), PostForm(LocalProxy, FormOf(fields))])
  }

  /** The fields sent: the array-index params in ascending order, then
      `action`, then the other params in their own order, unfiltered. */
  lemma SetStatusFieldOrder(params: seq<(string, JsValue)>)
    requires DistinctKeys(params)
    requires "action" !in Keys(params)
    ensures StatusFields(params) ==
      SortAscending(IndexEntries(params)) + [("action", Str("setStatus"))] + NamedEntries(params)
  {
    var a := ("action", Str("setStatus"));
    ActionLiteral(params);
    assert Spread([a], params) == [a] + params by {
      SpreadDisjointAppends([a], params);
    }
    PartitionCons(a, params);
  }

  /** `action` is not an array index, and a params object without an
      `action` key shares no key with the literal `{action: 'setStatus'}`. */
  lemma ActionLiteral(params: seq<(string, JsValue)>)
    ensures !IsArrayIndex("action")
    ensures "action" !in Keys(params) ==> Keys([("action", Str("setStatus"))]) !! Keys(params)
  {
    assert !('0' <= "action"[0] <= '9');
    KeysCons(("action", Str("setStatus")), []);
  }

  /** Without array-index params the fields sent are `action` followed by
      the params in their own order. */
  lemma StatusFieldsWithoutIndexKeys(params: seq<(string, JsValue)>)
    requires DistinctKeys(params)
    requires "action" !in Keys(params)
    requires IndexEntries(params) == []
    ensures StatusFields(params) == [("action", Str("setStatus"))] + params
  {
    SetStatusFieldOrder(params);
    NamedOnly(params);
    NothingToSort();
  }

  lemma NothingToSort()
    ensures SortAscending([]) == []
  {
  }

  lemma FormOfCons(p: (string, JsValue), fields: seq<(string, JsValue)>)
    ensures FormOf([p] + fields) == [(p.0, SC.Stringified(p.1))] + FormOf(fields)
  {
    var lhs, rhs := FormOf([p] + fields), [(p.0, SC.Stringified(p.1))] + FormOf(fields);
    assert |lhs| == |rhs|;
    forall i | 0 <= i < |lhs| ensures lhs[i] == rhs[i] {
      if i > 0 {
        assert ([p] + fields)[i] == fields[i - 1];
      }
    }
  }

  /** Without array-index params the fallback form is `action=setStatus`
      followed by the params in their own order. */
  lemma SetStatusFallbackForm(params: seq<(string, JsValue)>)
    requires DistinctKeys(params)
    requires "action" !in Keys(params)
    requires forall k | k in Keys(params) :: !IsArrayIndex(k)
    ensures FormOf(StatusFields(params)) ==
      [("action", SC.Stringified(Str("setStatus")))] + FormOf(params)
  {
    NoIndexEntries(params);
    StatusFieldsWithoutIndexKeys(params);
    FormOfCons(("action", Str("setStatus")), params);
  }

  lemma {:induction false} NamedOnly(fields: seq<(string, JsValue)>)
    requires IndexEntries(fields) == []
    ensures NamedEntries(fields) == fields
    decreases |fields|
  {
    if fields != [] {
      NamedOnly(fields[1..]);
      assert [fields[0]] + fields[1..] == fields;
    }
  }

  /** `action` heads both bodies exactly when no param key is an array index;
      an array-index key is listed before it. */
  lemma SetStatusActionFirst(params: seq<(string, JsValue)>)
    ensures StatusFields(params) != []
    ensures StatusFields(params)[0].0 == "action" <==> forall k | k in Keys(params) :: !IsArrayIndex(k)
    ensures FormOf(StatusFields(params))[0].0 == StatusFields(params)[0].0
  {
    var a := ("action", Str("setStatus"));
    var f := Spread([a], params);
    SpreadKeepsFirstKey([a], params);
    KeysSpread([a], params);
    KeysCons(a, []);
    NoIndexEntries(f);
    assert !IsArrayIndex("action") by { assert !('0' <= "action"[0] <= '9'); }
    assert f == [f[0]] + f[1..];
    EnumeratedOrder(f);
    assert f[0] in multiset(Enumerated(f));
    assert Enumerated(f) != [];
    if IndexEntries(f) == [] {
      assert !IsArrayIndex(f[0].0);
      assert Enumerated(f) == SortAscending([]) + NamedEntries(f);
      assert NamedEntries(f) == [f[0]] + NamedEntries(f[1..]);
    } else {
      assert IsArrayIndex(Enumerated(f)[0].0);
    }
  }

  /** A single array-index param is listed before `action`. */
  lemma SingleIndexParam(e: (string, JsValue))
    requires IsArrayIndex(e.0)
    ensures StatusFields([e]) == [e, ("action", Str("setStatus"))]
  {
    var p := [e];
    assert IndexEntries(p) == p;
    assert NamedEntries(p) == [];
    assert SortAscending(p) == p by {
      assert SortAscending(p) == InsertAscending(e, SortAscending([]));
    }
    assert Keys(p) == {e.0} by {
      KeysCons(e, []);
    }
    assert !IsArrayIndex("action") by {
      ActionLiteral(p);
    }
    SetStatusFieldOrder(p);
  }

  /** `setStatus({'1': 'on'})` sends `1=on&action=setStatus`. */
  lemma IndexKeySentBeforeAction()
    ensures FormOf(StatusFields([("1", Str("on"))])) ==
      [("1", SC.Stringified(Str("on"))), ("action", SC.Stringified(Str("setStatus")))]
  {
    var on := ("1", Str("on"));
    var a := ("action", Str("setStatus"));
    assert IsArrayIndex("1");
    SingleIndexParam(on);
    FormOfCons(on, [a]);
    FormOfCons(a, []);
  }

  /** Unlike the live client, the draft's fallback form sends a null param (as
      the text of `String(null)`), where the live body drops it. */
  lemma NullParamSentOnlyByDraft(k: string)
    requires k != "action"
    ensures (k, SC.Stringified(Null)) in FormOf(StatusFields([(k, Null)]))
    ensures (k, SC.Stringified(Null)) !in SC.KeptParams([(k, Null)])
  {
    var p := [(k, Null)];
    KeysCons(p[0], []);
    SetStatusFieldOrder(p);
    var fields := StatusFields(p);
    var i := if IsArrayIndex(k) then 0 else 1;
    assert fields[i] == (k, Null);
    assert FormOf(fields)[i] == (k, SC.Stringified(Null));
    SC.KeptParamsMembers(p, k, Null);
  }
}
