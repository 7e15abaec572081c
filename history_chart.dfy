/** The chart data computed by the history chart (src/components/HistoryChart.jsx):
    the records in chronological order (the newest-first input reversed on a
    copy), one time label per record and three numeric series. `parseFloat`
    arrives as the function `parse` (`None` for NaN); dayjs formatting is
    represented by the timestamp and the chosen format string. */
module HistoryChart {
  import opened Js
  import Tables

  /** A label: the record's `timestamp` as dayjs would format it with `format`. */
  datatype Label = Label(timestamp: JsValue, format: string)

  datatype ChartData =
    | NoChart
    | Throws
    | Chart(labels: seq<Label>, suhu: seq<real>, ph: seq<real>, tds: seq<real>)

  /** `s.slice().reverse()` */
  function Reversed<T>(s: seq<T>): (r: seq<T>)
    ensures |r| == |s|
    decreases |s|
  {
    if s == [] then [] else Reversed(s[1..]) + [s[0]]
  }

  lemma {:induction false} ReversedIndex<T>(s: seq<T>)
    ensures forall i | 0 <= i < |s| :: Reversed(s)[i] == s[|s| - 1 - i]
    decreases |s|
  {
    if s != [] {
      ReversedIndex(s[1..]);
      forall i | 0 <= i < |s|
        ensures Reversed(s)[i] == s[|s| - 1 - i]
      {
        if i < |s| - 1 {
          assert Reversed(s)[i] == Reversed(s[1..])[i];
        }
      }
    }
  }

  /** Reversing twice gives the input back. */
  lemma ReversedTwice<T>(s: seq<T>)
    ensures Reversed(Reversed(s)) == s
  {
    ReversedIndex(s);
    ReversedIndex(Reversed(s));
  }

  /** The label format: minutes within the hour and day windows, otherwise the
      weekday and the hour. */
  function FormatFor(timeframe: string): (format: string)
    ensures timeframe == "1hour" || timeframe == "1day" ==> format == "HH:mm"
    ensures timeframe != "1hour" && timeframe != "1day" ==> format == "ddd HH:00"
  {
    if timeframe == "1hour" then "HH:mm"
    else if timeframe == "1day" then "HH:mm"
    else "ddd HH:00"
  }

  /** `parseFloat(v) || 0`: a value that does not parse (NaN) is plotted as
      0; a parsed 0 is 0 either way, so every parsed number is plotted as is. */
  function Plotted(parse: JsValue -> Option<real>, v: JsValue): (y: real)
    ensures parse(v).None? ==> y == 0.0
    ensures parse(v).Some? ==> y == parse(v).value
  {
    match parse(v)
    case None => 0.0
    case Some(x) => x
  }

  /** The label of one record; reading `timestamp` throws on null or undefined. */
  function LabelOf(format: string, d: JsValue): Option<Label> {
    if IsNullish(d) then None else Some(Label(Get(d, "timestamp"), format))
  }

  function Series(parse: JsValue -> Option<real>, records: seq<JsValue>, key: string): (ys: seq<real>)
    ensures |ys| == |records|
    ensures forall i | 0 <= i < |records| :: ys[i] == Plotted(parse, Get(records[i], key))
  {
    seq(|records|, i requires 0 <= i < |records| => Plotted(parse, Get(records[i], key)))
  }

  /** `chartData` for the props `data` and `timeframe`. */
  function ChartDataOf(data: JsValue, timeframe: string, parse: JsValue -> Option<real>): (c: ChartData)
    ensures Tables.NoData(data) ==> c == NoChart
    ensures !Tables.NoData(data) && !data.Arr? ==> c == Throws
    ensures !Tables.NoData(data) && data.Arr? ==>
      && (c.Chart? <==> forall i | 0 <= i < |data.items| :: !IsNullish(data.items[i]))
      && (!c.Chart? ==> c == Throws)
  {
    if Tables.NoData(data) then NoChart
    else if !data.Arr? then Throws
    else
      var ordered := Reversed(data.items);
      assert forall i | 0 <= i < |ordered| :: ordered[i] in data.items by { ReversedIndex(data.items); }
      assert forall i | 0 <= i < |data.items| :: data.items[i] in ordered by {
        ReversedIndex(data.items);
        forall i | 0 <= i < |data.items| ensures data.items[i] in ordered {
          assert ordered[|data.items| - 1 - i] == data.items[i];
        }
      }
      match MapOrThrow(ordered, (_, d) => LabelOf(FormatFor(timeframe), d), 0)
      case None => Throws
      case Some(labels) =>
        Chart(labels, Series(parse, ordered, "suhu"), Series(parse, ordered, "ph"), Series(parse, ordered, "tds"))
  }

  /** A chart has one label and one point per record in each of its three
      series, and position `i` shows the record `n - 1 - i` of the
      newest-first input, labelled in the timeframe's format. */
  lemma ChartIsChronological(items: seq<JsValue>, timeframe: string, parse: JsValue -> Option<real>)
    requires ChartDataOf(Arr(items), timeframe, parse).Chart?
    ensures var c := ChartDataOf(Arr(items), timeframe, parse);
      var n := |items|;
      && |c.labels| == n && |c.suhu| == n && |c.ph| == n && |c.tds| == n
      && forall i | 0 <= i < n ::
        && c.labels[i] == Label(Get(items[n - 1 - i], "timestamp"), FormatFor(timeframe))
        && c.suhu[i] == Plotted(parse, Get(items[n - 1 - i], "suhu"))
        && c.ph[i] == Plotted(parse, Get(items[n - 1 - i], "ph"))
        && c.tds[i] == Plotted(parse, Get(items[n - 1 - i], "tds"))
  {
    ReversedIndex(items);
    var ordered := Reversed(items);
    var f := (_, d) => LabelOf(FormatFor(timeframe), d);
    assert forall i | 0 <= i < |ordered| :: f(0 + i, ordered[i]) == LabelOf(FormatFor(timeframe), ordered[i]);
  }

  /** Any non-empty array of non-null records gives a chart. */
  lemma RecordsGiveChart(items: seq<JsValue>, timeframe: string, parse: JsValue -> Option<real>)
    requires items != [] && forall i | 0 <= i < |items| :: !IsNullish(items[i])
    ensures ChartDataOf(Arr(items), timeframe, parse).Chart?
  {
  }
}
