/** The view-state controller of the dashboard (src/App.jsx): the per-timeframe
    history limit, the alias resolution that turns a realtime payload into
    display state, the per-timeframe history cache with its prefetch skip, and
    the visibility-dependent polling interval. Results of `fetchAllData`, the
    formatted clock and page visibility arrive as inputs. */
module Dashboard {
  import opened Js
  import SC = ScriptClient

  const VisibleInterval: nat := 15000
  const HiddenInterval: nat := 60000
  const DefaultErrorText := "Gagal memperbarui data dari Google Script"
  /** The live client's default `limit`, used by a prefetch, which passes none. */
  const PrefetchLimit: nat := 500

  /** `limitFor(tf)`: the history size cap for a timeframe. */
  function LimitFor(timeframe: string): nat {
    if timeframe == "1hour" then 200
    else if timeframe == "1day" then 800
    else if timeframe == "1week" then 2000
    else 3000
  }

  /** The cap grows with the window, and the catch-all cap goes with the
      catch-all history action. */
  lemma LimitTable(timeframe: string)
    ensures LimitFor("1hour") < LimitFor("1day") < LimitFor("1week") < LimitFor("all")
    ensures LimitFor(timeframe) in {200, 800, 2000, 3000}
    ensures LimitFor(timeframe) == 3000 <==> SC.HistoryActionForTimeframe(timeframe) == "history"
  {
  }

  // ----- normalising a realtime payload -----

  datatype SensorData = SensorData(
    suhu: JsValue, suhuStatus: JsValue,
    ph: JsValue, phStatus: JsValue,
    tds: JsValue, tdsStatus: JsValue)

  const NA := Str("N/A")
  const Zero := Num(0.0)
  const InitialSensorData := SensorData(Zero, NA, Zero, NA, Zero, NA)

  const SuhuAliases: seq<string> := ["suhu", "suhu_raw"]
  const SuhuStatusAliases: seq<string> := ["suhuStatus", "suhu_status", "status_suhu"]
  const PhAliases: seq<string> := ["ph", "ph_raw"]
  const PhStatusAliases: seq<string> := ["phStatus", "ph_status"]
  const TdsAliases: seq<string> := ["tds", "tds_raw"]
  const TdsStatusAliases: seq<string> := ["tdsStatus", "tds_status"]
  /** The recommendation chain as written, with its repeated aliases. */
  const RecommendationAliases: seq<string> :=
    ["fuzzyRekomendasi", "fuzzy_rekomendasi", "fuzzy_rekomendasi", "fuzzy", "fuzzyRekomendasi", "rekomendasi"]

  /** The sensor state built from a truthy realtime payload. */
  function Snapshot(realtime: JsValue): SensorData {
    SensorData(
      FirstNonNullish(realtime, SuhuAliases, Zero),
      FirstNonNullish(realtime, SuhuStatusAliases, NA),
      FirstNonNullish(realtime, PhAliases, Zero),
      FirstNonNullish(realtime, PhStatusAliases, NA),
      FirstNonNullish(realtime, TdsAliases, Zero),
      FirstNonNullish(realtime, TdsStatusAliases, NA))
  }

  function RecommendationOf(realtime: JsValue): JsValue {
    FirstNonNullish(realtime, RecommendationAliases, Str(""))
  }

  /** Temperature comes from `suhu`, else `suhu_raw`, else 0; a present 0 is
      kept. The pH and TDS values follow the same pattern. */
  lemma NumericFieldsResolve(realtime: JsValue)
    ensures !IsNullish(Get(realtime, "suhu")) ==> Snapshot(realtime).suhu == Get(realtime, "suhu")
    ensures IsNullish(Get(realtime, "suhu")) ==>
      Snapshot(realtime).suhu == (if IsNullish(Get(realtime, "suhu_raw")) then Zero else Get(realtime, "suhu_raw"))
    ensures !IsNullish(Get(realtime, "ph")) ==> Snapshot(realtime).ph == Get(realtime, "ph")
    ensures IsNullish(Get(realtime, "ph")) ==>
      Snapshot(realtime).ph == (if IsNullish(Get(realtime, "ph_raw")) then Zero else Get(realtime, "ph_raw"))
    ensures !IsNullish(Get(realtime, "tds")) ==> Snapshot(realtime).tds == Get(realtime, "tds")
    ensures IsNullish(Get(realtime, "tds")) ==>
      Snapshot(realtime).tds == (if IsNullish(Get(realtime, "tds_raw")) then Zero else Get(realtime, "tds_raw"))
  {
    FirstNonNullishWins(realtime, SuhuAliases, Zero, 0);
    FirstNonNullishWins(realtime, PhAliases, Zero, 0);
    FirstNonNullishWins(realtime, TdsAliases, Zero, 0);
  }

  /** A payload carrying only `suhu_raw` shows that value as the temperature. */
  lemma RawTemperatureUsed(v: JsValue)
    requires !IsNullish(v)
    ensures Snapshot(Obj(map["suhu_raw" := v])).suhu == v
  {
  }

  /** Each status is its first present alias, or "N/A" when none is present;
      for temperature the order is suhuStatus, suhu_status, status_suhu. */
  lemma StatusFieldsResolve(realtime: JsValue)
    ensures var s := Snapshot(realtime).suhuStatus;
      && (!IsNullish(Get(realtime, "suhuStatus")) ==> s == Get(realtime, "suhuStatus"))
      && (IsNullish(Get(realtime, "suhuStatus")) && !IsNullish(Get(realtime, "suhu_status")) ==> s == Get(realtime, "suhu_status"))
      && (IsNullish(Get(realtime, "suhuStatus")) && IsNullish(Get(realtime, "suhu_status")) ==>
            s == (if IsNullish(Get(realtime, "status_suhu")) then NA else Get(realtime, "status_suhu")))
    ensures (forall k | k in PhStatusAliases :: IsNullish(Get(realtime, k))) ==> Snapshot(realtime).phStatus == NA
    ensures (forall k | k in TdsStatusAliases :: IsNullish(Get(realtime, k))) ==> Snapshot(realtime).tdsStatus == NA
    ensures !IsNullish(Get(realtime, "phStatus")) ==> Snapshot(realtime).phStatus == Get(realtime, "phStatus")
    ensures !IsNullish(Get(realtime, "tdsStatus")) ==> Snapshot(realtime).tdsStatus == Get(realtime, "tdsStatus")
  {
    FirstNonNullishWins(realtime, SuhuStatusAliases, NA, 0);
    if IsNullish(Get(realtime, "suhuStatus")) {
      FirstNonNullishWins(realtime, SuhuStatusAliases, NA, 1);
      if IsNullish(Get(realtime, "suhu_status")) {
        FirstNonNullishWins(realtime, SuhuStatusAliases, NA, 2);
        if IsNullish(Get(realtime, "status_suhu")) {
          FirstNonNullishWins(realtime, SuhuStatusAliases, NA, 3);
        }
      }
    }
    FirstNonNullishWins(realtime, PhStatusAliases, NA, 0);
    FirstNonNullishWins(realtime, TdsStatusAliases, NA, 0);
    if forall k | k in PhStatusAliases :: IsNullish(Get(realtime, k)) {
      FirstNonNullishWins(realtime, PhStatusAliases, NA, 2);
    }
    if forall k | k in TdsStatusAliases :: IsNullish(Get(realtime, k)) {
      FirstNonNullishWins(realtime, TdsStatusAliases, NA, 2);
    }
  }

  /** The repeated aliases of the recommendation chain are inert: it reads
      fuzzyRekomendasi, fuzzy_rekomendasi, fuzzy, rekomendasi, then "". */
  lemma RecommendationChainReduces(realtime: JsValue)
    ensures RecommendationOf(realtime) ==
      FirstNonNullish(realtime, ["fuzzyRekomendasi", "fuzzy_rekomendasi", "fuzzy", "rekomendasi"], Str(""))
  {
    var ks := RecommendationAliases;
    assert ks[..4][0] == ks[4];
    RepeatedAliasIsInert(realtime, ks, Str(""), 4);
    var ks1 := ks[..4] + ks[5..];
    assert ks1 == ["fuzzyRekomendasi", "fuzzy_rekomendasi", "fuzzy_rekomendasi", "fuzzy", "rekomendasi"];
    assert ks1[..2][1] == ks1[2];
    RepeatedAliasIsInert(realtime, ks1, Str(""), 2);
    assert ks1[..2] + ks1[3..] == ["fuzzyRekomendasi", "fuzzy_rekomendasi", "fuzzy", "rekomendasi"];
  }

  /** `err.message || 'Gagal memperbarui data dari Google Script'` */
  function ErrorText(e: Failure): (t: string)
    ensures t != []
    ensures e.message != [] ==> t == e.message
  {
    if e.message != [] then e.message else DefaultErrorText
  }

  /** `document.hidden ? HIDDEN_INTERVAL : VISIBLE_INTERVAL` */
  function PollInterval(hidden: bool): (ms: nat)
    ensures hidden ==> ms == HiddenInterval
    ensures !hidden ==> ms == VisibleInterval
    ensures ms >= VisibleInterval
  {
    if hidden then HiddenInterval else VisibleInterval
  }

  /** A prefetch asks for the default limit, which no timeframe's own limit
      equals, so a prefetched history URL is never the URL that a later
      `updateSensorData` for that timeframe reads: the response cache entry a
      prefetch stores is not the one the refresh looks up. */
  lemma PrefetchUrlIsNotRefreshUrl(base: string, timeframe: string)
    ensures SC.HistoryUrl(base, SC.HistoryActionForTimeframe(timeframe), PrefetchLimit)
         != SC.HistoryUrl(base, SC.HistoryActionForTimeframe(timeframe), LimitFor(timeframe))
  {
    SC.HistoryUrlDeterminesLimit(base, SC.HistoryActionForTimeframe(timeframe), PrefetchLimit, LimitFor(timeframe));
  }

  /** Work an effect hands on to later steps: a call of `updateSensorData`,
      or a call of `prefetchData(timeframe)`. */
  datatype FollowUp = Refresh | Prefetch(timeframe: string)

  /** The effects that run after a render in which `currentFilter` took a new
      value, and on mount, in declaration order: the filter effect refreshes;
      then the setup effect, which depends on the `updateSensorData` callback
      rebuilt for the new filter, refreshes, prefetches three timeframes and
      restarts polling. */
  const EffectFollowUps: seq<FollowUp> := [Refresh, Refresh, Prefetch("1day"), Prefetch("1week"), Prefetch("all")]

  /** The dashboard's React state and refs. `historyCache` is
      `historyCacheRef.current`; only arrays are ever stored in it, so a
      timeframe is cached exactly when it has a key. `pollInterval` is the
      period of the interval in `refreshIntervalRef` (None before polling starts). */
  class Dashboard {
    var sensorData: SensorData
    var recommendation: JsValue
    var currentFilter: string
    var historyData: seq<JsValue>
    var historyCache: map<string, seq<JsValue>>
    var error: string
    var showError: bool
    var isLoading: bool
    var lastUpdated: string
    var pollInterval: Option<nat>

    constructor ()
      ensures sensorData == InitialSensorData && recommendation == Str("")
      ensures currentFilter == "1hour" && historyData == [] && historyCache == map[]
      ensures error == "" && !showError && !isLoading && lastUpdated == "" && pollInterval == None
    {
      sensorData := InitialSensorData;
      recommendation := Str("");
      currentFilter := "1hour";
      historyData := [];
      historyCache := map[];
      error := "";
      showError := false;
      isLoading := false;
      lastUpdated := "";
      pollInterval := None;
    }

    /** The two effects after a render that changed `currentFilter` (and on
        mount): polling restarts at the interval for the page's visibility,
        and the refreshes and prefetches are handed on. */
    method RunEffects(hidden: bool) returns (followUps: seq<FollowUp>)
      modifies this
      ensures followUps == EffectFollowUps
      ensures pollInterval == Some(PollInterval(hidden))
      ensures sensorData == old(sensorData) && recommendation == old(recommendation)
      ensures currentFilter == old(currentFilter) && historyData == old(historyData) && historyCache == old(historyCache)
      ensures error == old(error) && showError == old(showError) && isLoading == old(isLoading)
      ensures lastUpdated == old(lastUpdated)
    {
      followUps := [Refresh];
      followUps := followUps + [Refresh, Prefetch("1day"), Prefetch("1week"), Prefetch("all")];
      StartPolling(hidden);
    }

    /** `setCurrentFilter(tf)` from the filter buttons. Setting the filter it
        already has renders nothing new and runs no effect; a new filter runs
        both effects. */
    method SelectFilter(timeframe: string, hidden: bool) returns (followUps: seq<FollowUp>)
      modifies this
      ensures currentFilter == timeframe
      ensures timeframe == old(currentFilter) ==> followUps == [] && pollInterval == old(pollInterval)
      ensures timeframe != old(currentFilter) ==>
        followUps == EffectFollowUps && pollInterval == Some(PollInterval(hidden))
      ensures sensorData == old(sensorData) && recommendation == old(recommendation)
      ensures historyData == old(historyData) && historyCache == old(historyCache)
      ensures error == old(error) && showError == old(showError) && isLoading == old(isLoading)
      ensures lastUpdated == old(lastUpdated)
    {
      if timeframe == currentFilter {
        return [];
      }
      currentFilter := timeframe;
      followUps := RunEffects(hidden);
    }

    /** `updateSensorData()`: requests `fetchAllData(currentFilter,
        limitFor(currentFilter))` (the returned limit), whose settled result is
        `fetched`; `clockText` is the formatted time of the update. */
    method UpdateSensorData(fetched: Outcome<SC.DataPair>, clockText: string) returns (limit: nat)
      modifies this
      ensures limit == LimitFor(currentFilter)
      ensures !isLoading
      ensures currentFilter == old(currentFilter) && pollInterval == old(pollInterval)
      // success: sensor data only from a truthy payload, history only from an array
      ensures fetched.Ok? ==>
        var realtime, history := fetched.value.realtime, fetched.value.history;
        && sensorData == (if IsTruthy(realtime) then Snapshot(realtime) else old(sensorData))
        && recommendation == (if IsTruthy(realtime) then RecommendationOf(realtime) else old(recommendation))
        && historyData == (if history.Arr? then history.items else old(historyData))
        && historyCache == (if history.Arr? then old(historyCache)[currentFilter := history.items] else old(historyCache))
        && lastUpdated == clockText
        && error == old(error) && showError == old(showError)
      // failure: the message is surfaced and everything displayed stays as it was
      ensures fetched.Err? ==>
        && error == ErrorText(fetched.error) && showError
        && sensorData == old(sensorData) && recommendation == old(recommendation)
        && historyData == old(historyData) && historyCache == old(historyCache)
        && lastUpdated == old(lastUpdated)
    {
      isLoading := true;
      limit := LimitFor(currentFilter);
      if fetched.Ok? {
        ShowData(fetched.value, clockText);
      } else {
        error := ErrorText(fetched.error);
        showError := true;
      }
      isLoading := false;
    }

    /** The success branch of `updateSensorData`: sensor state is taken only
        from a truthy realtime payload, history only from an array. */
    method ShowData(pair: SC.DataPair, clockText: string)
      modifies this
      ensures sensorData == (if IsTruthy(pair.realtime) then Snapshot(pair.realtime) else old(sensorData))
      ensures recommendation == (if IsTruthy(pair.realtime) then RecommendationOf(pair.realtime) else old(recommendation))
      ensures historyData == (if pair.history.Arr? then pair.history.items else old(historyData))
      ensures historyCache == (if pair.history.Arr? then old(historyCache)[currentFilter := pair.history.items] else old(historyCache))
      ensures lastUpdated == clockText
      ensures currentFilter == old(currentFilter) && pollInterval == old(pollInterval) && isLoading == old(isLoading)
      ensures error == old(error) && showError == old(showError)
    {
      if IsTruthy(pair.realtime) {
        var snapshot, rec := Snapshot(pair.realtime), RecommendationOf(pair.realtime);
        sensorData, recommendation := snapshot, rec;
      }
      if pair.history.Arr? {
        historyData := pair.history.items;
        historyCache := historyCache[currentFilter := pair.history.items];
      }
      lastUpdated := clockText;
    }

    /** `prefetchData(timeframe)`: nothing is requested for a timeframe already
        cached; otherwise `fetchAllData(timeframe)` is requested with the
        default limit and only an array history is stored. Errors are
        swallowed, and nothing but the cache changes. */
    method PrefetchData(timeframe: string, fetched: Outcome<SC.DataPair>) returns (requested: Option<nat>)
      modifies this
      ensures timeframe in old(historyCache) ==> requested == None && historyCache == old(historyCache)
      ensures timeframe !in old(historyCache) ==>
        && requested == Some(PrefetchLimit)
        && historyCache == (if fetched.Ok? && fetched.value.history.Arr?
                            then old(historyCache)[timeframe := fetched.value.history.items]
                            else old(historyCache))
      ensures sensorData == old(sensorData) && recommendation == old(recommendation)
      ensures currentFilter == old(currentFilter) && historyData == old(historyData)
      ensures error == old(error) && showError == old(showError) && isLoading == old(isLoading)
      ensures lastUpdated == old(lastUpdated) && pollInterval == old(pollInterval)
    {
      if timeframe in historyCache {
        return None;
      }
      requested := Some(PrefetchLimit);
      if fetched.Ok? && fetched.value.history.Arr? {
        historyCache := historyCache[timeframe := fetched.value.history.items];
      }
    }

    /** `startPolling(ms)` with the interval chosen from the page's visibility:
        any earlier interval is replaced. */
    method StartPolling(hidden: bool)
      modifies this
      ensures pollInterval == Some(PollInterval(hidden))
      ensures sensorData == old(sensorData) && recommendation == old(recommendation)
      ensures currentFilter == old(currentFilter) && historyData == old(historyData) && historyCache == old(historyCache)
      ensures error == old(error) && showError == old(showError) && isLoading == old(isLoading)
      ensures lastUpdated == old(lastUpdated)
    {
      pollInterval := Some(PollInterval(hidden));
    }

    /** The `visibilitychange` handler: restart polling at the new interval,
        and ask for an immediate refresh when the page became visible. */
    method OnVisibilityChange(hidden: bool) returns (refreshNow: bool)
      modifies this
      ensures pollInterval == Some(if hidden then HiddenInterval else VisibleInterval)
      ensures refreshNow <==> !hidden
      ensures sensorData == old(sensorData) && recommendation == old(recommendation)
      ensures currentFilter == old(currentFilter) && historyData == old(historyData) && historyCache == old(historyCache)
      ensures error == old(error) && showError == old(showError) && isLoading == old(isLoading)
      ensures lastUpdated == old(lastUpdated)
    {
      StartPolling(hidden);
      refreshNow := !hidden;
    }
  }

  /** The visible cadence is the shorter one. */
  lemma VisiblePollsMoreOften()
    ensures PollInterval(false) < PollInterval(true)
  {
  }
}
