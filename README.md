# Aquascape IoT dashboard: a Dafny model of its client logic

This project models the client side of a React dashboard for an aquascape.
The tank's sensors report temperature (`suhu`), pH and dissolved solids
(TDS) to a Google Apps Script backend. The dashboard reads a realtime
snapshot and a history of readings, classifies each reading, and composes a
recommendation. An admin area edits three backend tables: calibrations,
range definitions and fuzzy rules.

The model covers these parts:

- **`Js`** (`js.dfy`): the slice of JavaScript value semantics the code relies on.
  - JSON-shaped values.
  - The nullish `??` chain and the falsy `||` chain.
  - Property reads, index reads and index assignment in strict mode.
  - `String(n)` for non-negative integers.
  - `map` with a callback that may throw.
- **`ScriptClient`** (`src/api/googleScriptClient.js`): the live backend client.
  - How `safeFetch` classifies a response.
  - The URL-keyed TTL cache `cachedFetch`, as a class over a `map`.
  - The timeframe-to-action lookup.
  - The combined realtime and history read, and the table reads.
  - The form bodies of `setStatus` and of the three `update*` calls.
- **`DraftClient`** (`src/api/googleScript.js`, the complete draft at lines 113-212): an earlier client.
  - It tries the script first and falls back to the local proxy `/api.php`.
  - Each result is a `Run`: its outcome and the requests issued, in order.
- **`Dashboard`** (`src/App.jsx`): the view-state controller, as a class.
  - The history limit per timeframe.
  - The alias resolution of a realtime payload.
  - The per-timeframe history cache, with the prefetch skip.
  - The polling interval.
- **`Sensors`** (`src/utils/mockData.js`): the threshold classifier and the recommendation text.
- **`Settings`** (`src/components/Settings.jsx`): the calibration editor, as a class.
- **`AdminPanel`** (`src/components/AdminPanel.jsx`): the admin panel, as a class.
  - Its load, edit and save procedures.
  - The row conversions done before a save.
- **`Tables`**, **`RangeDefinitions`**, **`FuzzyRules`**: the branch structure and per-row cells of the two read-only tables.
- **`HistoryChart`**: the chart data.
- **`SensorCard`**: the status colour and the badge text.

Some inputs are parameters:

- What the network did is an `Exchange`: a response record, or a rejection.
- The outcome of `JSON.parse` is a field of that response record.
- The clock is passed as numbers.
- Page visibility is a boolean.
- `parseFloat` is a function argument.
- The formatted time of day is a string.

## Model

| member | source | states |
|---|---|---|
| Js.FirstNonNullishWins | src/App.jsx:59-64 | a `??` chain returns the first alias that is neither null nor undefined, or the fallback exactly when every alias is missing |
| Js.FirstTruthyWins | src/components/AdminPanel.jsx:55 | an `\|\|` chain returns the first truthy alias, so a present 0 or '' is passed over |
| Js.RepeatedAliasIsInert | src/App.jsx:68 | an alias that already occurred earlier in a `??` chain can be dropped without changing the result |
| Js.SkipNullishAlias | src/App.jsx:68 | dropping an alias whose value is null or undefined leaves the chain's result unchanged |
| Js.NatTextRoundTrip | src/api/googleScriptClient.js:26 | reading back the decimal digits of `String(n)` gives `n` |
| Js.NatTextInjective | src/api/googleScriptClient.js:60 | distinct limits render to distinct digit strings |
| Js.SetAt | src/components/Settings.jsx:56-57 | an assignment to cell `i` of an array sets that cell, grows the array to hold it, and leaves every other cell as it was (undefined in a gap) |
| Js.AssignThenIndex | src/components/AdminPanel.jsx:33 | reading back an index just assigned on an array or object yields the assigned value |
| Js.MapOrThrow | src/components/AdminPanel.jsx:55 | `map` with a throwing callback succeeds exactly when no element throws, and then keeps the length and maps each element in place |
| Js.FirstNonNullish | src/App.jsx:59-69 | the `v[k0] ?? v[k1] ?? … ?? fallback` chain; `Js.FirstNonNullishWins` states which alias it yields |
| Js.FirstTruthy | src/components/AdminPanel.jsx:55-66 | the `v[k0] \|\| v[k1] \|\| … \|\| fallback` chain; `Js.FirstTruthyWins` states which alias it yields |
| Js.Index | src/components/Settings.jsx:20 | `v[i]`: an array cell, a string character or the property `String(i)`, and a throw on null or undefined; `Js.AssignThenIndex` reads back through it |
| Js.AssignIndex | src/components/Settings.jsx:57 | strict-mode `target[i] = v`: an array is updated as `Js.SetAt` states, an object gains `String(i)`, anything else throws; `Js.AssignThenIndex` states the round trip |
| Js.MessageOrName | src/components/AdminPanel.jsx:27 | `err.message \|\| String(err)` for an Error: the message, or the name when the message is empty; the text `AdminPanel.FailedUpdateSkipsReload` shows |
| ScriptClient.Classify | src/api/googleScriptClient.js:24-32 | a non-ok response always fails, with the body text or else `HTTP <status>`, never an empty message; an ok response yields the parsed body; outside a JSON content type an unparsable body yields `{message: text}`; an unreadable body fails with the reader's error |
| ScriptClient.SafeFetch | src/api/googleScriptClient.js:10-21 | a rejected fetch fails with a non-empty message: an abort stays an AbortError saying "Request aborted", anything else keeps its message or says "Network error or CORS blocked" |
| ScriptClient.HistoryActionTable | src/api/googleScriptClient.js:50-55 | '1hour', '1day' and '1week' map to their own history actions, and exactly the other strings, 'all' included, map to `history` |
| ScriptClient.HistoryActionForTimeframe | src/api/googleScriptClient.js:50-55 | the history action per timeframe; `ScriptClient.HistoryActionTable` states the table |
| ScriptClient.RealtimeUrl | src/api/googleScriptClient.js:59 | the realtime URL; `ScriptClient.RealtimeAndHistoryKeysDiffer` proves it is never a history URL |
| ScriptClient.HistoryUrl | src/api/googleScriptClient.js:60 | the history URL; `ScriptClient.HistoryUrlDeterminesLimit` proves it determines its limit |
| ScriptClient.RealtimeAndHistoryKeysDiffer | src/api/googleScriptClient.js:58-60 | the realtime URL never equals a history URL, so the two reads never share a cache entry |
| ScriptClient.HistoryUrlDeterminesLimit | src/api/googleScriptClient.js:60 | history URLs for different limits differ |
| ScriptClient.AgeEqualToTtlIsStale | src/api/googleScriptClient.js:41 | an entry exactly `ttl` old is a miss and one a millisecond younger is a hit |
| ScriptClient.AfterFetchFrame | src/api/googleScriptClient.js:44-47 | a successful fetch sets exactly the entry for its URL, and a failed one leaves the table unchanged |
| ScriptClient.StoredDataServedWithinTtl | src/api/googleScriptClient.js:41-46 | data just stored is served, unchanged, by a lookup made within the ttl |
| ScriptClient.IsFresh | src/api/googleScriptClient.js:41 | an entry is reused while strictly younger than the ttl; `ScriptClient.AgeEqualToTtlIsStale` and `ScriptClient.StoredDataServedWithinTtl` state its boundary |
| ScriptClient.ResponseCache.CachedFetch | src/api/googleScriptClient.js:37-48 | the network is used exactly when no fresh entry exists for the URL; a hit returns the stored data and leaves the table unchanged; a miss returns the fetch's outcome and updates the table as `AfterFetch` says |
| ScriptClient.ResponseCache.FetchAllData | src/api/googleScriptClient.js:57-75 | both reads go through the cache, with ttls 5000 and 15000; the call succeeds exactly when both do, with the pair; otherwise it reports the rejection `Promise.all` saw first |
| ScriptClient.ResponseCache.FetchTable | src/api/googleScriptClient.js:94-101 | a table read is a cached read of `?action=get…` with ttl 60000 |
| ScriptClient.KeptParamsMembers | src/api/googleScriptClient.js:155-157 | a `setStatus` field is sent for a param exactly when its value is neither null nor undefined |
| ScriptClient.KeptParamsAppend | src/api/googleScriptClient.js:155-157 | the filtering keeps entry order: it distributes over concatenation |
| ScriptClient.KeptParamsLength | src/api/googleScriptClient.js:155-157 | at most one field is sent per param |
| ScriptClient.KeptParams | src/api/googleScriptClient.js:154-156 | the params kept as form fields; the three `KeptParams…` lemmas state which, in what order and how many |
| ScriptClient.SetStatusBody | src/api/googleScriptClient.js:153-157 | the body is `action=setStatus` followed by the kept params, built one `forEach` step at a time |
| ScriptClient.UpdateBody | src/api/googleScriptClient.js:103-149 | an update body has exactly two fields: the table's update action, then `data` holding the JSON of the rows, with a falsy argument sent as `[]` |
| ScriptClient.ActionsDistinct | src/api/googleScriptClient.js:94-149 | each table has its own read action and its own update action, and no update action equals a read action |
| DraftClient.ActionLookupMatchesLiveClient | src/api/googleScript.js:142-147 | the draft's timeframe lookup equals the live client's, defaulting to `history` |
| DraftClient.HistoryActionForTimeframe | src/api/googleScript.js:142-147 | the draft's own history-action lookup; `DraftClient.ActionLookupMatchesLiveClient` proves it equal to the live client's |
| DraftClient.Classify | src/api/googleScript.js:132-139 | a non-ok response fails; one whose body cannot be read fails with the reader's error; otherwise the draft classifies as the live client does |
| DraftClient.SafeFetch | src/api/googleScript.js:123-129 | every rejected fetch becomes a plain Error with a non-empty message; there is no abort case |
| DraftClient.SafeFetchMatchesLiveClient | src/api/googleScript.js:115-140 | apart from aborts and unreadable failed responses, the draft's transport gives the live client's outcome |
| DraftClient.FetchAllDataFallback | src/api/googleScript.js:149-171 | both script reads are issued first; if both succeed, their pair is returned; otherwise, if both proxy reads succeed, the proxy pair; otherwise the primary error, never a proxy error; the proxy history read is issued exactly when the primary failed and the proxy realtime read succeeded |
| DraftClient.FetchAllData | src/api/googleScript.js:149-171 | the draft's `fetchAllData` with the script and proxy settlements as inputs; `DraftClient.FetchAllDataFallback` states its outcome and requests |
| DraftClient.FetchWithFallback | src/api/googleScript.js:173-190 | a table read returns the script's result on success, else whatever the proxy yields, its error included, with one or two requests issued |
| DraftClient.FetchRangeDefinitions | src/api/googleScript.js:173-181 | every request is a read of `getRangeDefinitions`, and the result is the script's on success, else the proxy's |
| DraftClient.FetchFuzzyRules | src/api/googleScript.js:183-190 | every request is a read of `getFuzzyRules`, and the result is the script's on success, else the proxy's |
| DraftClient.PutKeepsFirstKey | src/api/googleScript.js:199 | writing a key into an object keeps the first-created key first in creation order |
| DraftClient.PutNewKeyAppends | src/api/googleScript.js:199 | writing a new key into an object creates it after every existing key |
| DraftClient.KeysPut | src/api/googleScript.js:199 | writing a key adds exactly that key to the object's keys |
| DraftClient.KeysSpread | src/api/googleScript.js:199 | spreading adds exactly the spread object's keys |
| DraftClient.SpreadKeepsFirstKey | src/api/googleScript.js:199 | spreading params into `{action: …}` keeps `action` as the first-created key |
| DraftClient.SpreadDisjointAppends | src/api/googleScript.js:199 | spreading params with distinct new keys creates them after the literal's keys, in their own order |
| DraftClient.EntryKinds | src/api/googleScript.js:199 | splitting the properties puts every array-index key in the first part and every other key in the second |
| DraftClient.InsertKeepsAscending | src/api/googleScript.js:199 | inserting an array-index property into an ascending list keeps it ascending and loses nothing |
| DraftClient.SortIsAscending | src/api/googleScript.js:199 | the array-index properties are put in ascending numeric order, each kept once |
| DraftClient.EnumeratedOrder | src/api/googleScript.js:199-203 | an object lists every property once: array-index keys first and ascending, then the other keys in creation order; this is the order `JSON.stringify` and `URLSearchParams` send |
| DraftClient.FormOf | src/api/googleScript.js:203 | `new URLSearchParams(record)` has one field per key, in order, each value as `String(v)` |
| DraftClient.SetStatus | src/api/googleScript.js:192-210 | the first request is the JSON POST to the script, its fields in the object's listing order; on success its result is returned after that one request; on failure the proxy's outcome is returned after one form POST of the same fields in the same order |
| DraftClient.SetStatusFieldOrder | src/api/googleScript.js:199-203 | the fields sent are the array-index params in ascending order, then `action`, then the other params in their own order, none dropped |
| DraftClient.SetStatusFallbackForm | src/api/googleScript.js:203-208 | without array-index params the fallback form is `action=setStatus` followed by the params in their own order |
| DraftClient.SetStatusActionFirst | src/api/googleScript.js:199-203 | `action` is the first field of both bodies exactly when no param key is an array index |
| DraftClient.Put | src/api/googleScript.js:199 | writing a key into an object literal; `DraftClient.PutKeepsFirstKey`, `PutNewKeyAppends` and `KeysPut` state its creation order and keys |
| DraftClient.Spread | src/api/googleScript.js:199 | `{ ...fields, ...params }`; `DraftClient.KeysSpread`, `SpreadKeepsFirstKey` and `SpreadDisjointAppends` state it |
| DraftClient.Enumerated | src/api/googleScript.js:199-203 | the order an object lists its properties in; `DraftClient.EnumeratedOrder` states it |
| DraftClient.StatusFields | src/api/googleScript.js:199-203 | the status object sent, in listing order; `DraftClient.SetStatusFieldOrder` and `SetStatusActionFirst` state it |
| DraftClient.SingleIndexParam | src/api/googleScript.js:199-203 | a single array-index param is sent before `action` |
| DraftClient.IndexKeySentBeforeAction | src/api/googleScript.js:203-207 | `setStatus({'1': 'on'})` falls back to the form `1=on&action=setStatus` |
| DraftClient.NullParamSentOnlyByDraft | src/api/googleScript.js:203 | a null param is sent by the draft's fallback form but dropped by the live client's body |
| Dashboard.LimitTable | src/App.jsx:49-54 | the limit is 200, 800, 2000 and 3000 for 1hour, 1day, 1week and anything else, increasing with the window; the catch-all limit goes with the catch-all history action |
| Dashboard.NumericFieldsResolve | src/App.jsx:59-63 | each reading is its field, else its `_raw` alias, else 0; a present 0 is kept |
| Dashboard.RawTemperatureUsed | src/App.jsx:59 | a payload carrying only `suhu_raw` shows that value |
| Dashboard.StatusFieldsResolve | src/App.jsx:60-64 | each status is its first present alias, else 'N/A'; temperature consults `suhuStatus`, `suhu_status`, `status_suhu` in that order |
| Dashboard.Snapshot | src/App.jsx:59-64 | the sensor state built from a truthy payload; `Dashboard.NumericFieldsResolve` and `Dashboard.StatusFieldsResolve` state each field |
| Dashboard.RecommendationChainReduces | src/App.jsx:67-69 | the six-alias recommendation chain, with its repeats, equals the four-alias chain `fuzzyRekomendasi`, `fuzzy_rekomendasi`, `fuzzy`, `rekomendasi`, then '' |
| Dashboard.LimitFor | src/App.jsx:49-54 | the history cap per timeframe; `Dashboard.LimitTable` states the table |
| Dashboard.RecommendationOf | src/App.jsx:67-69 | the recommendation alias chain; `Dashboard.RecommendationChainReduces` states what it reduces to |
| Dashboard.ErrorText | src/App.jsx:80 | the error shown is the failure's message, or the default Indonesian text when that is empty; it is never empty |
| Dashboard.PollInterval | src/App.jsx:118-132 | the interval is 60000 when the page is hidden and 15000 when it is visible |
| Dashboard.VisiblePollsMoreOften | src/App.jsx:118-119 | the visible cadence is the shorter one |
| Dashboard.PrefetchUrlIsNotRefreshUrl | src/App.jsx:93 | a prefetch requests the default limit 500, which no timeframe's own limit equals, so its history URL is never the one a refresh of that timeframe reads |
| Dashboard.Dashboard.UpdateSensorData | src/App.jsx:45-85 | it reads with the current filter's limit; sensor data and recommendation change only for a truthy payload, and history and its cache entry only for an array; a failure shows its message and changes nothing displayed; loading ends false |
| Dashboard.Dashboard.ShowData | src/App.jsx:57-78 | the success branch: it takes sensor data from a truthy payload and history from an array, writes only the current filter's cache entry, and stamps the update time |
| Dashboard.Dashboard.PrefetchData | src/App.jsx:90-98 | a timeframe already cached issues no request; otherwise one request with limit 500 is issued, only an array history is stored, errors are swallowed, and nothing but the cache changes |
| Dashboard.Dashboard.RunEffects | src/App.jsx:101-145 | the effects after a filter change, and on mount, hand on two refreshes and then prefetches of 1day, 1week and all, and restart polling at the interval for the page's visibility; nothing displayed changes |
| Dashboard.Dashboard.SelectFilter | src/App.jsx:101-145 | choosing the filter already shown changes nothing and runs no effect; a new filter is stored and runs both effects, as `RunEffects` states |
| Dashboard.Dashboard.StartPolling | src/App.jsx:121-129 | polling restarts at the interval for the page's visibility, replacing any earlier interval |
| Dashboard.Dashboard.OnVisibilityChange | src/App.jsx:131-137 | a visibility change restarts polling at the new interval, and asks for an immediate refresh exactly when the page became visible |
| Sensors.GetStatusSensor | src/utils/mockData.js:20-45 | temperature [24,28] is ideal, [22,24) dingin, (28,30] panas, else critical; pH [6.5,7.5] is ideal (7.5 included), (7.5,8] basa, below 6.5 asam, above 8 critical; TDS [150,300] is ideal, (300,500] tinggi, below 150 rendah, above 500 critical; NaN is critical; other sensors are unknown; each as an if-and-only-if |
| Sensors.GenerateRecommendation | src/utils/mockData.js:88-108 | the pushes produce exactly the per-sensor messages in the order temperature, pH, TDS, and return the optimal sentence when there are none, else the messages joined by single spaces |
| Sensors.MessagesPerSensor | src/utils/mockData.js:91-101 | each sensor contributes at most one message, and `ideal` or an unlisted status contributes none |
| Sensors.SuhuMessage | src/utils/mockData.js:91-93 | the temperature message for `dingin`, `panas` or `critical`, none otherwise; `Sensors.MessagesPerSensor` and `Sensors.EveryNonIdealStatusHasAMessage` state it |
| Sensors.PhMessage | src/utils/mockData.js:95-97 | the pH message for `asam`, `basa` or `critical`, none otherwise; stated by the same lemmas |
| Sensors.TdsMessage | src/utils/mockData.js:99-101 | the TDS message for `rendah`, `tinggi` or `critical`, none otherwise; stated by the same lemmas |
| Sensors.JoinEndsWithLastPart | src/utils/mockData.js:107 | a joined text ends with the last character of its last part |
| Sensors.MessagesEndInPunctuation | src/utils/mockData.js:91-101 | every message ends in '.' or '!' |
| Sensors.OptimalExactlyWhenNoMessage | src/utils/mockData.js:103-107 | the optimal sentence is returned exactly when no message was produced; joined messages can never equal it |
| Sensors.Messages | src/utils/mockData.js:91-101 | the pushed messages in sensor order; `Sensors.MessagesPerSensor` and `Sensors.MessagesEndInPunctuation` state them |
| Sensors.RecommendationText | src/utils/mockData.js:103-107 | the optimal sentence or the joined messages; `Sensors.OptimalExactlyWhenNoMessage` states when each is returned |
| Sensors.EveryNonIdealStatusHasAMessage | src/utils/mockData.js:20-101 | for each sensor, a classified reading gets no message exactly when it is ideal |
| Sensors.AllIdealIsOptimal | src/utils/mockData.js:20-105 | three ideal readings give the optimal sentence |
| Settings.CellDisplay | src/components/Settings.jsx:20 | a cell shows `r[ci] ?? ''`: the stored cell when present, '' when missing; a null or undefined row throws |
| Settings.ZeroCellShown | src/components/Settings.jsx:20 | a stored 0 is shown as 0 |
| Settings.LoadedRows | src/components/Settings.jsx:47-52 | an array result becomes the rows; a non-array or a failed read leaves no rows |
| Settings.ChangeArrayRowCell | src/components/Settings.jsx:55-58 | editing a cell of an array row sets exactly that cell and keeps the number of rows, the other rows and the row's other cells |
| Settings.ChangeCreatesRow | src/components/Settings.jsx:56 | a falsy or missing row is replaced by a new array holding only the edited cell |
| Settings.ChangeOnPrimitiveRowThrows | src/components/Settings.jsx:57 | a row that is a truthy primitive makes the edit throw |
| Settings.FilteredRemovesOne | src/components/Settings.jsx:60 | the filter removes exactly the row at position `i` and keeps the others in order; an out-of-range `i` keeps every row |
| Settings.Filtered | src/components/Settings.jsx:60 | `filter((_, idx) => idx !== i)`; `Settings.FilteredRemovesOne` states what it removes |
| Settings.CalibrationEditor.LoadAll | src/components/Settings.jsx:47-52 | the rows become `LoadedRows` of the read |
| Settings.CalibrationEditor.CalChange | src/components/Settings.jsx:55-58 | the edit is stored exactly when it does not throw, and then the rows are those `ChangedRows` describes |
| Settings.CalibrationEditor.CalAdd | src/components/Settings.jsx:59 | exactly one row `['', '', '']` is appended and the existing rows are unchanged |
| Settings.CalibrationEditor.CalDelete | src/components/Settings.jsx:60 | the row at `i` is removed and the others keep their order; an out-of-range `i` changes nothing |
| Settings.CalibrationEditor.SaveCal | src/components/Settings.jsx:62-68 | unauthenticated, nothing is sent and a login is requested for 'menyimpan Calibrations' exactly when a handler was given; authenticated, the rows are sent as an update body, the alert reports success or the error's message, and saving ends false |
| Tables.Render | src/components/RangeDefinitions.jsx:1-39 | loading wins; missing or zero-length data gives the empty view; other non-arrays throw; otherwise there is one row per entry, in order, unless some entry throws |
| Tables.NoDataCases | src/components/FuzzyRules.jsx:10 | undefined, null and `[]` give the empty view; an object lacking `length` and a non-empty string do not |
| Tables.NoData | src/components/FuzzyRules.jsx:10 | `!data \|\| data.length === 0`; `Tables.NoDataCases` states its cases |
| RangeDefinitions.RowCells | src/components/RangeDefinitions.jsx:34-37 | a row has four cells, none null or undefined; a null or undefined row throws |
| RangeDefinitions.CellsResolve | src/components/RangeDefinitions.jsx:34-37 | the variable cell is `Variabel`, else `name`, else `name_var`, else '-'; the other cells take the capitalised key, then the lowercase one, then '-' |
| RangeDefinitions.ZeroMinShown | src/components/RangeDefinitions.jsx:36 | a minimum of 0 is shown as 0 |
| RangeDefinitions.View | src/components/RangeDefinitions.jsx:1-39 | loading wins; missing or empty data gives the empty view; a non-empty array gives one row per entry, in order, exactly when no entry is null or undefined |
| RangeDefinitions.RowsFollowEntries | src/components/RangeDefinitions.jsx:32 | swapping two entries swaps their rows |
| FuzzyRules.RowCells | src/components/FuzzyRules.jsx:35-39 | a row has five cells, none null or undefined; a null or undefined row throws |
| FuzzyRules.RuleIdDefaultsToPosition | src/components/FuzzyRules.jsx:35 | the id is `RuleID`, else `id`, else the 1-based position; a present 0 is kept |
| FuzzyRules.ActionAndPhCells | src/components/FuzzyRules.jsx:37-39 | the action cell checks 'Aksi Direkomendasikan', then `action`, then `aksi`, then '-'; the pH cell checks `pH`, then `ph` |
| FuzzyRules.View | src/components/FuzzyRules.jsx:1-42 | loading wins; missing or empty data gives the empty view; a non-empty array gives one row per rule, in order, exactly when no entry is null or undefined |
| FuzzyRules.RowsNumberedByPosition | src/components/FuzzyRules.jsx:33-35 | rules without ids are numbered 1, 2, 3, … down the table |
| AdminPanel.CellDisplay | src/components/AdminPanel.jsx:93-95 | a calibration cell shows `row[k] \|\| ''`: a truthy cell of an array row is shown as itself, a falsy or missing one as ''; a null or undefined row throws |
| AdminPanel.ZeroCellBlankedHereShownInSettings | src/components/AdminPanel.jsx:93 | a stored 0 is blanked here, while the settings editor shows it |
| AdminPanel.EditArrayRowCell | src/components/AdminPanel.jsx:31-35 | editing an array row changes exactly cell `[idx][col]` |
| AdminPanel.EditMissingRowThrows | src/components/AdminPanel.jsx:33 | a missing row makes the edit throw, where the settings editor creates it |
| AdminPanel.EditedRows | src/components/AdminPanel.jsx:31-35 | the calibration edit on a value; `AdminPanel.EditArrayRowCell` and `AdminPanel.EditMissingRowThrows` state it |
| AdminPanel.RangeRow | src/components/AdminPanel.jsx:55 | array rows pass through unchanged; other rows become the four columns `Variabel \|\| variable \|\| ''`, `Kategori \|\| category \|\| ''`, `Min \|\| min \|\| ''`, `Max \|\| max \|\| ''`; null or undefined throws |
| AdminPanel.NameKeyBlankedOnSave | src/components/AdminPanel.jsx:55 | a definition whose variable is under `name`, which the range table displays, is saved with an empty variable |
| AdminPanel.RangeRows | src/components/AdminPanel.jsx:55 | the range conversion of a whole table; `AdminPanel.RangeRowsShape` states it |
| AdminPanel.RangeRowsShape | src/components/AdminPanel.jsx:55 | conversion succeeds exactly when no row is null or undefined; it keeps the row count, passes array rows through, and makes object rows four columns |
| AdminPanel.ZeroMinBlankedOnSave | src/components/AdminPanel.jsx:55 | a `Min` of 0 with no `min` is sent as '', although the range table displays 0 |
| AdminPanel.FuzzyRowAsWritten | src/components/AdminPanel.jsx:66 | the conversion as written: array rows pass through; other rows become the five columns `RuleID \|\| id \|\| ''`, `Suhu \|\| suhu \|\| ''`, `pH \|\| ''` (never reading `ph`), `TDS \|\| tds \|\| ''`, `Aksi Direkomendasikan \|\| aksi \|\| ''`; null or undefined throws |
| AdminPanel.LowercasePhLostAsWritten | src/components/AdminPanel.jsx:66 | a rule whose pH is under lowercase `ph` loses it when saved as written, while the fuzzy table displays it |
| AdminPanel.FuzzyRow | src/components/AdminPanel.jsx:66 | the corrected conversion: as written, except that the pH column is `pH \|\| ph \|\| ''` |
| AdminPanel.FuzzyRowReadsEitherPh | src/components/AdminPanel.jsx:66 | the corrected pH column is `pH`, else `ph`, else '' |
| AdminPanel.CorrectionOnlyAffectsLowercasePh | src/components/AdminPanel.jsx:66 | the correction changes nothing unless the only truthy pH is under lowercase `ph` |
| AdminPanel.ActionKeyBlankedOnSave | src/components/AdminPanel.jsx:66 | a rule whose action is under `action`, which the fuzzy-rules table displays, is saved with an empty action, as written and corrected alike |
| AdminPanel.FuzzyRowsShape | src/components/AdminPanel.jsx:66 | conversion succeeds exactly when no rule is null or undefined; it keeps the row count, passes array rows through, and makes object rows five columns |
| AdminPanel.FuzzyRows | src/components/AdminPanel.jsx:66 | the corrected fuzzy conversion of a whole table; `AdminPanel.FuzzyRowsShape` states it |
| AdminPanel.AfterLoad | src/components/AdminPanel.jsx:15-29 | a successful load clears the error and sets each table to its result if that is an array, else `[]`; a failed load keeps all three tables and shows `err.message \|\| String(err)` |
| AdminPanel.FailedUpdateSkipsReload | src/components/AdminPanel.jsx:40-45 | a failed update skips the reload: the tables stay as they were, whatever the reload would have returned, and the update's error message is shown |
| AdminPanel.SuccessfulUpdateReloads | src/components/AdminPanel.jsx:42-43 | after a successful update the state is exactly what the following load gives (that load can be served from the response cache) |
| AdminPanel.AfterSave | src/components/AdminPanel.jsx:36-72 | the state a save ends in once its rows are ready; `AdminPanel.FailedUpdateSkipsReload` and `AdminPanel.SuccessfulUpdateReloads` state it |
| AdminPanel.Panel.LoadAll | src/components/AdminPanel.jsx:15-29 | the state becomes `AfterLoad` of the combined read; each table becomes its result if that is an array, else `[]` |
| AdminPanel.Panel.UpdateCalRow | src/components/AdminPanel.jsx:31-35 | the edit is stored exactly when it does not throw; only the calibration rows can change |
| AdminPanel.Panel.SaveCalibrations | src/components/AdminPanel.jsx:37-49 | the rows are sent as they are; the update runs, then the reload; saving ends false |
| AdminPanel.Panel.SaveRangeDefs | src/components/AdminPanel.jsx:51-61 | a row that throws in conversion stops the save before sending, with a TypeError shown; otherwise the converted rows are sent, then reloaded; saving ends false |
| AdminPanel.Panel.SaveFuzzy | src/components/AdminPanel.jsx:63-72 | as for the range rows, with the corrected fuzzy conversion; it differs from the program only for a rule whose sole truthy pH is under `ph` |
| AdminPanel.Panel.SendThenReload | src/components/AdminPanel.jsx:36-72 | the common tail of the three saves: the body is sent, and the new state is `AdminPanel.AfterSave` of the update and reload |
| HistoryChart.ReversedIndex | src/components/HistoryChart.jsx:27 | position `i` of the reversed copy holds element `n - 1 - i` |
| HistoryChart.ReversedTwice | src/components/HistoryChart.jsx:27 | reversing twice gives the input back |
| HistoryChart.FormatFor | src/components/HistoryChart.jsx:29-34 | labels use 'HH:mm' for 1hour and 1day and 'ddd HH:00' for any other timeframe |
| HistoryChart.Plotted | src/components/HistoryChart.jsx:40-60 | a value that does not parse is plotted as 0, and a parsed value as itself |
| HistoryChart.Series | src/components/HistoryChart.jsx:40-60 | a series has one point per record, each the plotted value of that record's field |
| HistoryChart.ChartDataOf | src/components/HistoryChart.jsx:24-70 | missing or empty data gives no chart; other non-arrays throw; an array gives a chart exactly when no record is null or undefined |
| HistoryChart.ChartIsChronological | src/components/HistoryChart.jsx:27-60 | a chart has one label and one point per record in each of three series; position `i` shows record `n - 1 - i` of the newest-first input, labelled in the timeframe's format |
| HistoryChart.RecordsGiveChart | src/components/HistoryChart.jsx:25-27 | any non-empty array of non-null records gives a chart |
| HistoryChart.Reversed | src/components/HistoryChart.jsx:27 | `data.slice().reverse()`; `HistoryChart.ReversedIndex` and `HistoryChart.ReversedTwice` state it |
| HistoryChart.LabelOf | src/components/HistoryChart.jsx:29-34 | one record's label, throwing on a null record; `HistoryChart.ChartIsChronological` states the labels |
| SensorCard.Lookup | src/components/SensorCard.jsx:4-16 | ideal and optimal are green; panas, dingin, asam, basa, tinggi and rendah are yellow; critical is red; the inherited names `constructor` and `__proto__` find something else; everything else is gray; each as an if-and-only-if |
| SensorCard.CaseInsensitive | src/components/SensorCard.jsx:16 | a status and its lower-cased text get the same colour |
| SensorCard.ListedColorsAnyCase | src/components/SensorCard.jsx:4-16 | listed statuses in any case get their colours, and a one-element array is looked up by its element |
| SensorCard.UnlistedIsGray | src/components/SensorCard.jsx:16 | an unlisted status, a number, null and a plain object are gray |
| SensorCard.InheritedNameFound | src/components/SensorCard.jsx:16 | 'Constructor' lower-cases to an inherited member of the table and is not gray |
| SensorCard.ClassifierStatusesAreColored | src/components/SensorCard.jsx:16 | every status the classifier gives for temperature, pH or TDS is coloured, and exactly `unknown` is gray |
| SensorCard.BadgeText | src/components/SensorCard.jsx:23 | the badge shows the status, or 'N/A' exactly when the status is falsy |
| SensorCard.ColorKey | src/components/SensorCard.jsx:16 | `String(status).toLowerCase()` where it can be a key; `SensorCard.CaseInsensitive` states it |
| SensorCard.StatusColor | src/components/SensorCard.jsx:16 | the badge colour; `SensorCard.Lookup`, `ListedColorsAnyCase`, `UnlistedIsGray`, `InheritedNameFound` and `ClassifierStatusesAreColored` state it |

## Left out

- Network I/O is not modelled: `fetch`, `AbortController`, the `setTimeout` deadlines, the hard-coded script URL and its environment lookup. Each request's settlement is an `Exchange` input; a timeout is a rejection named AbortError.
- Concurrency is not modelled. This covers the `Promise.all` calls, racing poll cycles and late responses after a filter change.
  - ScriptClient.ResponseCache.FetchAllData: the two reads are sequential, so the history read sees the table after the realtime read. An input flag says which rejection `Promise.all` reports when both fail.
  - AdminPanel.Panel.LoadAll: takes the combined result of the three reads. It does not model which rejection is reported when several fail.
- JSON parsing and serialisation (RFC 8259) are not modelled, and neither is `application/x-www-form-urlencoded` encoding (WHATWG URL Standard, section 5). Parsed bodies arrive in the response record. Bodies are ordered lists of fields whose values are kept as `String(v)` or `JSON.stringify(v)` of a value.
- `String(x)` is modelled only for non-negative integers and for the statuses the colour lookup reads. Number-to-string conversion in general is not.
- ScriptClient.HistoryUrl: takes it that `encodeURIComponent` leaves the action and the limit unchanged. This holds for the four actions and for decimal digits.
- Formatting with dayjs and timezones is not modelled. A label is the timestamp paired with the format string; the update time is a string input.
- `parseFloat` and floating point are not modelled. Readings are exact reals and NaN is `None`, so an infinite parse result is not represented.
  - Sensors.GetStatusSensor: takes the parsed reading rather than the raw value.
  - HistoryChart.Plotted: takes `parse` as a function input.
- The random data generators in `src/utils/mockData.js` are not modelled: `generateSensorReading`, `generateHistoryData`, `getRangeDefinitions` and the mock fuzzy rules.
- React is not modelled: hooks, rendering, memoisation, `setInterval` and the `visibilitychange` wiring. What a cell value renders as is not modelled either; for example, a plain object as a child throws and booleans render nothing.
  - Dashboard.Dashboard.RunEffects: the follow-ups it hands on are later `UpdateSensorData` and `PrefetchData` calls. On mount it follows the constructor. The effects' cleanup is modelled only as the interval being replaced; removing and re-adding the `visibilitychange` listener is not modelled.
  - Dashboard.Dashboard.OnVisibilityChange: the refresh it asks for is a following `UpdateSensorData` call.
- Update in place and aliasing are not modelled: rows are values. `cachedFetch` hands out the very array it stored (`src/api/googleScriptClient.js:42-46`), and both editors' `loadAll` keep that array. The row objects an editor mutates are therefore also the rows of the cached `?action=getCalibrations` response.
  - Settings.CalibrationEditor.CalChange: the model does not capture that the edit also changes the cached response. For up to 60 s after that read, every `fetchCalibrations()` returns the edited rows, saved or not. A row created afresh for the edit is not shared.
  - AdminPanel.Panel.UpdateCalRow: the same holds, so an unsaved edit made in one editor shows up when the other loads within the ttl. In the model, only the panel's own rows change.
  - AdminPanel.SuccessfulUpdateReloads: the reload after a save is normally a cache hit within the 60 s ttl, so it returns the locally edited rows rather than the backend's. The `reload` input stands for whatever that load settles with; the model does not derive it from the cache.
- AdminPanel.Panel.SaveFuzzy: sends the corrected conversion `AdminPanel.FuzzyRow`, which reads `r.pH || r.ph`. `src/components/AdminPanel.jsx:66` reads `r.pH || r.pH`. A rule whose only truthy pH is under `ph`, such as `{ph: 7}`, is sent with pH '' by the program and with 7 by the model. For every other rule the two agree, as `AdminPanel.CorrectionOnlyAffectsLowercasePh` proves.
- Array holes are modelled as undefined cells. `filter` and `map` skip holes, but the rows they run over never contain any.
- `toLowerCase` is modelled for ASCII letters only.
- The inherited properties of `Object.prototype` other than `constructor` and `__proto__` are not modelled. The other members all contain upper-case letters, so a lower-cased key never reaches them.
- Only the complete draft of `src/api/googleScript.js` (lines 113-212) is modelled. Lines 1-112 and 213-399 are duplicated or truncated fragments that do not parse.
- The components that hold no logic are not modelled: the filter buttons, timer and device controls, login and unauthorised modals, error toast, recommendation card and skeleton. `src/api/client.js` is not part of this model.
- Diagnostics are not modelled: `console.warn` in `prefetchData`, and the engine's wording of TypeError messages. The latter is an input to the save procedures.

## Findings

| source | as written | input that shows it | evidently intended | confidence | as-written member | corrected member |
|---|---|---|---|---|---|---|
| src/components/AdminPanel.jsx:66 | the pH column of a saved fuzzy rule is `r.pH \|\| r.pH \|\| ''`, which reads the same key twice | a rule object `{ph: 7}`, a shape the fuzzy-rules table displays, is saved with pH `''` | `r.pH \|\| r.ph \|\| ''`, like the capitalised-then-lowercase pair of every other column | high (not executed) | AdminPanel.LowercasePhLostAsWritten | AdminPanel.FuzzyRowReadsEitherPh |
