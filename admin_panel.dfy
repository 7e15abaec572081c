/** The admin panel (src/components/AdminPanel.jsx): the three backend tables
    loaded together, calibration cells edited in place, and three save
    procedures that send a table, then reload all three. Range and fuzzy rows
    kept as objects are flattened to fixed-width arrays with `||` fallbacks
    before they are sent. */
module AdminPanel {
  import opened Js
  import SC = ScriptClient
  import Settings
  import RangeDefinitions
  import FuzzyRules

  // ----- cells -----

  /** What a calibration cell shows: `row[k] || ''`, or `None` when the row
      is null or undefined and rendering throws. */
  function CellDisplay(row: JsValue, k: nat): (shown: Option<JsValue>)
    ensures shown.None? <==> IsNullish(row)
    ensures shown.Some? ==> IsTruthy(shown.value) || shown.value == Str("")
    ensures row.Arr? && k < |row.items| && IsTruthy(row.items[k]) ==> shown == Some(row.items[k])
    ensures row.Arr? && (k >= |row.items| || IsFalsy(row.items[k])) ==> shown == Some(Str(""))
  {
    match Index(row, k)
    case None => None
    case Some(cell) => Some(Or(cell, Str("")))
  }

  /** A stored 0 is blanked here but shown as 0 by the settings page's editor:
      `||` against `??`. */
  lemma ZeroCellBlankedHereShownInSettings(row: seq<JsValue>, k: nat)
    requires k < |row| && row[k] == Num(0.0)
    ensures CellDisplay(Arr(row), k) == Some(Str(""))
    ensures Settings.CellDisplay(Arr(row), k) == Some(Num(0.0))
  {
  }

  /** `updateCalRow(idx, col, value)` on a value: cell `col` of the row at
      `idx` is assigned in place. There is no `|| []` here, so a missing,
      null or undefined row throws (`None`), as does a primitive row. */
  function EditedRows(rows: seq<JsValue>, idx: nat, col: nat, v: JsValue): Option<seq<JsValue>> {
    match AssignIndex(At(rows, idx), col, v)
    case None => None
    case Some(row) => Some(SetAt(rows, idx, row))
  }

  /** On an array row the edit changes exactly cell `[idx][col]`. */
  lemma EditArrayRowCell(rows: seq<JsValue>, idx: nat, col: nat, v: JsValue)
    requires idx < |rows| && rows[idx].Arr?
    ensures EditedRows(rows, idx, col, v).Some?
    ensures var r := EditedRows(rows, idx, col, v).value;
      && |r| == |rows|
      && (forall j | 0 <= j < |rows| && j != idx :: r[j] == rows[j])
      && r[idx].Arr? && r[idx].items[col] == v
      && (forall k | 0 <= k < |r[idx].items| && k != col :: r[idx].items[k] == At(rows[idx].items, k))
  {
  }

  /** Unlike the settings page, a row that is not there is not created: the
      edit throws, where `calChange` would have added the row. */
  lemma EditMissingRowThrows(rows: seq<JsValue>, idx: nat, col: nat, v: JsValue)
    requires idx >= |rows|
    ensures EditedRows(rows, idx, col, v).None?
    ensures Settings.ChangedRows(rows, idx, col, v).Some?
  {
  }

  // ----- row conversion before a save -----

  /** A range row as sent: arrays pass through; objects become
      `[Variabel||variable||'', Kategori||category||'', Min||min||'', Max||max||'']`;
      null or undefined throws. */
  function RangeRow(r: JsValue): (out: Option<JsValue>)
    ensures out.None? <==> IsNullish(r)
    ensures r.Arr? ==> out == Some(r)
    ensures out.Some? && !r.Arr? ==> out.value == Arr([
      Or(Get(r, "Variabel"), Or(Get(r, "variable"), Str(""))),
      Or(Get(r, "Kategori"), Or(Get(r, "category"), Str(""))),
      Or(Get(r, "Min"), Or(Get(r, "min"), Str(""))),
      Or(Get(r, "Max"), Or(Get(r, "max"), Str("")))])
  {
    if r.Arr? then Some(r)
    else if IsNullish(r) then None
    else Some(Arr([
      FirstTruthy(r, ["Variabel", "variable"], Str("")),
      FirstTruthy(r, ["Kategori", "category"], Str("")),
      FirstTruthy(r, ["Min", "min"], Str("")),
      FirstTruthy(r, ["Max", "max"], Str(""))]))
  }

  /** `rangeDefs.map(...)` */
  function RangeRows(rows: seq<JsValue>): Option<seq<JsValue>> {
    MapOrThrow(rows, (_, r) => RangeRow(r), 0)
  }

  /** Conversion keeps the number of rows and passes array rows through;
      object rows become exactly four columns. It fails exactly when some
      row is null or undefined. */
  lemma RangeRowsShape(rows: seq<JsValue>)
    ensures RangeRows(rows).Some? <==> forall i | 0 <= i < |rows| :: !IsNullish(rows[i])
    ensures RangeRows(rows).Some? ==>
      var out := RangeRows(rows).value;
      && |out| == |rows|
      && (forall i | 0 <= i < |rows| && rows[i].Arr? :: out[i] == rows[i])
      && (forall i | 0 <= i < |rows| && !rows[i].Arr? :: out[i].Arr? && |out[i].items| == 4)
  {
    var f := (_, r) => RangeRow(r);
    assert forall i | 0 <= i < |rows| :: f(0 + i, rows[i]) == RangeRow(rows[i]);
  }

  /** A minimum of 0 with no lowercase `min` is sent as '' (the `||` chain
      treats 0 as missing), although the range table displays it as 0. */
  lemma ZeroMinBlankedOnSave(row: map<string, JsValue>)
    requires "Min" in row && row["Min"] == Num(0.0) && "min" !in row
    ensures RangeRow(Obj(row)).value.items[2] == Str("")
    ensures RangeDefinitions.RowCells(0, Obj(row)).value[2] == Num(0.0)
  {
    FirstTruthyWins(Obj(row), ["Min", "min"], Str(""), 2);
  }

  /** A definition that names its variable under `name` (as the range table
      reads it) is saved with an empty variable: the save reads only
      `Variabel` and `variable`. */
  lemma NameKeyBlankedOnSave(row: map<string, JsValue>)
    requires "Variabel" !in row && "variable" !in row
    requires "name" in row && !IsNullish(row["name"])
    ensures RangeRow(Obj(row)).value.items[0] == Str("")
    ensures RangeDefinitions.RowCells(0, Obj(row)).value[0] == row["name"]
  {
    RangeDefinitions.CellsResolve(Obj(row));
  }

  /** The fuzzy row conversion as written: the pH column reads `r.pH` twice,
      so a lowercase `ph` is never consulted. */
  function FuzzyRowAsWritten(r: JsValue): (out: Option<JsValue>)
    ensures out.None? <==> IsNullish(r)
    ensures r.Arr? ==> out == Some(r)
    ensures out.Some? && !r.Arr? ==> out.value == Arr([
      Or(Get(r, "RuleID"), Or(Get(r, "id"), Str(""))),
      Or(Get(r, "Suhu"), Or(Get(r, "suhu"), Str(""))),
      Or(Get(r, "pH"), Str("")),
      Or(Get(r, "TDS"), Or(Get(r, "tds"), Str(""))),
      Or(Get(r, "Aksi Direkomendasikan"), Or(Get(r, "aksi"), Str("")))])
  {
    if r.Arr? then Some(r)
    else if IsNullish(r) then None
    else Some(Arr([
      FirstTruthy(r, ["RuleID", "id"], Str("")),
      FirstTruthy(r, ["Suhu", "suhu"], Str("")),
      FirstTruthy(r, ["pH", "pH"], Str("")),
      FirstTruthy(r, ["TDS", "tds"], Str("")),
      FirstTruthy(r, ["Aksi Direkomendasikan", "aksi"], Str(""))]))
  }

  /** A rule that carries its pH as lowercase `ph` (which the fuzzy-rules
      table displays) loses it when saved as written. */
  lemma LowercasePhLostAsWritten()
    ensures FuzzyRules.RowCells(0, Obj(map["ph" := Num(7.0)])).value[2] == Num(7.0)
    ensures FuzzyRowAsWritten(Obj(map["ph" := Num(7.0)])).value.items[2] == Str("")
  {
    FirstTruthyWins(Obj(map["ph" := Num(7.0)]), ["pH", "pH"], Str(""), 2);
  }

  /** The fuzzy row conversion with the second pH alias read as lowercase
      `ph`, like every other column's capitalised-then-lowercase pair. */
  function FuzzyRow(r: JsValue): (out: Option<JsValue>)
    ensures out.None? <==> IsNullish(r)
    ensures r.Arr? ==> out == Some(r)
    ensures out.Some? && !r.Arr? ==> out.value == Arr([
      Or(Get(r, "RuleID"), Or(Get(r, "id"), Str(""))),
      Or(Get(r, "Suhu"), Or(Get(r, "suhu"), Str(""))),
      Or(Get(r, "pH"), Or(Get(r, "ph"), Str(""))),
      Or(Get(r, "TDS"), Or(Get(r, "tds"), Str(""))),
      Or(Get(r, "Aksi Direkomendasikan"), Or(Get(r, "aksi"), Str("")))])
  {
    if r.Arr? then Some(r)
    else if IsNullish(r) then None
    else Some(Arr([
      FirstTruthy(r, ["RuleID", "id"], Str("")),
      FirstTruthy(r, ["Suhu", "suhu"], Str("")),
      FirstTruthy(r, ["pH", "ph"], Str("")),
      FirstTruthy(r, ["TDS", "tds"], Str("")),
      FirstTruthy(r, ["Aksi Direkomendasikan", "aksi"], Str(""))]))
  }

  /** A rule that names its action under `action` (as the fuzzy-rules table
      reads it) is saved with an empty action, as written and corrected
      alike: the save reads only `Aksi Direkomendasikan` and `aksi`. */
  lemma ActionKeyBlankedOnSave(row: map<string, JsValue>)
    requires "Aksi Direkomendasikan" !in row && "aksi" !in row
    requires "action" in row && !IsNullish(row["action"])
    ensures FuzzyRowAsWritten(Obj(row)).value.items[4] == Str("")
    ensures FuzzyRow(Obj(row)).value.items[4] == Str("")
    ensures FuzzyRules.RowCells(0, Obj(row)).value[4] == row["action"]
  {
    FuzzyRules.ActionAndPhCells(Obj(row));
  }

  /** The corrected pH column takes `pH`, else `ph`, else ''. */
  lemma {:induction false} FuzzyRowReadsEitherPh(r: JsValue)
    requires !IsNullish(r) && !r.Arr?
    ensures FuzzyRow(r).value.items[2] ==
      (if IsTruthy(Get(r, "pH")) then Get(r, "pH")
       else if IsTruthy(Get(r, "ph")) then Get(r, "ph")
       else Str(""))
  {
    var ks := ["pH", "ph"];
    FirstTruthyWins(r, ks, Str(""), 0);
    if IsFalsy(Get(r, "pH")) {
      FirstTruthyWins(r, ks, Str(""), 1);
      if IsFalsy(Get(r, "ph")) {
        FirstTruthyWins(r, ks, Str(""), 2);
      }
    }
  }

  /** The correction changes nothing for rows whose pH is capitalised (or
      that have no truthy lowercase `ph`). */
  lemma {:induction false} CorrectionOnlyAffectsLowercasePh(r: JsValue)
    requires IsTruthy(Get(r, "pH")) || IsFalsy(Get(r, "ph"))
    ensures FuzzyRow(r) == FuzzyRowAsWritten(r)
  {
    if !IsNullish(r) && !r.Arr? {
      FuzzyRowReadsEitherPh(r);
      var ks := ["pH", "pH"];
      FirstTruthyWins(r, ks, Str(""), 0);
      if IsFalsy(Get(r, "pH")) {
        FirstTruthyWins(r, ks, Str(""), 2);
      }
    }
  }

  /** `fuzzy.map(...)`, with the corrected row conversion. */
  function FuzzyRows(rows: seq<JsValue>): Option<seq<JsValue>> {
    MapOrThrow(rows, (_, r) => FuzzyRow(r), 0)
  }

  /** Conversion keeps the number of rows and passes array rows through;
      object rows become exactly five columns. */
  lemma FuzzyRowsShape(rows: seq<JsValue>)
    ensures FuzzyRows(rows).Some? <==> forall i | 0 <= i < |rows| :: !IsNullish(rows[i])
    ensures FuzzyRows(rows).Some? ==>
      var out := FuzzyRows(rows).value;
      && |out| == |rows|
      && (forall i | 0 <= i < |rows| && rows[i].Arr? :: out[i] == rows[i])
      && (forall i | 0 <= i < |rows| && !rows[i].Arr? :: out[i].Arr? && |out[i].items| == 5)
  {
    var f := (_, r) => FuzzyRow(r);
    assert forall i | 0 <= i < |rows| :: f(0 + i, rows[i]) == FuzzyRow(rows[i]);
  }

  // ----- loading and saving -----

  /** What `Promise.all` over the three reads fulfils with. */
  datatype Loaded = Loaded(cal: JsValue, rangeDefs: JsValue, fuzzy: JsValue)

  /** The panel's displayed state (everything but the saving flag). */
  datatype PanelState = PanelState(
    cal: seq<JsValue>, rangeDefs: seq<JsValue>, fuzzy: seq<JsValue>, error: Option<string>)

  /** `loadAll()`: the error is cleared; on success each table becomes its
      result if that is an array and `[]` otherwise; on failure the tables
      stay and the error is shown. */
  function AfterLoad(s: PanelState, loaded: Outcome<Loaded>): (t: PanelState)
    ensures loaded.Ok? ==> t.error == None
    ensures loaded.Ok? ==>
      && (loaded.value.cal.Arr? ==> t.cal == loaded.value.cal.items)
      && (!loaded.value.cal.Arr? ==> t.cal == [])
      && (loaded.value.rangeDefs.Arr? ==> t.rangeDefs == loaded.value.rangeDefs.items)
      && (!loaded.value.rangeDefs.Arr? ==> t.rangeDefs == [])
      && (loaded.value.fuzzy.Arr? ==> t.fuzzy == loaded.value.fuzzy.items)
      && (!loaded.value.fuzzy.Arr? ==> t.fuzzy == [])
    ensures loaded.Err? ==> t.error == Some(MessageOrName(loaded.error))
    ensures loaded.Err? ==> t.cal == s.cal && t.rangeDefs == s.rangeDefs && t.fuzzy == s.fuzzy
  {
    match loaded
    case Ok(l) => PanelState(ItemsOrEmpty(l.cal), ItemsOrEmpty(l.rangeDefs), ItemsOrEmpty(l.fuzzy), None)
    case Err(e) => s.(error := Some(MessageOrName(e)))
  }

  /** A save once the rows are ready: the error is cleared, the update is
      awaited, and only a successful update is followed by a reload. */
  function AfterSave(s: PanelState, updated: Outcome<JsValue>, reload: Outcome<Loaded>): PanelState {
    match updated
    case Err(e) => s.(error := Some(MessageOrName(e)))
    case Ok(_) => AfterLoad(s.(error := None), reload)
  }

  /** A failed update skips the reload: the tables stay as they were, whatever
      the reload would have returned, and the update's error is shown. */
  lemma FailedUpdateSkipsReload(s: PanelState, e: Failure, reload1: Outcome<Loaded>, reload2: Outcome<Loaded>)
    ensures AfterSave(s, Err(e), reload1) == AfterSave(s, Err(e), reload2)
    ensures var t := AfterSave(s, Err(e), reload1);
      t.cal == s.cal && t.rangeDefs == s.rangeDefs && t.fuzzy == s.fuzzy && t.error == Some(MessageOrName(e))
  {
  }

  /** A successful update leaves exactly the state a fresh load would. */
  lemma SuccessfulUpdateReloads(s: PanelState, v: JsValue, reload: Outcome<Loaded>)
    ensures AfterSave(s, Ok(v), reload) == AfterLoad(s, reload)
  {
  }

  /** The error a conversion's TypeError leaves: `err.message || String(err)`. */
  function TypeErrorText(message: string): string {
    MessageOrName(Failure("TypeError", message))
  }

  class Panel {
    var cal: seq<JsValue>
    var rangeDefs: seq<JsValue>
    var fuzzy: seq<JsValue>
    var saving: bool
    var error: Option<string>

    function State(): PanelState
      reads this
    {
      PanelState(cal, rangeDefs, fuzzy, error)
    }

    constructor ()
      ensures State() == PanelState([], [], [], None) && !saving
    {
      cal, rangeDefs, fuzzy := [], [], [];
      saving := false;
      error := None;
    }

    /** `loadAll()`, given what the three reads settled with together. */
    method LoadAll(loaded: Outcome<Loaded>)
      modifies this
      ensures State() == AfterLoad(old(State()), loaded)
      ensures saving == old(saving)
    {
      error := None;
      match loaded {
        case Ok(l) =>
          cal := ItemsOrEmpty(l.cal);
          rangeDefs := ItemsOrEmpty(l.rangeDefs);
          fuzzy := ItemsOrEmpty(l.fuzzy);
        case Err(e) =>
          error := Some(MessageOrName(e));
      }
    }

    /** `updateCalRow(idx, col, value)`: on a throw nothing is stored. */
    method UpdateCalRow(idx: nat, col: nat, value: string) returns (threw: bool)
      modifies this
      ensures threw <==> EditedRows(old(cal), idx, col, Str(value)).None?
      ensures cal == (if threw then old(cal) else EditedRows(old(cal), idx, col, Str(value)).value)
      ensures rangeDefs == old(rangeDefs) && fuzzy == old(fuzzy)
      ensures error == old(error) && saving == old(saving)
    {
      var copy := cal;
      var row := AssignIndex(At(copy, idx), col, Str(value));
      if row.None? {
        return true;
      }
      cal := SetAt(copy, idx, row.value);
      threw := false;
    }

    /** The common tail of the three saves: send `body`, then reload. */
    method SendThenReload(body: SC.FormBody, update: SC.Exchange, reload: Outcome<Loaded>) returns (sent: Option<SC.FormBody>)
      modifies this
      ensures sent == Some(body)
      ensures State() == AfterSave(old(State()), SC.SafeFetch(update), reload)
      ensures saving == old(saving)
    {
      sent := Some(body);
      match SC.SafeFetch(update) {
        case Err(e) =>
          error := Some(MessageOrName(e));
        case Ok(_) =>
          LoadAll(reload);
      }
    }

    /** `saveCalibrations()`: sends the rows as they are, then reloads. */
    method SaveCalibrations(update: SC.Exchange, reload: Outcome<Loaded>) returns (sent: Option<SC.FormBody>)
      modifies this
      ensures sent == Some(SC.UpdateBody(SC.Calibrations, Arr(old(cal))))
      ensures State() == AfterSave(old(State()), SC.SafeFetch(update), reload)
      ensures !saving
    {
      saving := true;
      error := None;
      ghost var start := State();
      sent := SendThenReload(SC.UpdateBody(SC.Calibrations, Arr(cal)), update, reload);
      assert AfterSave(start, SC.SafeFetch(update), reload) == AfterSave(old(State()), SC.SafeFetch(update), reload);
      saving := false;
    }

    /** `saveRangeDefs()`: a null or undefined row makes the conversion throw
        before anything is sent. */
    method SaveRangeDefs(typeErrorMessage: string, update: SC.Exchange, reload: Outcome<Loaded>)
      returns (sent: Option<SC.FormBody>)
      modifies this
      ensures RangeRows(old(rangeDefs)).None? ==>
        sent == None && State() == old(State()).(error := Some(TypeErrorText(typeErrorMessage)))
      ensures RangeRows(old(rangeDefs)).Some? ==>
        && sent == Some(SC.UpdateBody(SC.RangeDefinitions, Arr(RangeRows(old(rangeDefs)).value)))
        && State() == AfterSave(old(State()), SC.SafeFetch(update), reload)
      ensures !saving
    {
      saving := true;
      error := None;
      var rows := RangeRows(rangeDefs);
      if rows.None? {
        error := Some(TypeErrorText(typeErrorMessage));
        sent := None;
      } else {
        ghost var start := State();
        sent := SendThenReload(SC.UpdateBody(SC.RangeDefinitions, Arr(rows.value)), update, reload);
        assert AfterSave(start, SC.SafeFetch(update), reload) == AfterSave(old(State()), SC.SafeFetch(update), reload);
      }
      saving := false;
    }

    /** `saveFuzzy()`, with the corrected pH column. */
    method SaveFuzzy(typeErrorMessage: string, update: SC.Exchange, reload: Outcome<Loaded>)
      returns (sent: Option<SC.FormBody>)
      modifies this
      ensures FuzzyRows(old(fuzzy)).None? ==>
        sent == None && State() == old(State()).(error := Some(TypeErrorText(typeErrorMessage)))
      ensures FuzzyRows(old(fuzzy)).Some? ==>
        && sent == Some(SC.UpdateBody(SC.FuzzyRules, Arr(FuzzyRows(old(fuzzy)).value)))
        && State() == AfterSave(old(State()), SC.SafeFetch(update), reload)
      ensures !saving
    {
      saving := true;
      error := None;
      var rows := FuzzyRows(fuzzy);
      if rows.None? {
        error := Some(TypeErrorText(typeErrorMessage));
        sent := None;
      } else {
        ghost var start := State();
        sent := SendThenReload(SC.UpdateBody(SC.FuzzyRules, Arr(rows.value)), update, reload);
        assert AfterSave(start, SC.SafeFetch(update), reload) == AfterSave(old(State()), SC.SafeFetch(update), reload);
      }
      saving := false;
    }
  }
}
