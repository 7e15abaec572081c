/** The calibration editor of the settings page (src/components/Settings.jsx):
    a table of rows edited cell by cell, with rows added at the end and
    removed by position, saved through the live client behind an
    authentication gate. Rows are whatever the backend returned: normally
    arrays `[Key, Value, Description]`, but any JSON value is possible. */
module Settings {
  import opened Js
  import SC = ScriptClient

  /** The row `calAdd` appends. */
  const BlankRow := Arr([Str(""), Str(""), Str("")])
  const AuthReason := "menyimpan Calibrations"
  const SavedMessage := "Calibrations disimpan"

  /** What `TableEditor` shows in cell `ci` of row `r`: `r[ci] ?? ''`, or
      `None` when the row is null or undefined and rendering throws. */
  function CellDisplay(r: JsValue, ci: nat): (shown: Option<JsValue>)
    ensures shown.None? <==> IsNullish(r)
    ensures shown.Some? ==> !IsNullish(shown.value)
    ensures r.Arr? && ci < |r.items| && !IsNullish(r.items[ci]) ==> shown == Some(r.items[ci])
    ensures r.Arr? && (ci >= |r.items| || IsNullish(r.items[ci])) ==> shown == Some(Str(""))
  {
    match Index(r, ci)
    case None => None
    case Some(cell) => Some(Coalesce(cell, Str("")))
  }

  /** A stored 0 is displayed as 0, not blanked. */
  lemma ZeroCellShown(r: seq<JsValue>, ci: nat)
    requires ci < |r| && r[ci] == Num(0.0)
    ensures CellDisplay(Arr(r), ci) == Some(Num(0.0))
  {
  }

  /** `loadAll`: an array result becomes the rows; anything else, or a failed
      read, leaves no rows. */
  function LoadedRows(fetched: Outcome<JsValue>): (rows: seq<JsValue>)
    ensures fetched.Ok? && fetched.value.Arr? ==> rows == fetched.value.items
    ensures !(fetched.Ok? && fetched.value.Arr?) ==> rows == []
  {
    if fetched.Ok? then ItemsOrEmpty(fetched.value) else []
  }

  /** `calChange(i, ci, val)` on a value: row `i` is replaced by `[]` when it is
      falsy (absent included), then its cell `ci` is set. `None` when the
      row is a truthy primitive, where the assignment throws. */
  function ChangedRows(rows: seq<JsValue>, i: nat, ci: nat, v: JsValue): Option<seq<JsValue>> {
    match AssignIndex(Or(At(rows, i), Arr([])), ci, v)
    case None => None
    case Some(row) => Some(SetAt(rows, i, row))
  }

  /** Editing a cell of an existing array row changes that cell and nothing
      else: the other rows, the row's other cells and the number of rows stay. */
  lemma ChangeArrayRowCell(rows: seq<JsValue>, i: nat, ci: nat, v: JsValue)
    requires i < |rows| && rows[i].Arr?
    ensures ChangedRows(rows, i, ci, v).Some?
    ensures var r := ChangedRows(rows, i, ci, v).value;
      && |r| == |rows|
      && (forall j | 0 <= j < |rows| && j != i :: r[j] == rows[j])
      && r[i].Arr? && |r[i].items| >= |rows[i].items|
      && r[i].items[ci] == v
      && (forall k | 0 <= k < |r[i].items| && k != ci :: r[i].items[k] == At(rows[i].items, k))
  {
    assert IsTruthy(rows[i]);
  }

  /** A falsy row (or one past the end) is created afresh: it holds only the
      new cell, preceded by holes. */
  lemma ChangeCreatesRow(rows: seq<JsValue>, i: nat, ci: nat, v: JsValue)
    requires IsFalsy(At(rows, i))
    ensures ChangedRows(rows, i, ci, v) == Some(SetAt(rows, i, Arr(Holes(ci) + [v])))
  {
    assert SetAt([], ci, v) == Holes(ci) + [v];
  }

  /** A row that is a non-empty string, a non-zero number or `true` cannot
      take a cell: the edit throws and the rows stay as they were. */
  lemma ChangeOnPrimitiveRowThrows(rows: seq<JsValue>, i: nat, ci: nat, v: JsValue)
    requires i < |rows| && IsTruthy(rows[i]) && !rows[i].Arr? && !rows[i].Obj?
    ensures ChangedRows(rows, i, ci, v).None?
  {
  }

  /** `prev.filter((_, idx) => idx !== i)`, walking the rows with their
      positions counted from `base`. */
  function Filtered(rows: seq<JsValue>, i: nat, base: nat): seq<JsValue>
    decreases |rows|
  {
    if rows == [] then []
    else (if base == i then [] else [rows[0]]) + Filtered(rows[1..], i, base + 1)
  }

  /** The filter removes exactly the row at position `i` and keeps the others
      in order; an out-of-range `i` keeps every row. */
  lemma {:induction false} FilteredRemovesOne(rows: seq<JsValue>, i: nat, base: nat)
    ensures Filtered(rows, i, base) ==
      (if base <= i < base + |rows| then rows[..i - base] + rows[i - base + 1..] else rows)
    decreases |rows|
  {
    if rows != [] {
      FilteredRemovesOne(rows[1..], i, base + 1);
      if base == i {
        assert rows[..0] + rows[1..] == rows[1..];
      } else if base < i < base + |rows| {
        assert rows[1..][..i - base - 1] == rows[1..i - base];
        assert [rows[0]] + rows[1..i - base] == rows[..i - base];
        assert rows[1..][i - base - 1 + 1..] == rows[i - base + 1..];
      } else {
        assert [rows[0]] + rows[1..] == rows;
      }
    }
  }

  /** What the page shows after a save attempt. */
  datatype Notice = Quiet | AuthPrompt(reason: string) | Alert(message: string)

  /** The settings page state: the calibration rows and the saving flag. */
  class CalibrationEditor {
    var cal: seq<JsValue>
    var saving: bool

    constructor ()
      ensures cal == [] && !saving
    {
      cal := [];
      saving := false;
    }

    /** `loadAll()`, given what `fetchCalibrations()` settled with. */
    method LoadAll(fetched: Outcome<JsValue>)
      modifies this
      ensures cal == LoadedRows(fetched)
      ensures saving == old(saving)
    {
      if fetched.Ok? && fetched.value.Arr? {
        cal := fetched.value.items;
      } else {
        cal := [];
      }
    }

    /** `calChange(i, ci, val)`: on a throw nothing is stored. */
    method CalChange(i: nat, ci: nat, val: string) returns (threw: bool)
      modifies this
      ensures threw <==> ChangedRows(old(cal), i, ci, Str(val)).None?
      ensures cal == (if threw then old(cal) else ChangedRows(old(cal), i, ci, Str(val)).value)
      ensures saving == old(saving)
    {
      var copy := cal;
      copy := SetAt(copy, i, Or(At(copy, i), Arr([])));
      var row := AssignIndex(copy[i], ci, Str(val));
      if row.None? {
        return true;
      }
      copy := SetAt(copy, i, row.value);
      assert copy == SetAt(cal, i, row.value);
      cal := copy;
      threw := false;
    }

    /** `calAdd()`: one blank row at the end. */
    method CalAdd()
      modifies this
      ensures |cal| == |old(cal)| + 1
      ensures cal[..|old(cal)|] == old(cal) && cal[|old(cal)|] == BlankRow
      ensures saving == old(saving)
    {
      cal := cal + [BlankRow];
    }

    /** `calDelete(i)` */
    method CalDelete(i: nat)
      modifies this
      ensures cal == Filtered(old(cal), i, 0)
      ensures i < |old(cal)| ==> cal == old(cal)[..i] + old(cal)[i + 1..]
      ensures i >= |old(cal)| ==> cal == old(cal)
      ensures saving == old(saving)
    {
      FilteredRemovesOne(cal, i, 0);
      cal := Filtered(cal, i, 0);
    }

    /** `saveCal()`. Unauthenticated, nothing is sent and the page asks for a
        login when it was given a handler; authenticated, the rows are sent
        (the exchange settles as `exchange`) and the result is alerted.
        Returns the body sent, if any. */
    method SaveCal(isAuthenticated: bool, hasAuthHandler: bool, exchange: SC.Exchange)
      returns (sent: Option<SC.FormBody>, notice: Notice)
      modifies this
      ensures !isAuthenticated ==> sent == None && saving == old(saving)
      ensures !isAuthenticated ==> notice == (if hasAuthHandler then AuthPrompt(AuthReason) else Quiet)
      ensures isAuthenticated ==> sent == Some(SC.UpdateBody(SC.Calibrations, Arr(old(cal)))) && !saving
      ensures isAuthenticated ==> notice == (match SC.SafeFetch(exchange)
                                              case Ok(_) => Alert(SavedMessage)
                                              case Err(e) => Alert(MessageOrName(e)))
      ensures cal == old(cal)
    {
      if !isAuthenticated {
        sent := None;
        notice := if hasAuthHandler then AuthPrompt(AuthReason) else Quiet;
        return;
      }
      saving := true;
      sent := Some(SC.UpdateBody(SC.Calibrations, Arr(cal)));
      match SC.SafeFetch(exchange) {
        case Ok(_) => notice := Alert(SavedMessage);
        case Err(e) => notice := Alert(MessageOrName(e));
      }
      saving := false;
    }
  }
}
