/** The fuzzy-rules table (src/components/FuzzyRules.jsx): one row per rule,
    the rule id defaulting to the 1-based position, each other cell the first
    present alias or '-'. */
module FuzzyRules {
  import opened Js
  import Tables

  const Dash := Str("-")
  const IdAliases: seq<string> := ["RuleID", "id"]
  const SuhuAliases: seq<string> := ["Suhu", "suhu"]
  const PhAliases: seq<string> := ["pH", "ph"]
  const TdsAliases: seq<string> := ["TDS", "tds"]
  const ActionAliases: seq<string> := ["Aksi Direkomendasikan", "action", "aksi"]

  /** The five cells of the row at position `idx`; `None` when the row is null
      or undefined and reading its first property throws. */
  function RowCells(idx: nat, row: JsValue): (cells: Option<seq<JsValue>>)
    ensures cells.None? <==> IsNullish(row)
    ensures cells.Some? ==> |cells.value| == 5 && forall k | 0 <= k < 5 :: !IsNullish(cells.value[k])
  {
    if IsNullish(row) then None
    else Some([
      FirstNonNullish(row, IdAliases, Num((idx + 1) as real)),
      FirstNonNullish(row, SuhuAliases, Dash),
      FirstNonNullish(row, PhAliases, Dash),
      FirstNonNullish(row, TdsAliases, Dash),
      FirstNonNullish(row, ActionAliases, Dash)])
  }

  /** A rule with neither `RuleID` nor `id` is numbered by its 1-based
      position; a present id, 0 included, is kept. */
  lemma {:induction false} RuleIdDefaultsToPosition(idx: nat, row: JsValue)
    requires !IsNullish(row)
    ensures !IsNullish(Get(row, "RuleID")) ==> RowCells(idx, row).value[0] == Get(row, "RuleID")
    ensures IsNullish(Get(row, "RuleID")) && !IsNullish(Get(row, "id")) ==> RowCells(idx, row).value[0] == Get(row, "id")
    ensures IsNullish(Get(row, "RuleID")) && IsNullish(Get(row, "id")) ==> RowCells(idx, row).value[0] == Num((idx + 1) as real)
  {
    var fallback := Num((idx + 1) as real);
    FirstNonNullishWins(row, IdAliases, fallback, 0);
    if IsNullish(Get(row, "RuleID")) {
      FirstNonNullishWins(row, IdAliases, fallback, 1);
      if IsNullish(Get(row, "id")) {
        FirstNonNullishWins(row, IdAliases, fallback, 2);
      }
    }
  }

  /** The action cell checks 'Aksi Direkomendasikan', then `action`, then
      `aksi`; the pH cell reads `pH`, then lowercase `ph`. */
  lemma {:induction false} ActionAndPhCells(row: JsValue)
    requires !IsNullish(row)
    ensures RowCells(0, row).value[4] ==
      (if !IsNullish(Get(row, "Aksi Direkomendasikan")) then Get(row, "Aksi Direkomendasikan")
       else if !IsNullish(Get(row, "action")) then Get(row, "action")
       else if !IsNullish(Get(row, "aksi")) then Get(row, "aksi")
       else Dash)
    ensures RowCells(0, row).value[2] ==
      (if !IsNullish(Get(row, "pH")) then Get(row, "pH")
       else if !IsNullish(Get(row, "ph")) then Get(row, "ph")
       else Dash)
  {
    var ks := ActionAliases;
    assert FirstNonNullish(row, ks, Dash) == Coalesce(Get(row, ks[0]), FirstNonNullish(row, ks[1..], Dash));
    assert FirstNonNullish(row, ks[1..], Dash) == Coalesce(Get(row, ks[1]), FirstNonNullish(row, ks[2..], Dash));
    assert FirstNonNullish(row, ks[2..], Dash) == Coalesce(Get(row, ks[2]), FirstNonNullish(row, ks[3..], Dash));
    assert ks[3..] == [];
    var ps := PhAliases;
    assert FirstNonNullish(row, ps, Dash) == Coalesce(Get(row, ps[0]), FirstNonNullish(row, ps[1..], Dash));
    assert FirstNonNullish(row, ps[1..], Dash) == Coalesce(Get(row, ps[1]), FirstNonNullish(row, ps[2..], Dash));
    assert ps[2..] == [];
  }

  /** The component's view. */
  function View(data: JsValue, isLoading: bool): (v: Tables.View)
    ensures isLoading ==> v == Tables.Loading
    ensures !isLoading && Tables.NoData(data) ==> v == Tables.Empty
    ensures !isLoading && !Tables.NoData(data) && !data.Arr? ==> v == Tables.Throws
    ensures !isLoading && data.Arr? && data.items != [] ==>
      && (v.Table? <==> forall i | 0 <= i < |data.items| :: !IsNullish(data.items[i]))
      && (v.Table? ==>
            |v.rows| == |data.items| && forall i | 0 <= i < |data.items| :: v.rows[i] == RowCells(i, data.items[i]).value)
      && (!v.Table? ==> v == Tables.Throws)
  {
    Tables.Render(data, isLoading, RowCells)
  }

  /** Rules without ids are numbered 1, 2, 3, ... down the table. */
  lemma RowsNumberedByPosition(items: seq<JsValue>)
    requires items != []
    requires forall i | 0 <= i < |items| :: items[i].Obj? && "RuleID" !in items[i].props && "id" !in items[i].props
    ensures View(Arr(items), false).Table?
    ensures forall i | 0 <= i < |items| :: View(Arr(items), false).rows[i][0] == Num((i + 1) as real)
  {
    forall i | 0 <= i < |items|
      ensures RowCells(i, items[i]).value[0] == Num((i + 1) as real)
    {
      RuleIdDefaultsToPosition(i, items[i]);
    }
  }
}
