/** The range-definitions table (src/components/RangeDefinitions.jsx): one row
    per entry, each cell the first present alias or '-'. */
module RangeDefinitions {
  import opened Js
  import Tables

  const Dash := Str("-")
  const VariableAliases: seq<string> := ["Variabel", "name", "name_var"]
  const CategoryAliases: seq<string> := ["Kategori", "category"]
  const MinAliases: seq<string> := ["Min", "min"]
  const MaxAliases: seq<string> := ["Max", "max"]

  /** The four cells of a row; `None` when the row is null or undefined and
      reading its first property throws. */
  function RowCells(idx: nat, row: JsValue): (cells: Option<seq<JsValue>>)
    ensures cells.None? <==> IsNullish(row)
    ensures cells.Some? ==> |cells.value| == 4 && forall k | 0 <= k < 4 :: !IsNullish(cells.value[k])
  {
    if IsNullish(row) then None
    else Some([
      FirstNonNullish(row, VariableAliases, Dash),
      FirstNonNullish(row, CategoryAliases, Dash),
      FirstNonNullish(row, MinAliases, Dash),
      FirstNonNullish(row, MaxAliases, Dash)])
  }

  /** The first-alias-wins rule of every cell: the capitalised key first, then
      the lowercase one (for the variable: `name`, then `name_var`), then '-'. */
  lemma {:induction false} CellsResolve(row: JsValue)
    requires !IsNullish(row)
    ensures var c := RowCells(0, row).value;
      && c[0] == (if !IsNullish(Get(row, "Variabel")) then Get(row, "Variabel")
                  else if !IsNullish(Get(row, "name")) then Get(row, "name")
                  else if !IsNullish(Get(row, "name_var")) then Get(row, "name_var")
                  else Dash)
      && c[1] == (if !IsNullish(Get(row, "Kategori")) then Get(row, "Kategori")
                  else if !IsNullish(Get(row, "category")) then Get(row, "category") else Dash)
      && c[2] == (if !IsNullish(Get(row, "Min")) then Get(row, "Min")
                  else if !IsNullish(Get(row, "min")) then Get(row, "min") else Dash)
      && c[3] == (if !IsNullish(Get(row, "Max")) then Get(row, "Max")
                  else if !IsNullish(Get(row, "max")) then Get(row, "max") else Dash)
  {
    var ks := VariableAliases;
    assert FirstNonNullish(row, ks, Dash) == Coalesce(Get(row, ks[0]), FirstNonNullish(row, ks[1..], Dash));
    assert FirstNonNullish(row, ks[1..], Dash) == Coalesce(Get(row, ks[1]), FirstNonNullish(row, ks[2..], Dash));
    assert FirstNonNullish(row, ks[2..], Dash) == Coalesce(Get(row, ks[2]), FirstNonNullish(row, ks[3..], Dash));
    assert ks[3..] == [];
  }

  /** A minimum of 0 is shown as 0: the `??` chain keeps it. */
  lemma ZeroMinShown(row: map<string, JsValue>)
    requires "Min" in row && row["Min"] == Num(0.0)
    ensures RowCells(0, Obj(row)).value[2] == Num(0.0)
  {
  }

  /** The component's view. */
  function View(data: JsValue, isLoading: bool): (v: Tables.View)
    ensures isLoading ==> v == Tables.Loading
    ensures !isLoading && Tables.NoData(data) ==> v == Tables.Empty
    ensures !isLoading && !Tables.NoData(data) && !data.Arr? ==> v == Tables.Throws
    ensures !isLoading && data.Arr? && data.items != [] ==>
      && (v.Table? <==> forall i | 0 <= i < |data.items| :: !IsNullish(data.items[i]))
      && (v.Table? ==>
            |v.rows| == |data.items| && forall i | 0 <= i < |data.items| :: v.rows[i] == RowCells(i, data.items[i]).value)
      && (!v.Table? ==> v == Tables.Throws)
  {
    Tables.Render(data, isLoading, RowCells)
  }

  /** Rows appear in input order: swapping two entries swaps their rows. */
  lemma {:induction false} RowsFollowEntries(items: seq<JsValue>, i: nat, j: nat)
    requires i < |items| && j < |items|
    requires View(Arr(items), false).Table?
    ensures var swapped := items[i := items[j]][j := items[i]];
      && View(Arr(swapped), false).Table?
      && View(Arr(swapped), false).rows[i] == View(Arr(items), false).rows[j]
      && View(Arr(swapped), false).rows[j] == View(Arr(items), false).rows[i]
  {
    var swapped := items[i := items[j]][j := items[i]];
    assert items != [];
    assert forall k | 0 <= k < |swapped| :: swapped[k] in items;
    assert forall k | 0 <= k < |items| :: !IsNullish(items[k]);
    assert forall k | 0 <= k < |swapped| :: !IsNullish(swapped[k]);
  }
}
