/** The branch structure the two read-only table components share
    (src/components/RangeDefinitions.jsx, src/components/FuzzyRules.jsx):
    a loading view first, an empty view for missing or zero-length data,
    otherwise one table row per entry, computed by the component's own cell
    function. Rendering throws when `data.map` is not a function or a row is
    null or undefined. */
module Tables {
  import opened Js

  datatype View = Loading | Empty | Table(rows: seq<seq<JsValue>>) | Throws

  /** `!data || data.length === 0` */
  predicate NoData(data: JsValue) {
    IsFalsy(data) || Get(data, "length") == Num(0.0)
  }

  /** The view a component with cell function `cells` renders. */
  function Render(data: JsValue, isLoading: bool, cells: (nat, JsValue) -> Option<seq<JsValue>>): (v: View)
    ensures isLoading ==> v == Loading
    ensures !isLoading && NoData(data) ==> v == Empty
    ensures !isLoading && !NoData(data) && !data.Arr? ==> v == Throws
    ensures !isLoading && data.Arr? && data.items != [] ==>
      && (v.Table? <==> forall i | 0 <= i < |data.items| :: cells(i, data.items[i]).Some?)
      && (v.Table? ==>
            |v.rows| == |data.items| && forall i | 0 <= i < |data.items| :: v.rows[i] == cells(i, data.items[i]).value)
      && (!v.Table? ==> v == Throws)
  {
    if isLoading then Loading
    else if NoData(data) then Empty
    else if !data.Arr? then Throws
    else match MapOrThrow(data.items, cells, 0)
      case None => Throws
      case Some(rows) => Table(rows)
  }

  /** Missing data and an empty array both give the empty view; an object
      that merely lacks `length`, or a non-empty string, makes `data.map`
      throw. */
  lemma NoDataCases(s: string)
    ensures NoData(Undefined) && NoData(Null) && NoData(Arr([]))
    ensures !NoData(Obj(map[])) && Render(Obj(map[]), false, (_, _) => None) == Throws
    ensures s != [] ==> !NoData(Str(s))
  {
  }
}
