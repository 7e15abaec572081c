/** The status badge of a sensor card (src/components/SensorCard.jsx): the
    colour looked up by the lower-cased text of the status, and the badge
    text. The lookup table is a plain object, so the two lower-case names it
    inherits from `Object.prototype` also find something. */
module SensorCard {
  import opened Js
  import Sensors

  datatype Color = Green | Yellow | Red | Gray | Inherited(name: string)

  /** `statusColorMap[key] || 'bg-gray-500'` */
  function Lookup(key: string): (c: Color)
    ensures c == Green <==> key in {"ideal", "optimal"}
    ensures c == Yellow <==> key in {"panas", "dingin", "asam", "basa", "tinggi", "rendah"}
    ensures c == Red <==> key == "critical"
    ensures c.Inherited? <==> key in {"constructor", "__proto__"}
  {
    if key == "ideal" || key == "optimal" then Green
    else if key in {"panas", "dingin", "asam", "basa", "tinggi", "rendah"} then Yellow
    else if key == "critical" then Red
    else if key == "constructor" || key == "__proto__" then Inherited(key)
    else Gray
  }

  /** `String(status).toLowerCase()`, where it can matter: `None` when the text
      cannot be a key of the table (a number's digits, or an array of several
      elements, whose text contains a comma). */
  function ColorKey(status: JsValue): Option<string>
    decreases status
  {
    match status
    case Str(s) => Some(ToLower(s))
    case Undefined => Some("undefined")
    case Null => Some("null")
    case Bool(b) => Some(if b then "true" else "false")
    case NaN => Some("nan")
    case Num(_) => None
    case Obj(_) => Some("[object object]")
    case Arr(items) =>
      if |items| == 0 then Some("")
      else if |items| == 1 then (if IsNullish(items[0]) then Some("") else ColorKey(items[0]))
      else None
  }

  function StatusColor(status: JsValue): Color {
    match ColorKey(status)
    case None => Gray
    case Some(key) => Lookup(key)
  }

  lemma {:induction false} ToLowerIdempotent(s: string)
    ensures ToLower(ToLower(s)) == ToLower(s)
  {
    forall i | 0 <= i < |s| ensures ToLower(ToLower(s))[i] == ToLower(s)[i] {
      assert LowerChar(LowerChar(s[i])) == LowerChar(s[i]);
    }
  }

  /** The lookup ignores case: a status and its lower-cased text get the same
      colour. */
  lemma CaseInsensitive(s: string)
    ensures StatusColor(Str(s)) == StatusColor(Str(ToLower(s)))
  {
    ToLowerIdempotent(s);
  }

  /** The listed statuses, in any case, get their colours; a one-element
      array is looked up by its element. */
  lemma ListedColorsAnyCase()
    ensures StatusColor(Str("Ideal")) == Green && StatusColor(Str("OPTIMAL")) == Green
    ensures StatusColor(Str("Panas")) == Yellow && StatusColor(Str("rendah")) == Yellow
    ensures StatusColor(Str("CRITICAL")) == Red
    ensures StatusColor(Arr([Str("Ideal")])) == Green
  {
    assert ToLower("Ideal") == "ideal";
    assert ToLower("OPTIMAL") == "optimal";
    assert ToLower("Panas") == "panas";
    assert ToLower("rendah") == "rendah";
    assert ToLower("CRITICAL") == "critical";
  }

  /** An unlisted status, a number, null and a plain object are gray. */
  lemma UnlistedIsGray()
    ensures StatusColor(Str("unknown")) == Gray && StatusColor(Num(7.0)) == Gray
    ensures StatusColor(Null) == Gray && StatusColor(Obj(map[])) == Gray
  {
    assert ToLower("unknown") == "unknown";
  }

  /** A status spelling an inherited member, in any case, finds that member
      instead of falling back to gray. */
  lemma InheritedNameFound()
    ensures StatusColor(Str("Constructor")) == Inherited("constructor")
  {
    assert ToLower("Constructor") == "constructor";
  }

  /** The classifier and the badge agree: every status the classifier gives
      for temperature, pH or TDS is coloured, and only `unknown` is gray. */
  lemma ClassifierStatusesAreColored(sensor: string, value: Option<real>)
    ensures var status := Sensors.GetStatusSensor(sensor, value);
      StatusColor(Str(status)) != Gray <==> sensor in {"suhu", "ph", "tds"}
  {
    var status := Sensors.GetStatusSensor(sensor, value);
    assert ToLower(status) == status by {
      assert forall i | 0 <= i < |status| :: !('A' <= status[i] <= 'Z');
    }
  }

  /** `status || 'N/A'` */
  function BadgeText(status: JsValue): (text: JsValue)
    ensures IsFalsy(status) ==> text == Str("N/A")
    ensures IsTruthy(status) ==> text == status
  {
    Or(status, Str("N/A"))
  }
}
