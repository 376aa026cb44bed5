/** JSON-like Python values: what `json.loads` yields and what the dicts of the system hold. */
module Json {
  import opened Wrappers
  import Text

  datatype Value =
    | Null
    | Bool(b: bool)
    | Num(n: real)
    | Str(s: string)
    | Arr(items: seq<Value>)
    | Obj(fields: map<string, Value>)

  type Object = map<string, Value>

  /** Python truthiness of a value (`if v:`). */
  predicate Truthy(v: Value) {
    match v
    case Null => false
    case Bool(b) => b
    case Num(n) => n != 0.0
    case Str(s) => |s| > 0
    case Arr(a) => |a| > 0
    case Obj(m) => |m| > 0
  }

  /** A value Python can order against a number (`v > 0`, `max(v, 60)`): a number or a boolean. */
  predicate Numeric(v: Value) { v.Num? || v.Bool? }

  /** `d.get(key, default)`. */
  function Get(d: Object, key: string, default: Value): (r: Value)
    ensures key in d ==> r == d[key]
    ensures key !in d ==> r == default
  {
    if key in d then d[key] else default
  }

  /** A list of strings as a JSON array. */
  function Strs(xs: seq<string>): (r: Value)
    ensures r.Arr? && |r.items| == |xs|
    ensures forall i :: 0 <= i < |xs| ==> r.items[i] == Str(xs[i])
  {
    Arr(seq(|xs|, i requires 0 <= i < |xs| => Str(xs[i])))
  }

  /** Reading back a JSON array of strings; None when it is not one. */
  function AsStrings(v: Value): (r: Option<seq<string>>)
    ensures r.Some? <==> v.Arr? && forall i :: 0 <= i < |v.items| ==> v.items[i].Str?
    ensures r.Some? ==> |r.value| == |v.items| && forall i :: 0 <= i < |v.items| ==> r.value[i] == v.items[i].s
    ensures r.Some? ==> Strs(r.value) == v
  {
    if v.Arr? && forall i :: 0 <= i < |v.items| ==> v.items[i].Str? then
      var xs := seq(|v.items|, i requires 0 <= i < |v.items| => v.items[i].s);
      assert Strs(xs).items == v.items;
      Some(xs)
    else None
  }

  lemma StringsRoundTrip(xs: seq<string>)
    ensures AsStrings(Strs(xs)) == Some(xs)
  {
    var v := Strs(xs);
    assert forall i :: 0 <= i < |v.items| ==> v.items[i].Str?;
    var ys := AsStrings(v).value;
    assert |ys| == |xs| && forall i :: 0 <= i < |xs| ==> ys[i] == v.items[i].s == xs[i];
    assert ys == xs;
  }

  /** `str(v)` for the values whose rendering the model fixes; `show` renders the rest
      (numbers, lists and dicts, whose float formatting is not modelled). */
  function Render(v: Value, show: Value -> string): (r: string)
    ensures v.Str? ==> r == v.s
    ensures v.Null? ==> r == "None"
  {
    match v
    case Str(s) => s
    case Null => "None"
    case Bool(b) => if b then "True" else "False"
    case _ => show(v)
  }

  /** `float(v)` for a JSON value: numbers and booleans convert, strings are parsed as
      numerals, everything else raises. */
  function ToFloat(v: Value): (r: Option<real>)
    ensures v.Num? ==> r == Some(v.n)
    ensures v.Str? ==> r == Text.ParseFloat(v.s)
    ensures r.Some? ==> v.Num? || v.Bool? || v.Str?
  {
    match v
    case Num(n) => Some(n)
    case Bool(b) => Some(if b then 1.0 else 0.0)
    case Str(s) => Text.ParseFloat(s)
    case _ => None
  }
}
