/**
 * The data a template is rendered against: JSON-like values, JavaScript's
 * optional-chaining property read `v?.[key]`, and `String(v)`.
 */
module Values {
  import opened Strings

  /** Numbers are integers here; JavaScript's floating point is not modelled. */
  datatype Value =
    | Undefined
    | Null
    | Bool(b: bool)
    | Num(n: int)
    | Str(s: string)
    | Arr(items: seq<Value>)
    | Obj(fields: map<string, Value>)

  /** `v == null` in JavaScript: `null` or `undefined`. */
  predicate IsNullish(v: Value) {
    v.Undefined? || v.Null?
  }

  /** A canonical array index: a decimal numeral without leading zeros. */
  predicate IsIndexKey(key: string) {
    |key| >= 1 && AllDigits(key) && (|key| == 1 || key[0] != '0')
  }

  /**
   * `v?.[key]`: a nullish value short-circuits to `undefined`; objects read
   * their own field; arrays and strings answer `length` and their canonical
   * indices; anything else reads as `undefined`.
   */
  function Get(v: Value, key: string): Value {
    match v
    case Obj(m) => if key in m then m[key] else Undefined
    case Arr(items) =>
      if key == "length" then Num(|items|)
      else if IsIndexKey(key) && ParseDigits(key) < |items| then items[ParseDigits(key)]
      else Undefined
    case Str(s) =>
      if key == "length" then Num(|s|)
      else if IsIndexKey(key) && ParseDigits(key) < |s| then Str([s[ParseDigits(key)]])
      else Undefined
    case _ => Undefined
  }

  /** The printed index `i` reads element `i` of an array. */
  lemma GetIndex(items: seq<Value>, i: nat)
    requires i < |items|
    ensures Get(Arr(items), NatToString(i)) == items[i]
  {
    var k := NatToString(i);
    ParseNatToString(i);
    if |k| > 1 && k[0] == '0' {
      assert i == 0;
    }
  }

  /** `String(n)` for an integer. */
  function IntToString(n: int): (r: string)
    ensures |r| >= 1
  {
    if n < 0 then "-" + NatToString(-n) else NatToString(n)
  }

  /**
   * `String(v)`. An array prints its elements joined with commas, with
   * `null` and `undefined` elements printed as nothing.
   */
  function ToStr(v: Value): string
    decreases v
  {
    match v
    case Undefined => "undefined"
    case Null => "null"
    case Bool(b) => if b then "true" else "false"
    case Num(n) => IntToString(n)
    case Str(s) => s
    case Arr(items) => JoinElements(items)
    case Obj(_) => "[object Object]"
  }

  function JoinElements(items: seq<Value>): string
    decreases items
  {
    if items == [] then ""
    else
      var first := if IsNullish(items[0]) then "" else ToStr(items[0]);
      if |items| == 1 then first else first + "," + JoinElements(items[1..])
  }
}
