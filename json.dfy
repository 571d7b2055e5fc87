/**
 * Values produced by `JSON.parse`, and the two JavaScript operations the agent
 * loop applies to them: reading a property, and converting a value to a string
 * (as a property key or inside a template literal).
 */
module Json {
  import Text

  /**
   * A parsed JSON value. Objects are maps: `JSON.parse` keeps the last of two
   * equal keys, and key order matters nowhere in the model. Numbers are integers.
   */
  datatype Json =
    | JNull
    | JBool(b: bool)
    | JNum(n: int)
    | JStr(s: string)
    | JArr(items: seq<Json>)
    | JObj(fields: map<string, Json>)

  /** What a property read yields: JavaScript's `undefined`, or a JSON value. */
  datatype JsValue = Undefined | Defined(json: Json)

  /** The outcome of evaluating `v.key`: a value, or a thrown TypeError. */
  datatype Access = Read(value: JsValue) | TypeError

  /**
   * `v.key` on a parsed value. Reading a property of `null` throws; an object
   * yields its own property or `undefined`; any other value yields `undefined`
   * for the keys the loop reads ("type", "output", "function", "input"), none of
   * which is an inherited member of a built-in prototype.
   */
  function Property(v: Json, key: string): (a: Access)
    ensures a.TypeError? <==> v.JNull?
    ensures v.JObj? ==> a == Read(if key in v.fields then Defined(v.fields[key]) else Undefined)
    ensures !v.JNull? && !v.JObj? ==> a == Read(Undefined)
  {
    match v
    case JNull => TypeError
    case JObj(m) => Read(if key in m then Defined(m[key]) else Undefined)
    case _ => Read(Undefined)
  }

  /**
   * `String(v)` for a parsed value: arrays join their elements with ",",
   * rendering `null` elements as the empty string, and every object is
   * "[object Object]". A number reads back as itself: its decimal digits,
   * after a '-' exactly when it is negative.
   */
  function ToJsString(v: Json): (s: string)
    ensures v.JStr? ==> s == v.s
    ensures v.JNum? ==> |s| >= 1 && (v.n < 0 <==> s[0] == '-')
    ensures v.JNum? && v.n >= 0 ==>
      (forall k :: 0 <= k < |s| ==> Text.IsDigit(s[k])) && Text.DigitsValue(s) == v.n
    ensures v.JNum? && v.n < 0 ==>
      (forall k :: 1 <= k < |s| ==> Text.IsDigit(s[k])) && Text.DigitsValue(s[1..]) == -v.n
    decreases v
  {
    match v
    case JNull => "null"
    case JBool(b) => if b then "true" else "false"
    case JNum(n) =>
      Text.NatToStringRoundTrip(if n < 0 then -n else n);
      Text.IntToString(n)
    case JStr(s) => s
    case JArr(items) => JoinElements(items, v)
    case JObj(_) => "[object Object]"
  }

  /** `items.join(",")`, where `whole` is the array the items belong to. */
  function JoinElements(items: seq<Json>, ghost whole: Json): string
    requires whole.JArr? && items <= whole.items
    decreases whole, |items|
  {
    if items == [] then ""
    else
      var last := items[|items| - 1];
      assert last in whole.items;
      var first := if last.JNull? then "" else ToJsString(last);
      var init := items[..|items| - 1];
      if init == [] then first else JoinElements(init, whole) + "," + first
  }

  /** `String(x)` for the result of a property read; `undefined` reads "undefined". */
  function KeyString(x: JsValue): (s: string)
    ensures x.Defined? && x.json.JStr? ==> s == x.json.s
    ensures x.Undefined? ==> s == "undefined"
  {
    match x
    case Undefined => "undefined"
    case Defined(v) => ToJsString(v)
  }
}
