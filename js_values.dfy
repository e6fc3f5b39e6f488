/** JavaScript values as the bot sees them after `JSON.parse`, with the three
    pieces of JavaScript semantics the classification relies on: truthiness,
    property reads and conversion to a string (`String(v)`, template literals
    and `Array.prototype.join`). */
module JsValues {
  import opened Wrappers

  /** A JSON value. Numbers are modelled as integers; objects as maps, so a
      duplicated key keeps one value, as `JSON.parse` keeps the last one. */
  datatype Json =
    | JNull
    | JBool(b: bool)
    | JNum(n: int)
    | JStr(s: string)
    | JArr(items: seq<Json>)
    | JObj(fields: map<string, Json>)

  /** The result of a property read: `None` is `undefined`. */
  type Value = Option<Json>

  /** JavaScript truthiness of a JSON value: `null`, `false`, `0` and `""`
      are falsy; every array and every object is truthy. */
  predicate Truthy(v: Json)
    ensures Truthy(v) <==> v != JNull && v != JBool(false) && v != JNum(0) && v != JStr("")
  {
    match v
    case JNull => false
    case JBool(b) => b
    case JNum(n) => n != 0
    case JStr(s) => s != ""
    case JArr(_) => true
    case JObj(_) => true
  }

  /** Truthiness of a property read; `undefined` is falsy. */
  predicate TruthyValue(v: Value)
    ensures TruthyValue(v) <==>
      v != None && v != Some(JNull) && v != Some(JBool(false)) && v != Some(JNum(0)) && v != Some(JStr(""))
  {
    v.Some? && Truthy(v.value)
  }

  /** Reading a property of a value that is not `null` (reading one of `null`
      throws). Arrays and strings have a `length`; objects have their own
      keys; booleans and numbers have none of the keys the bot reads. */
  function Property(v: Json, key: string): (r: Value)
    requires !v.JNull?
    ensures v.JObj? ==> (r.Some? <==> key in v.fields)
    ensures r.Some? && v.JObj? ==> r.value == v.fields[key]
    ensures (v.JBool? || v.JNum?) ==> r.None?
    ensures v.JArr? ==> r == (if key == "length" then Some(JNum(|v.items|)) else None)
    ensures v.JStr? ==> r == (if key == "length" then Some(JNum(|v.s|)) else None)
  {
    match v
    case JObj(fields) => if key in fields then Some(fields[key]) else None
    case JArr(items) => if key == "length" then Some(JNum(|items|)) else None
    case JStr(s) => if key == "length" then Some(JNum(|s|)) else None
    case _ => None
  }

  /** Joining strings with a separator between neighbours, as
      `Array.prototype.join` does. */
  function Join(parts: seq<string>, sep: string): (r: string)
    ensures |parts| == 0 ==> r == ""
    ensures |parts| == 1 ==> r == parts[0]
  {
    if |parts| == 0 then ""
    else if |parts| == 1 then parts[0]
    else parts[0] + sep + Join(parts[1..], sep)
  }

  /** Adding a part at the end adds the separator and that part. */
  lemma {:induction false} JoinAppend(parts: seq<string>, x: string, sep: string)
    requires |parts| > 0
    ensures Join(parts + [x], sep) == Join(parts, sep) + sep + x
    decreases |parts|
  {
    if |parts| > 1 {
      assert (parts + [x])[1..] == parts[1..] + [x];
      JoinAppend(parts[1..], x, sep);
    }
  }

  function DigitChar(d: nat): (c: char)
    requires d < 10
    ensures '0' <= c <= '9'
    ensures c as int - '0' as int == d
  {
    (d + '0' as int) as char
  }

  /** The number a string of decimal digits denotes, most significant first. */
  function DecimalValue(s: string): (n: nat)
    requires forall i :: 0 <= i < |s| ==> '0' <= s[i] <= '9'
  {
    if |s| == 0 then 0 else DecimalValue(s[..|s| - 1]) * 10 + (s[|s| - 1] as int - '0' as int)
  }

  /** The decimal digits of a natural number: they denote the number, and
      there is no leading zero. */
  function NatToDecimal(n: nat): (r: string)
    ensures |r| > 0
    ensures forall i :: 0 <= i < |r| ==> '0' <= r[i] <= '9'
    ensures DecimalValue(r) == n
    ensures r[0] == '0' <==> n == 0
    ensures n == 0 ==> r == "0"
    decreases n
  {
    if n < 10 then [DigitChar(n)]
    else
      var r := NatToDecimal(n / 10) + [DigitChar(n % 10)];
      assert r[..|r| - 1] == NatToDecimal(n / 10);
      r
  }

  /** How `String` prints an integer: optional '-', then the digits of its
      magnitude, never "-0". */
  function IntToDecimal(n: int): (r: string)
    ensures |r| > 0
    ensures (r[0] == '-') <==> n < 0
    ensures n >= 0 ==> r == NatToDecimal(n)
    ensures n < 0 ==> |r| >= 2 && r[1..] == NatToDecimal(-n) && r[1] != '0'
  {
    if n < 0 then "-" + NatToDecimal(-n) else NatToDecimal(n)
  }

  /** How `Array.prototype.join` renders one element: `null` and `undefined`
      become the empty string, anything else is converted with `String`. */
  function JoinText(v: Value): (r: string)
    ensures v.None? || v == Some(JNull) ==> r == ""
    ensures v.Some? && !v.value.JNull? ==> r == JsString(v.value)
  {
    match v
    case None => ""
    case Some(j) => ItemText(j)
  }

  /** `JoinText` of an element that is defined. */
  function ItemText(v: Json): (r: string)
    decreases v, 1
  {
    if v.JNull? then "" else JsString(v)
  }

  /** `String(v)`: numbers in decimal, strings as they are, arrays as their
      elements joined with ",", objects as "[object Object]". */
  function JsString(v: Json): (r: string)
    ensures v.JNull? ==> r == "null"
    ensures v.JBool? ==> r == (if v.b then "true" else "false")
    ensures v.JNum? ==> r == IntToDecimal(v.n)
    ensures v.JStr? ==> r == v.s
    ensures v.JArr? ==> r == Join(seq(|v.items|, i requires 0 <= i < |v.items| => ItemText(v.items[i])), ",")
    ensures v.JObj? ==> r == "[object Object]"
    decreases v, 0
  {
    match v
    case JNull => "null"
    case JBool(b) => if b then "true" else "false"
    case JNum(n) => IntToDecimal(n)
    case JStr(s) => s
    case JArr(items) => Join(seq(|items|, i requires 0 <= i < |items| => ItemText(items[i])), ",")
    case JObj(_) => "[object Object]"
  }

}
