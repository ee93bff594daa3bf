/**
 * Request bodies as the route handlers see them after `request.json()`:
 * JSON values with JavaScript's truthiness, property access and the
 * conversions the handlers apply (`parseInt`, template-literal text).
 */
module Json {
  import opened Wrappers
  import Text

  /** A JSON value; numbers are integers in this model. */
  datatype Value =
    | Undefined
    | Null
    | Bool(b: bool)
    | Num(n: int)
    | Str(s: string)
    | Arr(items: seq<Value>)
    | Obj(fields: map<string, Value>)

  /** A request body: the top-level JSON object. */
  type Body = map<string, Value>

  /** JavaScript's falsy values: undefined, null, false, 0 and the empty string. */
  predicate Falsy(v: Value) {
    v == Undefined || v == Null || v == Bool(false) || v == Num(0) || v == Str("")
  }

  predicate Truthy(v: Value) {
    !Falsy(v)
  }

  /** Property access `body.key`: a missing property reads as `undefined`. */
  function Field(body: Body, key: string): Value {
    if key in body then body[key] else Undefined
  }

  /** The string a value holds, if it is a string. */
  function AsString(v: Value): Option<string> {
    if v.Str? then Some(v.s) else None
  }

  /** The string held by property `key` of the body, if it is a string. */
  function StringField(body: Body, key: string): (r: Option<string>)
    ensures r.Some? <==> Field(body, key).Str?
    ensures r.Some? ==> Field(body, key) == Str(r.value)
  {
    AsString(Field(body, key))
  }

  /**
   * `parseInt(v)`: a number is its own value; any other value is converted
   * to text first (`String(v)`) and that text parsed, so an array such as
   * `[3]` reads as 3 while `undefined`, `null`, booleans and objects read
   * as NaN (None).
   */
  function ParseIntValue(v: Value): (r: Option<int>)
    ensures v.Num? ==> r == Some(v.n)
    ensures v.Str? ==> r == Text.ParseInt(v.s)
    ensures v.Undefined? || v.Null? || v.Bool? || v.Obj? ==> r == None
  {
    match v
    case Num(n) => Some(n)
    case Str(s) => Text.ParseInt(s)
    case Arr(_) => Text.ParseInt(ToText(v))
    case Undefined => assert !Text.IsDigit("undefined"[0]); Text.ParseInt(ToText(v))
    case Null => assert !Text.IsDigit("null"[0]); Text.ParseInt(ToText(v))
    case Bool(_) => assert !Text.IsDigit("true"[0]) && !Text.IsDigit("false"[0]); Text.ParseInt(ToText(v))
    case Obj(_) => assert !Text.IsDigit("[object Object]"[0]); Text.ParseInt(ToText(v))
  }

  /**
   * `Number(v)`, the coercion `v - 1` applies to an operand: None stands for
   * NaN. Text (and an array, through its text) is trimmed, empty text is 0,
   * and otherwise it must be a decimal integer.
   */
  function ToNumber(v: Value): (r: Option<int>)
    ensures v.Num? ==> r == Some(v.n)
    ensures v == Null || v == Bool(false) || v == Str("") ==> r == Some(0)
    ensures v == Bool(true) ==> r == Some(1)
    ensures v == Undefined || v.Obj? ==> r == None
    ensures v.Str? && r.Some? ==> Text.Trim(v.s) == [] || Text.ParseInt(Text.Trim(v.s)) == r
  {
    match v
    case Undefined => None
    case Null => Some(0)
    case Bool(b) => Some(if b then 1 else 0)
    case Num(n) => Some(n)
    case Str(s) => NumericText(s)
    case Arr(_) => NumericText(ToText(v))
    case Obj(_) => None
  }

  /** `Number(s)` for text: surrounding white space is ignored and the empty text is 0. */
  function NumericText(s: string): Option<int> {
    var t := Text.Trim(s);
    if t == [] then Some(0) else Text.ParseInt(t)
  }

  /** `String(v)`, as a template literal `${v}` renders a value. */
  function ToText(v: Value): (r: string)
    ensures v.Str? ==> r == v.s
    ensures v.Num? ==> Text.ParseInt(r) == Some(v.n)
    decreases v
  {
    match v
    case Undefined => "undefined"
    case Null => "null"
    case Bool(b) => if b then "true" else "false"
    case Num(n) => Text.ParseShowInt(n); Text.ShowInt(n)
    case Str(s) => s
    case Obj(_) => "[object Object]"
    case Arr(items) => JoinText(items, v)
  }

  /** `items.join(",")`, where undefined and null elements render as the empty string. */
  function JoinText(items: seq<Value>, ghost whole: Value): string
    requires whole.Arr? && items <= whole.items
    decreases whole, |items|
  {
    if items == [] then ""
    else
      var last := items[|items| - 1];
      assert last in whole.items;
      var head := JoinText(items[..|items| - 1], whole);
      var text := if last == Undefined || last == Null then "" else ToText(last);
      if |items| == 1 then text else head + "," + text
  }

  /** A numeric field that is a string of digits is truthy even when it reads as 0: only the number 0 is falsy. */
  lemma ZeroTextIsTruthy()
    ensures Truthy(Str("0")) && ParseIntValue(Str("0")) == Some(0)
    ensures Falsy(Num(0))
  {
    assert Text.AllDigits("0");
  }

  /** `parseInt` reads a one-element array through its text, and rejects the values whose text is not a number. */
  lemma ParseIntThroughText(n: int)
    ensures ParseIntValue(Arr([Num(n)])) == Some(n)
    ensures ParseIntValue(Str(Text.ShowInt(n))) == Some(n)
    ensures ParseIntValue(Bool(true)) == None && ParseIntValue(Null) == None && ParseIntValue(Obj(map[])) == None
  {
    Text.ParseShowInt(n);
    var one := Arr([Num(n)]);
    assert one.items[..0] == [];
    assert JoinText(one.items, one) == ToText(Num(n));
    assert !Text.IsDigit("true"[0]) && !Text.IsDigit("null"[0]) && !Text.IsDigit("[object Object]"[0]);
  }
}
