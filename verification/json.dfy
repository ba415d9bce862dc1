/**
 The decoded JSON payload of the provider's reply, and the three pieces of
 JavaScript semantics the server applies to it: property reads, truthiness
 (`if (x)`, `x || y`) and string conversion inside a template literal.
 */
module Json {
  import opened Wrappers
  import Text

  /** A value as `response.json()` hands it over. A number carries the value
      the decoder produced. */
  datatype Json =
    | JNull
    | JBool(b: bool)
    | JNum(n: real)
    | JStr(s: string)
    | JArr(items: seq<Json>)
    | JObj(fields: map<string, Json>)

  /** How the host formats a number as text (`Number.prototype.toString`). */
  type NumFormat = real -> string

  /** `v.key` on a value that is not `null`: an own field of an object, and
      `undefined` (None) otherwise. No array, string, number or boolean carries
      a property under the names the server reads. */
  function Prop(v: Json, key: string): Option<Json>
  {
    match v
    case JObj(fields) => if key in fields then Some(fields[key]) else None
    case _ => None
  }

  /** JavaScript truthiness of a value that may be `undefined`. */
  predicate Truthy(v: Option<Json>)
  {
    match v
    case None => false
    case Some(JNull) => false
    case Some(JBool(b)) => b
    case Some(JNum(n)) => n != 0.0
    case Some(JStr(s)) => s != ""
    case Some(JArr(_)) => true
    case Some(JObj(_)) => true
  }

  /** `v || fallback`: the left operand when it is truthy, else the right one. */
  function Or(v: Option<Json>, fallback: Json): Json
  {
    if Truthy(v) then v.value else fallback
  }

  /** `${v}`: JavaScript's `String(v)`. A string shows as itself, `null` as
      "null", a plain object as "[object Object]", and an array as the comma
      join of its elements' texts, a `null` element giving empty text. */
  function ToText(v: Json, fmt: NumFormat): (r: string)
    ensures v.JStr? ==> r == v.s
    ensures v.JNull? ==> r == "null"
    ensures v.JObj? ==> r == "[object Object]"
    ensures v.JArr? && |v.items| == 0 ==> r == ""
    decreases v
  {
    match v
    case JNull => "null"
    case JBool(b) => if b then "true" else "false"
    case JNum(n) => fmt(n)
    case JStr(s) => s
    case JObj(_) => "[object Object]"
    case JArr(items) =>
      Text.Join(seq(|items|, i requires 0 <= i < |items| =>
        if items[i].JNull? then "" else ToText(items[i], fmt)), ",")
  }

  /** The texts `Array.prototype.join` puts between the commas, element by
      element: empty text for `null`, the element's own text otherwise. */
  function ElementTexts(items: seq<Json>, fmt: NumFormat): (r: seq<string>)
    ensures |r| == |items|
  {
    if |items| == 0 then []
    else [if items[0].JNull? then "" else ToText(items[0], fmt)] + ElementTexts(items[1..], fmt)
  }

  /** An array shows as the comma-join of its elements' texts. */
  lemma {:induction false} ToTextOfArray(items: seq<Json>, fmt: NumFormat)
    ensures ToText(JArr(items), fmt) == Text.Join(ElementTexts(items, fmt), ",")
    decreases |items|
  {
    var texts := ElementTexts(items, fmt);
    forall i | 0 <= i < |items|
      ensures texts[i] == (if items[i].JNull? then "" else ToText(items[i], fmt))
    {
      ElementTextAt(items, i, fmt);
    }
    var shown := seq(|items|, i requires 0 <= i < |items| =>
      if items[i].JNull? then "" else ToText(items[i], fmt));
    assert texts == shown;
  }

  lemma {:induction false} ElementTextAt(items: seq<Json>, i: nat, fmt: NumFormat)
    requires i < |items|
    ensures ElementTexts(items, fmt)[i] == (if items[i].JNull? then "" else ToText(items[i], fmt))
    decreases i
  {
    if i > 0 {
      ElementTextAt(items[1..], i - 1, fmt);
    }
  }

  /** Truthiness by kind: every array and object is truthy, and a string,
      number or boolean is truthy exactly when it is not its kind's empty or
      zero value; `null` and `undefined` are falsy. Put together: the falsy
      JSON values are exactly `null`, `false`, `0` and `""`. */
  lemma TruthyByKind(v: Json)
    ensures !Truthy(None) && !Truthy(Some(JNull))
    ensures (v.JArr? || v.JObj?) ==> Truthy(Some(v))
    ensures v.JStr? ==> (Truthy(Some(v)) <==> v.s != "")
    ensures v.JNum? ==> (Truthy(Some(v)) <==> v.n != 0.0)
    ensures v.JBool? ==> (Truthy(Some(v)) <==> v.b)
    ensures !Truthy(Some(v)) <==> v == JNull || v == JBool(false) || v == JNum(0.0) || v == JStr("")
  {
  }

  /** Laws of `v || fallback`: the result is one of its operands; it is truthy
      exactly when either operand is; it is the left operand whenever that is
      truthy and the fallback whenever that is falsy; and applying the same fallback again changes nothing. */
  lemma OrLaws(v: Option<Json>, fallback: Json)
    ensures Some(Or(v, fallback)) == v || Or(v, fallback) == fallback
    ensures Truthy(Some(Or(v, fallback))) <==> Truthy(v) || Truthy(Some(fallback))
    ensures Truthy(v) ==> Some(Or(v, fallback)) == v
    ensures !Truthy(v) ==> Or(v, fallback) == fallback
    ensures Or(Some(Or(v, fallback)), fallback) == Or(v, fallback)
  {
  }

  /** Laws of property reads: a value other than an object has no property;
      a field just written reads back as written, and writing one field
      leaves the others as they were. */
  lemma PropLaws(v: Json, fields: map<string, Json>, key: string, x: Json, other: string)
    requires other != key
    ensures !v.JObj? ==> Prop(v, key) == None
    ensures Prop(JObj(fields[key := x]), key) == Some(x)
    ensures Prop(JObj(fields[key := x]), other) == Prop(JObj(fields), other)
    ensures Prop(JObj(fields - {key}), key) == None
  {
  }
}
