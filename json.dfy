/** JavaScript values as they travel through the modelled code: parsed JSON
    response bodies, request payloads, and the rules the runtime applies to
    them (truthiness, property access, rendering inside a template literal).
    `JSON.parse` and `JSON.stringify` themselves are not modelled; callers
    receive them as parameters. */
module Json {
  import opened Wrappers
  import opened Strings

  /** A JSON value. Objects keep their keys in insertion order; numbers are
      integer-valued. */
  datatype Json =
    | JNull
    | JBool(b: bool)
    | JNum(n: int)
    | JStr(s: string)
    | JArr(items: seq<Json>)
    | JObj(fields: seq<(string, Json)>)

  /** `JSON.parse`: the parsed value, or the message of the `SyntaxError`. */
  type JsonParser = string -> Result<Json>

  /** `JSON.stringify` of a defined value. */
  type JsonPrinter = Json -> string

  /** Truthiness of a present value: `null`, `false`, `0` and `""` are falsy. */
  predicate Truthy(v: Json)
  {
    !(v.JNull? || v == JBool(false) || v == JNum(0) || v == JStr(""))
  }

  /** Truthiness of a possibly `undefined` value. */
  predicate TruthyValue(v: Option<Json>)
  {
    v.Some? && Truthy(v.value)
  }

  /** The keys of an object, in insertion order (`Object.keys`). */
  function Keys(fields: seq<(string, Json)>): (ks: seq<string>)
    ensures |ks| == |fields|
    ensures forall i :: 0 <= i < |fields| ==> ks[i] == fields[i].0
  {
    seq(|fields|, i requires 0 <= i < |fields| => fields[i].0)
  }

  /** The value bound to `key`; the last binding wins, as in `JSON.parse`. */
  function Lookup(fields: seq<(string, Json)>, key: string): (r: Option<Json>)
    ensures r.Some? <==> exists i :: 0 <= i < |fields| && fields[i].0 == key
    ensures r.Some? ==> exists i :: 0 <= i < |fields| && fields[i] == (key, r.value)
    decreases |fields|
  {
    if |fields| == 0 then None
    else if fields[|fields| - 1].0 == key then Some(fields[|fields| - 1].1)
    else
      var r := Lookup(fields[..|fields| - 1], key);
      assert forall i :: 0 <= i < |fields| - 1 ==> fields[..|fields| - 1][i] == fields[i];
      r
  }

  /** A binding not overridden by a later one of the same key is what
      `Lookup` finds. */
  lemma {:induction false} LookupFinds(fields: seq<(string, Json)>, i: int)
    requires 0 <= i < |fields|
    requires forall j :: i < j < |fields| ==> fields[j].0 != fields[i].0
    ensures Lookup(fields, fields[i].0) == Some(fields[i].1)
    decreases |fields|
  {
    if i < |fields| - 1 {
      var init := fields[..|fields| - 1];
      assert init[i] == fields[i];
      LookupFinds(init, i);
    }
  }

  /** The `TypeError` message V8 gives for `x.key` when `x` is `null` or `undefined`. */
  function NullAccessMessage(holder: string, key: string): string
  {
    "Cannot read properties of " + holder + " (reading '" + key + "')"
  }

  /** `v.key` for a possibly `undefined` value `v`: throws on `null` and
      `undefined`, reads a field of an object, and is `undefined` for every
      other primitive (built-in properties such as `length` are not modelled). */
  function Prop(v: Option<Json>, key: string): (r: Result<Option<Json>>)
    ensures r.Err? <==> v == None || v == Some(JNull)
    ensures r.Ok? && v.value.JObj? ==> r.value == Lookup(v.value.fields, key)
    ensures r.Ok? && !v.value.JObj? ==> r.value == None
  {
    match v
    case None => Err(NullAccessMessage("undefined", key))
    case Some(JNull) => Err(NullAccessMessage("null", key))
    case Some(JObj(fields)) => Ok(Lookup(fields, key))
    case Some(_) => Ok(None)
  }

  /** `a.k1.k2`. */
  function Path(v: Json, k1: string, k2: string): (r: Result<Option<Json>>)
    ensures r.Ok? ==> Prop(Some(v), k1).Ok?
    ensures Prop(Some(v), k1).Err? ==> r == Prop(Some(v), k1)
    ensures Prop(Some(v), k1).Ok? ==> r == Prop(Prop(Some(v), k1).value, k2)
    ensures v.JNull? ==> r == Err(NullAccessMessage("null", k1))
    ensures r.Ok? <==> v.JObj? && Lookup(v.fields, k1).Some? && !Lookup(v.fields, k1).value.JNull?
  {
    match Prop(Some(v), k1)
    case Err(m) => Err(m)
    case Ok(inner) => Prop(inner, k2)
  }

  /** The text `${v}` produces inside a template literal. */
  function Display(v: Option<Json>): string
  {
    match v
    case None => "undefined"
    case Some(j) => Show(j)
  }

  function Show(j: Json): string
    decreases j, 1
  {
    match j
    case JNull => "null"
    case JBool(b) => if b then "true" else "false"
    case JNum(n) => IntToString(n)
    case JStr(s) => s
    case JArr(items) => JoinElements(items, j)
    case JObj(_) => "[object Object]"
  }

  /** `Array.prototype.join(",")`, where `null` elements print as empty. */
  function JoinElements(items: seq<Json>, ghost parent: Json): string
    requires forall i :: 0 <= i < |items| ==> items[i] < parent
    decreases parent, 0, |items|
  {
    if |items| == 0 then ""
    else
      var head := if items[0].JNull? then "" else Show(items[0]);
      if |items| == 1 then head else head + "," + JoinElements(items[1..], parent)
  }

  /** A string rendered in a template literal is printed verbatim, and a
      number in decimal. */
  lemma DisplayOfScalars(s: string, n: int)
    ensures Display(Some(JStr(s))) == s
    ensures Display(Some(JNum(n))) == IntToString(n)
    ensures Display(None) == "undefined"
  {
  }
}
