/** JSON values as `JSON.parse` hands them to the screens, URL query
    parameters as `new URL(..).searchParams` exposes them, and the JavaScript
    semantics the screens apply on top: truthiness, `||`, property reads and
    `String(..)` conversion. The two parsers are not re-implemented: a
    caller passes them in as oracles (`JsonParser`, `UrlParser`). */
module JsValue {
  import opened Wrappers
  import opened JsText

  /** A parsed JSON value (RFC 8259). A number carries the text JavaScript's
      `String(n)` gives for it; an object carries its members after duplicate
      names are resolved (the last one wins). */
  datatype JValue =
    | JNull
    | JBool(b: bool)
    | JNumber(shown: string)
    | JString(str: string)
    | JArray(items: seq<JValue>)
    | JObject(props: map<string, JValue>)

  /** `JSON.parse`: `None` when it throws. */
  type JsonParser = string -> Option<JValue>

  /** The decoded query of a parsed URL, name/value pairs in order. */
  datatype Query = Query(pairs: seq<(string, string)>)

  /** `new URL(text)`: `None` when the constructor throws. */
  type UrlParser = string -> Option<Query>

  /** A JavaScript value that may be `undefined` (`None`). */
  type Slot = Option<JValue>

  /** JavaScript truthiness: `undefined`, `null`, `false`, `0` and `""` are
      falsy (JSON cannot produce `NaN`). */
  predicate Truthy(v: Slot) {
    match v
    case None => false
    case Some(JNull) => false
    case Some(JBool(b)) => b
    case Some(JNumber(shown)) => shown != "0"
    case Some(JString(s)) => s != ""
    case Some(_) => true
  }

  /** `a || b`: the left operand when truthy, otherwise the right one. */
  function Or(a: Slot, b: Slot): (r: Slot)
    ensures Truthy(r) <==> Truthy(a) || Truthy(b)
    ensures Truthy(a) ==> r == a
    ensures !Truthy(a) ==> r == b
  {
    if Truthy(a) then a else b
  }

  /** `v.key` for a value that is neither `null` nor `undefined`. Primitives
      and arrays have none of the property names the screens read. */
  function Member(v: JValue, key: string): (r: Slot)
    requires v != JNull
    ensures r.Some? <==> v.JObject? && key in v.props
    ensures r.Some? ==> r.value == v.props[key]
  {
    match v
    case JObject(m) => if key in m then Some(m[key]) else None
    case _ => None
  }

  /** `v?.key`: `undefined` when `v` is `null` or `undefined`. */
  function OptMember(v: Slot, key: string): (r: Slot)
    ensures r.Some? <==> v.Some? && v.value.JObject? && key in v.value.props
    ensures r.Some? ==> r.value == v.value.props[key]
  {
    match v
    case None => None
    case Some(JNull) => None
    case Some(x) => Member(x, key)
  }

  /** `String(v)` does not throw for `v`. An object converts through the
      inherited `Object.prototype.toString` unless it has an own `toString`
      member; JSON cannot make that member callable, so the conversion falls
      back to the inherited `valueOf`, which returns the object itself, and a
      TypeError is thrown. An array converts through `join`, which converts
      each element in turn. */
  predicate Convertible(v: JValue) {
    match v
    case JObject(m) => "toString" !in m
    case JArray(items) => forall k | 0 <= k < |items| :: Convertible(items[k])
    case _ => true
  }

  /** `String(v)` for a value that is neither `null` nor `undefined`, `None`
      when it throws. An array joins its elements with `,`, rendering `null`
      elements as empty. */
  function ToJsString(v: JValue): (r: Option<string>)
    ensures r.Some? <==> Convertible(v)
    ensures v.JString? ==> r == Some(v.str)
    ensures v.JObject? && r.Some? ==> r.value == "[object Object]"
    decreases v, 1
  {
    match v
    case JNull => Some("null")
    case JBool(b) => Some(if b then "true" else "false")
    case JNumber(shown) => Some(shown)
    case JString(s) => Some(s)
    case JArray(items) => JoinItems(items)
    case JObject(m) => if "toString" in m then None else Some("[object Object]")
  }

  function JoinItems(items: seq<JValue>): (r: Option<string>)
    ensures r.Some? <==> forall k | 0 <= k < |items| :: Convertible(items[k])
    decreases items, 0
  {
    if |items| == 0 then Some("")
    else
      var head := if items[0] == JNull then Some("") else ToJsString(items[0]);
      if head.None? then None
      else if |items| == 1 then head
      else
        var rest := JoinItems(items[1..]);
        assert forall k | 1 <= k < |items| :: items[1..][k - 1] == items[k];
        if rest.None? then None else Some(head.value + "," + rest.value)
  }

  /** A value interpolated into a template literal: `undefined` shows as
      `"undefined"`; `None` when the conversion throws. */
  function Show(v: Slot): (r: Option<string>)
    ensures v.None? ==> r == Some("undefined")
    ensures v.Some? ==> r == ToJsString(v.value)
  {
    match v
    case None => Some("undefined")
    case Some(x) => ToJsString(x)
  }

  /** The pair at `k` is the first one named `name` at or after `from`. */
  predicate FirstNamed(q: Query, name: string, from: nat, k: int) {
    from <= k < |q.pairs| && q.pairs[k].0 == name
    && forall j | from <= j < k :: q.pairs[j].0 != name
  }

  /** `searchParams.get(name)` as a JavaScript value: the first pair named
      `name`, or `null` (here `None`, equally falsy) when there is none. */
  function Param(q: Query, name: string): (r: Slot)
    ensures r.None? <==> forall k | 0 <= k < |q.pairs| :: q.pairs[k].0 != name
    ensures r.Some? ==> exists k :: FirstNamed(q, name, 0, k) && r.value == JString(q.pairs[k].1)
  {
    ParamFrom(q, name, 0)
  }

  function ParamFrom(q: Query, name: string, from: nat): (r: Slot)
    requires from <= |q.pairs|
    ensures r.None? <==> forall k | from <= k < |q.pairs| :: q.pairs[k].0 != name
    ensures r.Some? ==> exists k :: FirstNamed(q, name, from, k) && r.value == JString(q.pairs[k].1)
    decreases |q.pairs| - from
  {
    if from == |q.pairs| then None
    else if q.pairs[from].0 == name then
      assert FirstNamed(q, name, from, from);
      Some(JString(q.pairs[from].1))
    else
      var r := ParamFrom(q, name, from + 1);
      if r.Some? then
        var k :| FirstNamed(q, name, from + 1, k) && r.value == JString(q.pairs[k].1);
        assert FirstNamed(q, name, from, k);
        r
      else r
  }

  /** The string `s` as a present JavaScript value. */
  function Str(s: string): (r: Slot)
    ensures Truthy(r) <==> s != ""
  {
    Some(JString(s))
  }
}
