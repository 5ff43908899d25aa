/** JSON values as the handlers see them after parsing, and the few pieces of
    JavaScript/Python value semantics the handlers rely on (truthiness, `x || d`). */
module Json {

  datatype Option<+T> = None | Some(value: T)

  /** The outcome of something that may throw: a parsed request body, a JSON
      decode of an upstream reply. `Err` carries the thrown error's message. */
  datatype Result<+T> = Ok(value: T) | Err(message: string)

  /** A JSON value. Numbers are kept as reals; object key order is not modelled. */
  datatype Json =
    | JNull
    | JBool(b: bool)
    | JNum(n: real)
    | JStr(s: string)
    | JArr(items: seq<Json>)
    | JObj(fields: map<string, Json>)

  /** JavaScript truthiness of a JSON value (NaN does not occur in parsed JSON). */
  predicate Truthy(j: Json)
  {
    match j
    case JNull => false
    case JBool(b) => b
    case JNum(n) => n != 0.0
    case JStr(s) => s != ""
    case JArr(_) => true
    case JObj(_) => true
  }

  /** An optional string that is present and truthy (`!x` is false for it in JS and `not x` in Python). */
  predicate Present(o: Option<string>)
  {
    o.Some? && o.value != ""
  }

  /** `o || d` in JavaScript and `o or d` in Python, for an optional string. */
  function OrDefault(o: Option<string>, d: string): (r: string)
    ensures Present(o) ==> r == o.value
    ensures !Present(o) ==> r == d
  {
    if Present(o) then o.value else d
  }

  /** The object `{error: msg}`. */
  function ErrorObject(msg: string): Json
  {
    JObj(map["error" := JStr(msg)])
  }

  /** The strings of an array whose items are all strings. */
  function Strings(items: seq<Json>): (r: seq<string>)
    requires forall i :: 0 <= i < |items| ==> items[i].JStr?
    ensures |r| == |items|
    ensures forall i :: 0 <= i < |items| ==> items[i] == JStr(r[i])
  {
    if items == [] then [] else [items[0].s] + Strings(items[1..])
  }

  /** A list of strings as a JSON array. */
  function StringArray(ss: seq<string>): (r: Json)
    ensures r.JArr? && |r.items| == |ss|
    ensures forall i :: 0 <= i < |ss| ==> r.items[i] == JStr(ss[i])
  {
    JArr(seq(|ss|, i requires 0 <= i < |ss| => JStr(ss[i])))
  }

  /** Reading the strings back out of a string array gives the original list. */
  lemma StringsOfStringArray(ss: seq<string>)
    ensures forall i :: 0 <= i < |StringArray(ss).items| ==> StringArray(ss).items[i].JStr?
    ensures Strings(StringArray(ss).items) == ss
  {
    var r := Strings(StringArray(ss).items);
    assert |r| == |ss|;
    forall i | 0 <= i < |ss| ensures r[i] == ss[i] {
      assert StringArray(ss).items[i] == JStr(r[i]);
    }
  }
}
