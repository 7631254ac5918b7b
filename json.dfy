/** The JSON values that `JSON.parse` produces and the JavaScript property
    read `v.key` on them. Parsing and printing themselves are not modelled:
    the relay's handlers receive them as function parameters. */
module Json {

  datatype Option<+T> = None | Some(value: T)

  /** A value as `JSON.parse` returns it. An object keeps its members in
      text order; a key that occurs twice is read with its last value. */
  datatype Json =
    | JNull
    | JBool(b: bool)
    | JNumber(n: real)
    | JString(s: string)
    | JArray(items: seq<Json>)
    | JObject(fields: seq<(string, Json)>)

  /** The outcome of reading `v.key`: `undefined`, a value, or the
      `TypeError` thrown when `v` is `null`. */
  datatype Access = Undefined | Defined(value: Json) | TypeError

  /** The value of `key` among an object's members; the last one wins, as
      with duplicate keys in `JSON.parse`. */
  function Lookup(fields: seq<(string, Json)>, key: string): (r: Option<Json>)
    ensures r.None? <==> forall i :: 0 <= i < |fields| ==> fields[i].0 != key
    ensures r.Some? ==>
      exists i :: 0 <= i < |fields| && fields[i] == (key, r.value) &&
        forall j :: i < j < |fields| ==> fields[j].0 != key
  {
    if fields == [] then None
    else if fields[|fields| - 1].0 == key then Some(fields[|fields| - 1].1)
    else Lookup(fields[..|fields| - 1], key)
  }

  /** `v.key` in JavaScript, for a key that no prototype defines (such as
      "event" and "message", the only keys the programs read): `null`
      throws, an object yields its own member or `undefined`, and booleans,
      numbers, strings and arrays yield `undefined`. Keys such as `length`
      or `toString`, which strings, arrays or `Object.prototype` define,
      are outside this model. */
  function Member(v: Json, key: string): (r: Access)
    ensures r.TypeError? <==> v.JNull?
    ensures r.Defined? ==>
      v.JObject? && exists i :: 0 <= i < |v.fields| && v.fields[i] == (key, r.value) &&
                                (forall j :: i < j < |v.fields| ==> v.fields[j].0 != key)
    ensures v.JObject? && (exists i :: 0 <= i < |v.fields| && v.fields[i].0 == key) ==> r.Defined?
  {
    match v
    case JNull => TypeError
    case JObject(fields) =>
      (match Lookup(fields, key)
       case Some(x) => Defined(x)
       case None => Undefined)
    case _ => Undefined
  }
}
