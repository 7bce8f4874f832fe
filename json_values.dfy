/** Decoded JSON documents and the few Python operations the deploy script applies to them. */
module JsonValues {
  import opened Basics

  /** A value as `json.loads` hands it back (numbers are restricted to integers). */
  datatype Json =
    | Null
    | Bool(b: bool)
    | Num(n: int)
    | Str(s: string)
    | Arr(items: seq<Json>)
    | Obj(fields: map<string, Json>)

  /** Python truthiness of a decoded value: None, False, 0, "", [] and {} are false. */
  predicate Truthy(j: Json) {
    match j
    case Null => false
    case Bool(b) => b
    case Num(n) => n != 0
    case Str(s) => s != ""
    case Arr(items) => items != []
    case Obj(fields) => fields != map[]
  }

  /** `d.get(key)`: the value under `key`, or None when the key is absent. */
  function Get(fields: map<string, Json>, key: string): Json {
    if key in fields then fields[key] else Null
  }

  /**
   * `d.get(k0) or d.get(k1) or ...`: the first truthy value found under the keys, taken in
   * order, or None when every one of them is falsy.
   */
  function FirstTruthy(fields: map<string, Json>, keys: seq<string>): (r: Option<Json>)
    ensures r.Some? ==> Truthy(r.value)
    ensures r.None? <==> forall i :: 0 <= i < |keys| ==> !Truthy(Get(fields, keys[i]))
  {
    if keys == [] then None
    else if Truthy(Get(fields, keys[0])) then Some(Get(fields, keys[0]))
    else FirstTruthy(fields, keys[1..])
  }

  /** Priority: the value under the first key whose value is truthy wins, whatever follows it. */
  lemma {:induction false} FirstTruthyPicksFirst(fields: map<string, Json>, keys: seq<string>, i: nat)
    requires i < |keys| && Truthy(Get(fields, keys[i]))
    requires forall j :: 0 <= j < i ==> !Truthy(Get(fields, keys[j]))
    ensures FirstTruthy(fields, keys) == Some(Get(fields, keys[i]))
  {
    if i > 0 {
      FirstTruthyPicksFirst(fields, keys[1..], i - 1);
    }
  }

  /** `_parse_json`: an empty body is the empty object; any other body goes to the decoder. */
  function ParseJson(body: seq<byte>, loads: seq<byte> -> Option<Json>): (r: Option<Json>)
    ensures body == [] ==> r == Some(Obj(map[]))
    ensures body != [] ==> r == loads(body)
  {
    if body == [] then Some(Obj(map[])) else loads(body)
  }
}
