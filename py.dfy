/**
  The few Python values and operations the skill relies on: a decoded JSON
  document, the built-in exceptions its lookups can raise, `d.get(key, default)`
  and `v[0]`.
 */
module Py {
  import opened Wrappers

  /** A JSON document as `response.json()` returns it. Numbers and booleans
      are one case: nothing in the skill looks inside them. */
  datatype Json =
    | Obj(fields: map<string, Json>)
    | Arr(items: seq<Json>)
    | Str(chars: string)
    | Null
    | Scalar

  /** Exceptions that can escape a handler. All but the last are Python
      built-ins; the last stands for the voice SDK's response builder being
      handed speech that is not a string. */
  datatype Exception =
    | AttributeError
    | IndexError
    | KeyError
    | TypeError
    | SpeechNotString

  /** `v.get(key, default)`: only a dict has `get`, and the default is used
      only when the key is absent (a key bound to null yields null). */
  function Get(v: Json, key: string, default: Json): (r: Result<Json, Exception>)
    ensures r.Ok? <==> v.Obj?
    ensures r.Raise? ==> r.error == AttributeError
    ensures r.Ok? && key in v.fields ==> r.value == v.fields[key]
    ensures r.Ok? && key !in v.fields ==> r.value == default
  {
    match v
    case Obj(fields) => if key in fields then Ok(fields[key]) else Ok(default)
    case _ => Raise(AttributeError)
  }

  /** `v[0]`. JSON object keys are strings, so `d[0]` never finds a key. */
  function Index0(v: Json): (r: Result<Json, Exception>)
    ensures r.Ok? <==> (v.Arr? && |v.items| > 0) || (v.Str? && |v.chars| > 0)
    ensures r.Ok? && v.Arr? ==> r.value == v.items[0]
    ensures r.Ok? && v.Str? ==> r.value == Str([v.chars[0]])
    ensures r.Raise? ==> r.error == (if v.Arr? || v.Str? then IndexError else if v.Obj? then KeyError else TypeError)
  {
    match v
    case Arr(items) => if |items| > 0 then Ok(items[0]) else Raise(IndexError)
    case Str(s) => if |s| > 0 then Ok(Str([s[0]])) else Raise(IndexError)
    case Obj(_) => Raise(KeyError)
    case Null => Raise(TypeError)
    case Scalar => Raise(TypeError)
  }
}
