/** JSON-shaped Python values, the exceptions the pipeline code can raise, and the
    dictionary operations (subscript and item assignment) the handlers are written with. */
module Json {

  /** A value that json.loads can produce, and that the Lambda handlers pass around. */
  datatype Json =
    | JNull
    | JBool(b: bool)
    | JNum(n: int)
    | JStr(s: string)
    | JArr(items: seq<Json>)
    | JObj(fields: map<string, Json>)

  /** The exceptions of the modelled code. `Foreign` stands for whatever a call into an
      AWS client raises (a botocore ClientError and the like); it is carried unchanged. */
  datatype Exception =
    | KeyError(key: string)
    | TypeError(reason: string)
    | IndexError(reason: string)
    | UnboundLocalError(name: string)
    | AttributeError(name: string)
    | Foreign(service: string, code: string)
    | StepFunctionFailed(message: string)

  /** A Python computation: it returns a value or raises. */
  datatype Result<+T> = Ok(value: T) | Raise(error: Exception) {
    predicate IsFailure() { Raise? }
    function PropagateFailure<U>(): Result<U> requires Raise? { Raise(error) }
    function Extract(): T requires Ok? { value }
  }

  datatype Option<+T> = None | Some(value: T)

  /** `d[key]` on a dict. */
  function Field(d: map<string, Json>, key: string): Result<Json> {
    if key in d then Ok(d[key]) else Raise(KeyError(key))
  }

  /** `v[key]` where `v` may be any value; only a dict has string keys. */
  function Get(v: Json, key: string): Result<Json> {
    match v
    case JObj(d) => Field(d, key)
    case JArr(_) => Raise(TypeError("list indices must be integers or slices, not str"))
    case JStr(_) => Raise(TypeError("string indices must be integers"))
    case _ => Raise(TypeError("object is not subscriptable"))
  }

  /** `v[0]`, as used on the transcript list. */
  function First(v: Json): Result<Json> {
    match v
    case JArr(xs) => if |xs| > 0 then Ok(xs[0]) else Raise(IndexError("list index out of range"))
    case JStr(s) => if |s| > 0 then Ok(JStr([s[0]])) else Raise(IndexError("string index out of range"))
    case JObj(d) => Raise(KeyError("0"))
    case _ => Raise(TypeError("object is not subscriptable"))
  }

  /** `v[key] = x`: the dict with that entry replaced, or the exception it raises. */
  function SetItem(v: Json, key: string, x: Json): (r: Result<Json>)
    ensures r.Ok? <==> v.JObj?
    ensures r.Ok? ==> r.value.JObj? && r.value.fields.Keys == v.fields.Keys + {key}
    ensures r.Ok? ==> r.value.fields[key] == x
    ensures r.Ok? ==> forall k :: k in v.fields && k != key ==> r.value.fields[k] == v.fields[k]
  {
    match v
    case JObj(d) => Ok(JObj(d[key := x]))
    case JArr(_) => Raise(TypeError("list indices must be integers or slices, not str"))
    case JStr(_) => Raise(TypeError("'str' object does not support item assignment"))
    case _ => Raise(TypeError("object does not support item assignment"))
  }

  /** `a + b` where `a` and `b` must be strings. */
  function AsString(v: Json): Result<string> {
    match v
    case JStr(s) => Ok(s)
    case _ => Raise(TypeError("can only concatenate str to str"))
  }

  /** A Python dict object; the handlers change its entries in place. */
  class Dict {
    var items: map<string, Json>

    constructor (items: map<string, Json>)
      ensures this.items == items
    {
      this.items := items;
    }
  }
}
