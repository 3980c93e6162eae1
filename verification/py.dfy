/**
 * The slice of Python the package relies on: JSON-shaped values as they come
 * back from the Code Ocean and S3 responses, dictionary access, truthiness,
 * and the exceptions the package raises or lets escape.
 */
module Py {
  import opened Wrappers

  /** A decoded JSON value (floats are not modelled). */
  datatype Value =
    | Null
    | Bool(b: bool)
    | Int(i: int)
    | Str(s: string)
    | Arr(items: seq<Value>)
    | Obj(fields: map<string, Value>)

  /** A JSON object, i.e. a Python dict with string keys. */
  type Object = map<string, Value>

  /** The exceptions that leave the modelled code. */
  datatype Error =
    | KeyError(key: string)
    | TypeError(message: string)
    | AttributeError(name: string)
    | AssertionError(message: string)
    | ValueError(message: string)
    | ArgumentTypeError(message: string)
    | NotImplementedError(message: string)
    | NameError(name: string)
      /** botocore's ClientError: the error response of an S3 request. */
    | ClientError(code: string)
      /** The KeyError raised when a run response has no id: it carries the status code and the body. */
    | RunResponseError(statusCode: int, body: Object)
      /** Whatever a remote call that is not part of this model raised. */
    | RemoteError(detail: string)

  /** Python's `bool(v)`. */
  predicate Truthy(v: Value) {
    match v
    case Null => false
    case Bool(b) => b
    case Int(i) => i != 0
    case Str(s) => s != ""
    case Arr(items) => items != []
    case Obj(fields) => fields != map[]
  }

  /** `d.get(key)`: a missing key reads as None. */
  function Get(d: Object, key: string): (v: Value)
    ensures key !in d ==> v == Null
    ensures key in d ==> v == d[key]
  {
    if key in d then d[key] else Null
  }

  /** `d[key]`: a missing key raises KeyError. */
  function Index(d: Object, key: string): (r: Result<Value, Error>)
    ensures r.Ok? <==> key in d
    ensures r.Ok? ==> r.value == d[key]
    ensures r.Err? ==> r.error == KeyError(key)
  {
    if key in d then Ok(d[key]) else Err(KeyError(key))
  }

  /** `v == 0` in Python, where False equals 0. */
  predicate IsZero(v: Value) {
    v == Int(0) || v == Bool(false)
  }

  /** A value Python accepts as an integer (bool is a subclass of int). */
  function AsInt(v: Value): (r: Result<int, Error>)
    ensures r.Ok? <==> v.Int? || v.Bool?
    ensures v.Int? ==> r == Ok(v.i)
  {
    match v
    case Int(i) => Ok(i)
    case Bool(b) => Ok(if b then 1 else 0)
    case _ => Err(TypeError("an integer is required"))
  }

  /** `f"{s}"` for an optional string: None renders as "None". */
  function Format(s: Option<string>): string {
    match s
    case Some(x) => x
    case None => "None"
  }
}
