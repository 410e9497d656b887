/** Values exchanged with the cloud providers: the JSON-like dictionaries the SDKs
    return, Python's truthiness on them, dictionary lookup, and the exceptions the
    file systems raise, as a typed result. */
module Values {

  datatype Option<+T> = None | Some(value: T) {
    function GetOr(default: T): T {
      match this
      case Some(v) => v
      case None => default
    }
  }

  /** The exceptions raised on the modelled paths: the pyfs errors the code raises on
      purpose, and the built-in ones Python raises on a missing key, a bad index, a value
      of the wrong type, or a missing attribute. */
  datatype Error =
    | PathError
    | UnsupportedError
    | KeyError
    | IndexError
    | TypeError
    | AttributeError

  datatype Result<+T> = Ok(value: T) | Err(error: Error)

  /** A decoded JSON value as the provider SDKs hand it back. */
  datatype Value =
    | Null
    | Bool(b: bool)
    | Int(i: int)
    | Str(s: string)
    | List(elems: seq<Value>)
    | Dict(fields: map<string, Value>)

  /** Provider metadata: one decoded JSON object. */
  type Meta = map<string, Value>

  /** Python's truth value of a decoded JSON value. */
  predicate Truthy(v: Value) {
    match v
    case Null => false
    case Bool(b) => b
    case Int(i) => i != 0
    case Str(s) => s != ""
    case List(xs) => xs != []
    case Dict(m) => m != map[]
  }

  /** `v[key]` on a value that should be a dictionary: a dictionary without the key
      raises KeyError, any other value raises TypeError. */
  function Index(v: Value, key: string): (r: Result<Value>)
    ensures r.Ok? <==> v.Dict? && key in v.fields
    ensures r.Ok? ==> r.value == v.fields[key]
    ensures r.Err? ==> r.error == (if v.Dict? then KeyError else TypeError)
  {
    match v
    case Dict(m) => if key in m then Ok(m[key]) else Err(KeyError)
    case _ => Err(TypeError)
  }

  /** The string a metadata dictionary stores under "id". A missing key raises
      KeyError; an identifier that is not a string is refused with TypeError. */
  function IdOf(f: Meta): (r: Result<string>)
    ensures r.Ok? <==> "id" in f && f["id"].Str?
    ensures r.Ok? ==> f["id"] == Str(r.value)
    ensures "id" !in f ==> r == Err(KeyError)
  {
    if "id" !in f then Err(KeyError)
    else if f["id"].Str? then Ok(f["id"].s)
    else Err(TypeError)
  }
}
