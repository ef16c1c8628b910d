/**
 * Python exceptions as values: the class that `except` clauses test and the
 * text that `str(e)` yields, which the servers copy into their replies.
 */
module PyErrors {
  import opened Wrappers
  import opened Strings
  import opened PyJson

  datatype Kind =
    | ValueError
    | TypeError
    | AttributeError
    | KeyError
    | OverflowError
    | UnboundLocalError
    | NameError
    /** Any other class, by name (the client library's own exceptions, `HTTPException`, ...). */
    | Other(name: string)

  datatype Exc = Exc(kind: Kind, message: string)

  /** `except ValueError` also catches its subclasses; none of them is modelled separately. */
  predicate IsValueError(e: Exc) {
    e.kind == ValueError
  }

  /** The `ValueError` of `int(s)` on text that is not a base-10 literal. */
  function IntLiteralError(s: string): Exc {
    Exc(ValueError, "invalid literal for int() with base 10: " + StrRepr(s))
  }

  /** Python's `int(s)` on a string, raising as Python does. */
  function IntOfStr(s: string): (r: Result<int, Exc>)
    ensures r.Ok? <==> PyInt(s).Some?
    ensures r.Ok? ==> r.value == PyInt(s).value
    ensures r.Err? ==> r.error == IntLiteralError(s)
  {
    match PyInt(s)
      case Some(i) => Ok(i)
      case None => Err(IntLiteralError(s))
  }

  /** Python's `int(v)` on a parsed JSON value. */
  function IntOfJson(v: Json): (r: Result<int, Exc>)
    ensures v.JInt? ==> r == Ok(v.i)
    ensures v.JStr? ==> r == IntOfStr(v.s)
  {
    match v
      case JInt(i) => Ok(i)
      case JBool(b) => Ok(if b then 1 else 0)
      case JStr(s) => IntOfStr(s)
      case _ => Err(Exc(TypeError, "int() argument must be a string, a bytes-like object or a real number, not '"
                        + TypeName(v) + "'"))
  }

  /** `v.get(key, default)`: `dict.get` on an object, `AttributeError` on anything else. */
  function Get(v: Json, key: string, default: Json): (r: Result<Json, Exc>)
    ensures v.JObject? <==> r.Ok?
    ensures v.JObject? ==> r.value == GetOr(v.fields, key, default)
  {
    if v.JObject? then Ok(GetOr(v.fields, key, default))
    else Err(Exc(AttributeError, NoGetMessage(v)))
  }

  /**
   * `len(v)` and then `for x in v`: a list yields its items, a dict its keys
   * and a string its characters; `len` raises `TypeError` on anything else.
   */
  function Elements(v: Json): (r: Result<seq<Json>, Exc>)
    ensures v.JArray? ==> r == Ok(v.items)
    ensures r.Ok? <==> v.JArray? || v.JObject? || v.JStr?
  {
    match v
      case JArray(items) => Ok(items)
      case JObject(fields) => Ok(seq(|fields|, i requires 0 <= i < |fields| => JStr(fields[i].0)))
      case JStr(s) => Ok(seq(|s|, i requires 0 <= i < |s| => JStr([s[i]])))
      case _ => Err(Exc(TypeError, "object of type '" + TypeName(v) + "' has no len()"))
  }

  /** `len(v)`, then `v[:n]` iterated: as `Elements`, except that slicing a dict raises. */
  function SlicedElements(v: Json): (r: Result<seq<Json>, Exc>)
    ensures v.JArray? ==> r == Ok(v.items)
  {
    var items :- Elements(v);
    if v.JObject? then Err(Exc(TypeError, "unhashable type: 'slice'")) else Ok(items)
  }
}
