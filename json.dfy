/** JSON values as Python's `json` module decodes them, and the Python
    operations the integration applies to them: truthiness, `or`, subscripts
    with their exceptions, `==` against an integer, `+` and `*`. */
module Json {
  import opened Wrappers

  /** A decoded JSON value. A JSON number with a fraction is a finite decimal,
      `mantissa / 10^scale`; an object is a dict from string keys. */
  datatype Json =
    | JNull
    | JBool(b: bool)
    | JInt(i: int)
    | JFloat(mantissa: int, scale: nat)
    | JStr(s: string)
    | JArr(items: seq<Json>)
    | JObj(fields: map<string, Json>)

  /** The Python exceptions the modelled code can raise or catch. */
  datatype PyError =
    | KeyError
    | IndexError
    | TypeError
    | AttributeError
    | ValueError(msg: string)
    | OSError
    | TimeoutError
    | ClientError
    | PlatformNotReady  // the host's "try again later" signal for a platform
    | Invalid           // the configuration schema rejected the configuration
    | HomeAssistantError  // what Home Assistant's `load_json` raises for a file it cannot read or parse

  function Pow10(n: nat): (r: nat)
    ensures r >= 1
  {
    if n == 0 then 1 else 10 * Pow10(n - 1)
  }

  /** Python's `bool(x)`. */
  predicate Truthy(j: Json) {
    match j
    case JNull => false
    case JBool(b) => b
    case JInt(i) => i != 0
    case JFloat(m, _) => m != 0
    case JStr(s) => s != []
    case JArr(items) => items != []
    case JObj(fields) => fields != map[]
  }

  /** Python's `a or b`. */
  function Or(a: Json, b: Json): Json {
    if Truthy(a) then a else b
  }

  /** The numeric value of a number or a bool (Python's bool is an int). */
  function NumValue(j: Json): Option<real> {
    match j
    case JBool(b) => Some(if b then 1.0 else 0.0)
    case JInt(i) => Some(i as real)
    case JFloat(m, s) => Some(m as real / Pow10(s) as real)
    case _ => None
  }

  /** Python's `j == n` for an int `n`: only numbers and bools can be equal to it. */
  predicate EqualsInt(j: Json, n: int) {
    NumValue(j) == Some(n as real)
  }

  /** Python's `j[k]` for a string key `k`. */
  function GetKey(j: Json, k: string): Result<Json, PyError> {
    match j
    case JObj(fields) => if k in fields then Ok(fields[k]) else Err(KeyError)
    case _ => Err(TypeError)
  }

  /** Python's `j[i]` for a non-negative int `i`. A JSON object never has an
      int key, so a dict raises KeyError. */
  function GetIndex(j: Json, i: nat): Result<Json, PyError> {
    match j
    case JArr(items) => if i < |items| then Ok(items[i]) else Err(IndexError)
    case JStr(s) => if i < |s| then Ok(JStr([s[i]])) else Err(IndexError)
    case JObj(_) => Err(KeyError)
    case _ => Err(TypeError)
  }

  /** Python's `j[i]` where `i` may be `None`. */
  function GetIndexOpt(j: Json, i: Option<nat>): Result<Json, PyError> {
    match i
    case Some(n) => GetIndex(j, n)
    case None => if j.JObj? then Err(KeyError) else Err(TypeError)
  }

  /** Python's `a + b`. */
  function Add(a: Json, b: Json): Result<Json, PyError> {
    if a.JStr? && b.JStr? then Ok(JStr(a.s + b.s))
    else if a.JArr? && b.JArr? then Ok(JArr(a.items + b.items))
    else Err(TypeError)
  }

  function Repeat<T>(s: seq<T>, n: nat): seq<T> {
    if n == 0 then [] else s + Repeat(s, n - 1)
  }

  /** Python's `j * n` for an int `n >= 0`. */
  function Mul(j: Json, n: nat): Result<Json, PyError> {
    match j
    case JBool(b) => Ok(JInt(if b then n else 0))
    case JInt(i) => Ok(JInt(i * n))
    case JFloat(m, s) => Ok(JFloat(m * n, s))
    case JStr(s) => Ok(JStr(Repeat(s, n)))
    case JArr(items) => Ok(JArr(Repeat(items, n)))
    case _ => Err(TypeError)
  }
}
