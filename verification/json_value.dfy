/**
 A JSON-like value as the Python scripts see it after `json.load` or
 `response.json()`, together with the handful of Python operations the
 scripts apply to such values: subscription `v[k]`, `dict.get`, indexing
 `v[0]`, iteration, truthiness and `str()`. Every operation that can raise
 in Python returns a `Result` whose failure names the Python exception.
 */
module PyJson {

  /** The Python exceptions the modelled code can raise (and not catch). */
  datatype PyError =
    | KeyError
    | IndexError
    | TypeError
    | AttributeError
    | ValueError
    | NullException      // the script's own `raise Exception("NullException: ...")`
    | ReprNotModelled    // `str()` of a list or dict inside an f-string (see README)

  datatype Result<+T> = Ok(value: T) | Err(error: PyError) {

    predicate IsFailure() {
      Err?
    }

    function PropagateFailure<U>(): Result<U>
      requires Err?
    {
      Err(error)
    }

    function Extract(): T
      requires Ok?
    {
      value
    }
  }

  datatype Option<+T> = None | Some(value: T)

  /** JSON objects always have string keys once decoded by Python. */
  datatype Json =
    | JNull
    | JBool(b: bool)
    | JInt(n: int)
    | JStr(s: string)
    | JArr(items: seq<Json>)
    | JObj(fields: map<string, Json>)

  /** Python truthiness: None, False, 0, "", [] and {} are false. */
  predicate Truthy(v: Json) {
    match v
    case JNull => false
    case JBool(b) => b
    case JInt(n) => n != 0
    case JStr(s) => |s| > 0
    case JArr(items) => |items| > 0
    case JObj(fields) => |fields| > 0
  }

  /** Lists and dicts cannot be dictionary keys or set members in Python. */
  predicate Hashable(v: Json) {
    !v.JArr? && !v.JObj?
  }

  /** `v[key]` with a string key. */
  function Subscript(v: Json, key: string): (r: Result<Json>)
    ensures r.Ok? <==> v.JObj? && key in v.fields
    ensures r.Ok? ==> r.value == v.fields[key]
    ensures r.Err? && v.JObj? ==> r.error == KeyError
    ensures r.Err? && !v.JObj? ==> r.error == TypeError
  {
    match v
    case JObj(fields) => if key in fields then Ok(fields[key]) else Err(KeyError)
    case _ => Err(TypeError)
  }

  /** `v.get(key, default)`: only dicts have a `get` attribute. */
  function GetOr(v: Json, key: string, default: Json): (r: Result<Json>)
    ensures r.Ok? <==> v.JObj?
    ensures r.Err? ==> r.error == AttributeError
    ensures v.JObj? && key in v.fields ==> r == Ok(v.fields[key])
    ensures v.JObj? && key !in v.fields ==> r == Ok(default)
  {
    match v
    case JObj(fields) => Ok(if key in fields then fields[key] else default)
    case _ => Err(AttributeError)
  }

  /**
   `v[i]` with a non-negative integer index. A string yields its i-th
   character as a one-character string; a dict with string keys never holds
   an integer key.
   */
  function Index(v: Json, i: nat): (r: Result<Json>)
    ensures v.JArr? && i < |v.items| ==> r == Ok(v.items[i])
    ensures v.JArr? && i >= |v.items| ==> r == Err(IndexError)
    ensures v.JObj? ==> r == Err(KeyError)
  {
    match v
    case JArr(items) => if i < |items| then Ok(items[i]) else Err(IndexError)
    case JStr(s) => if i < |s| then Ok(JStr([s[i]])) else Err(IndexError)
    case JObj(_) => Err(KeyError)
    case _ => Err(TypeError)
  }

  function CharStrings(s: string): (r: seq<Json>)
    ensures |r| == |s|
    ensures forall i :: 0 <= i < |s| ==> r[i] == JStr([s[i]])
  {
    if |s| == 0 then [] else [JStr([s[0]])] + CharStrings(s[1..])
  }

  /**
   The elements a Python `for` loop visits. A list yields its items and a
   string its characters. A dict yields its keys, which are strings; every
   loop of the modelled code fails on its very first string element, so a
   non-empty dict is reported directly with `onKey`, the error that loop's
   body raises for a string. Scalars are not iterable.
   */
  function Elements(v: Json, onKey: PyError): (r: Result<seq<Json>>)
    ensures v.JArr? ==> r == Ok(v.items)
    ensures v.JStr? ==> r.Ok? && |r.value| == |v.s|
    ensures (v.JNull? || v.JBool? || v.JInt?) ==> r == Err(TypeError)
  {
    match v
    case JArr(items) => Ok(items)
    case JStr(s) => Ok(CharStrings(s))
    case JObj(fields) => if |fields| == 0 then Ok([]) else Err(onKey)
    case _ => Err(TypeError)
  }

  /** Decimal digits of a natural number, most significant first. */
  function NatText(n: nat): (r: string)
    ensures |r| > 0
    ensures forall i :: 0 <= i < |r| ==> '0' <= r[i] <= '9'
    decreases n
  {
    if n < 10 then [(('0' as int) + n) as char]
    else NatText(n / 10) + [(('0' as int) + n % 10) as char]
  }

  /** Python `str(n)` for an integer. */
  function IntText(n: int): (r: string)
    ensures |r| > 0
    ensures (n < 0) <==> r[0] == '-'
  {
    if n < 0 then "-" + NatText(-n) else NatText(n)
  }

  /**
   Python `str(v)` as used by an f-string. Exact for strings, integers,
   booleans and None; the repr of lists and dicts is not modelled.
   */
  function PyStr(v: Json): (r: Result<string>)
    ensures r.Ok? <==> Hashable(v)
    ensures v.JStr? ==> r == Ok(v.s)
    ensures v.JNull? ==> r == Ok("None")
  {
    match v
    case JNull => Ok("None")
    case JBool(b) => Ok(if b then "True" else "False")
    case JInt(n) => Ok(IntText(n))
    case JStr(s) => Ok(s)
    case _ => Err(ReprNotModelled)
  }

  /** All values are strings (what `str.join` demands of its argument). */
  function AsStrings(vs: seq<Json>): (r: Result<seq<string>>)
    ensures r.Ok? <==> forall i :: 0 <= i < |vs| ==> vs[i].JStr?
    ensures r.Ok? ==> |r.value| == |vs| && forall i :: 0 <= i < |vs| ==> r.value[i] == vs[i].s
    ensures r.Err? ==> r.error == TypeError
  {
    if |vs| == 0 then Ok([])
    else if !vs[0].JStr? then Err(TypeError)
    else
      match AsStrings(vs[1..])
      case Err(e) => Err(e)
      case Ok(rest) => Ok([vs[0].s] + rest)
  }

  /** `d.setdefault(key, value)`: an existing entry is kept, a new key gets `value`. */
  function SetDefault(d: map<Json, Json>, key: Json, value: Json): (r: map<Json, Json>)
    ensures r.Keys == d.Keys + {key}
    ensures key in d ==> r[key] == d[key]
    ensures key !in d ==> r[key] == value
    ensures forall k :: k in d ==> r[k] == d[k]
  {
    if key in d then d else d[key := value]
  }
}
