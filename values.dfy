/** The Python values that flow through the agent: JSON-shaped data, the
    text `str()` gives them, truthiness, and the `{"status": ...}` envelopes
    every handler returns. */
module PyValues {
  import opened Wrappers
  import opened Dicts
  import opened Text

  /** A JSON-shaped Python value. A float is kept as the text Python prints
      for it (its `repr`), which is all the model ever does with one. */
  datatype Value =
    | Null
    | Bool(b: bool)
    | Int(i: int)
    | Float(repr: string)
    | Str(s: string)
    | List(items: seq<Value>)
    | Object(fields: Dict<string, Value>)

  /** Python truthiness, as `if v:` decides it. */
  predicate Truthy(v: Value) {
    match v
    case Null => false
    case Bool(b) => b
    case Int(i) => i != 0
    case Float(r) => r != "0.0" && r != "-0.0"
    case Str(s) => s != []
    case List(xs) => xs != []
    case Object(fs) => fs != []
  }

  /** `type(v).__name__`. */
  function TypeName(v: Value): string {
    match v
    case Null => "NoneType"
    case Bool(_) => "bool"
    case Int(_) => "int"
    case Float(_) => "float"
    case Str(_) => "str"
    case List(_) => "list"
    case Object(_) => "dict"
  }

  /** `repr(v)`. Strings are quoted with single quotes; the escaping Python
      applies to quotes, backslashes and unprintable characters is not modelled. */
  function Repr(v: Value): string
    decreases v, 1
  {
    match v
    case Null => "None"
    case Bool(b) => if b then "True" else "False"
    case Int(i) => IntToString(i)
    case Float(r) => r
    case Str(s) => "'" + s + "'"
    case List(xs) => "[" + ReprItems(xs) + "]"
    case Object(fs) => "{" + ReprFields(fs) + "}"
  }

  function ReprItems(xs: seq<Value>): string
    decreases xs, 0
  {
    if xs == [] then ""
    else if |xs| == 1 then Repr(xs[0])
    else Repr(xs[0]) + ", " + ReprItems(xs[1..])
  }

  function ReprFields(fs: Dict<string, Value>): string
    decreases fs, 0
  {
    if fs == [] then ""
    else
      assert fs[0] in fs && fs[0].1 < fs[0];
      if |fs| == 1 then "'" + fs[0].0 + "': " + Repr(fs[0].1)
    else "'" + fs[0].0 + "': " + Repr(fs[0].1) + ", " + ReprFields(fs[1..])
  }

  /** `str(v)`: a string is its own text, anything else prints as its repr. */
  function PyStr(v: Value): (r: string)
    ensures v.Str? ==> r == v.s
    ensures v.Null? ==> r == "None"
  {
    if v.Str? then v.s else Repr(v)
  }

  /** `str(KeyError(k))`: the missing key in quotes. */
  function KeyErrorText(k: string): string {
    "'" + k + "'"
  }

  /** `str(AttributeError)` for a missing attribute. */
  function NoAttributeText(typeName: string, attribute: string): string {
    "'" + typeName + "' object has no attribute '" + attribute + "'"
  }

  /** `d[k]` on a dict of parameters: the value, or the `KeyError` it raises. */
  function Subscript(d: Dict<string, Value>, k: string): (r: Result<Value, string>)
    ensures r.Err? <==> k !in Keys(d)
    ensures r.Err? ==> r.error == KeyErrorText(k)
    ensures r.Ok? ==> Get(d, k) == Some(r.value)
  {
    match Get(d, k)
    case Some(v) => Ok(v)
    case None => Err(KeyErrorText(k))
  }

  /** A list of strings as Python values. */
  function Strs(ss: seq<string>): (r: seq<Value>)
    ensures |r| == |ss|
    ensures forall i :: 0 <= i < |ss| ==> r[i] == Str(ss[i])
  {
    if ss == [] then [] else [Str(ss[0])] + Strs(ss[1..])
  }

  /** Lists and dicts cannot be dictionary keys. */
  predicate Hashable(v: Value) {
    !v.List? && !v.Object?
  }

  /** `str(TypeError)` for an unhashable key. */
  function UnhashableText(v: Value): string {
    "unhashable type: '" + TypeName(v) + "'"
  }

  /** Python's `x in container`: element membership for a list, key
      membership for a dict, substring for a string; anything else raises. */
  function Contains(container: Value, x: Value): (r: Result<bool, string>)
    ensures container.List? ==> r == Ok(x in container.items)
    ensures container.Object? && x.Str? ==> r == Ok(x.s in Keys(container.fields))
    ensures container.Object? ==> (r.Err? <==> !Hashable(x))
    ensures container.Str? && x.Str? ==> r == Ok(IsSubstring(x.s, container.s))
    ensures !container.List? && !container.Object? && !container.Str? ==> r.Err?
  {
    match container
    case List(items) => Ok(x in items)
    case Object(fields) =>
      if !Hashable(x) then Err(UnhashableText(x))
      else Ok(x.Str? && x.s in Keys(fields))
    case Str(s) =>
      if x.Str? then Ok(IsSubstring(x.s, s))
      else Err("'in <string>' requires string as left operand, not " + TypeName(x))
    case _ => Err("argument of type '" + TypeName(container) + "' is not iterable")
  }

  /** `data[key]` for a string key: a dict's entry, or what Python raises
      when `data` is a list, a string or a scalar. */
  function StrIndex(data: Value, key: string): (r: Result<Value, string>)
    ensures data.Object? ==> r == Subscript(data.fields, key)
    ensures !data.Object? ==> r.Err?
  {
    match data
    case Object(fields) => Subscript(fields, key)
    case List(_) => Err("list indices must be integers or slices, not str")
    case Str(_) => Err("string indices must be integers, not 'str'")
    case _ => Err("'" + TypeName(data) + "' object is not subscriptable")
  }

  /** The result dictionary a handler returns: `{"status": "success", ...}`
      with the rest of its keys in `payload`, or
      `{"status": "error", "message": message}`. */
  datatype Envelope = Success(payload: Dict<string, Value>) | Error(message: string) {
    function ToValue(): (v: Value)
      ensures v.Object? && v.fields != [] && v.fields[0].0 == "status"
      ensures v.fields[0].1 == Str(if Success? then "success" else "error")
    {
      match this
      case Success(p) => Object([("status", Str("success"))] + p)
      case Error(m) => Object([("status", Str("error")), ("message", Str(m))])
    }
  }

  /** The `try: ... except Exception as e: return {"status": "error",
      "message": str(e)}` shape: a call that raised becomes an error envelope
      carrying its text, and one that returned is wrapped under `key`. */
  function Wrap(key: string, call: Result<Value, string>): (r: Envelope)
    ensures r.Success? <==> call.Ok?
    ensures r.Success? ==> r.payload == [(key, call.value)]
    ensures r.Error? ==> r.message == call.error
  {
    match call
    case Ok(v) => Success([(key, v)])
    case Err(e) => Error(e)
  }
}
