/**
 * JSON values as the `requests` library decodes them, and the Python
 * subscript operations the adapter applies to them.
 */
module Json {
  import opened Wrappers

  /** A decoded JSON document. Floating-point numbers are not modelled. */
  datatype Json =
    | JNull
    | JBool(b: bool)
    | JInt(i: int)
    | JStr(s: string)
    | JArr(items: seq<Json>)
    | JObj(fields: map<string, Json>)

  /** The exception a subscript or an iteration raises on an unexpected shape. */
  datatype Fault =
    | KeyError(key: Json)   // a dict lacks the key
    | IndexError(index: int) // a list or string is too short
    | TypeError              // the value cannot be subscripted or iterated that way

  /** `j[key]` with a string key. */
  function Get(j: Json, key: string): Result<Json, Fault> {
    match j
    case JObj(m) => if key in m then Ok(m[key]) else Fail(KeyError(JStr(key)))
    case _ => Fail(TypeError)
  }

  /** `j[0]`: lists and strings are indexed, a dict is looked up with the integer key 0. */
  function First(j: Json): Result<Json, Fault> {
    match j
    case JArr(xs) => if |xs| > 0 then Ok(xs[0]) else Fail(IndexError(0))
    case JStr(s) => if |s| > 0 then Ok(JStr(s[..1])) else Fail(IndexError(0))
    case JObj(_) => Fail(KeyError(JInt(0)))
    case _ => Fail(TypeError)
  }

  /** Follows a path of object keys from the root of a document. */
  function Path(j: Json, keys: seq<string>): Option<Json>
    decreases |keys|
  {
    if keys == [] then Some(j)
    else match j
      case JObj(m) => if keys[0] in m then Path(m[keys[0]], keys[1..]) else None
      case _ => None
  }

  /** Following `a` then `b` is following `a + b`. */
  lemma {:induction false} PathThrough(j: Json, a: seq<string>, b: seq<string>)
    requires Path(j, a).Some?
    ensures Path(j, a + b) == Path(Path(j, a).value, b)
    decreases |a|
  {
    if a == [] {
      assert a + b == b;
    } else {
      assert (a + b)[0] == a[0];
      assert (a + b)[1..] == a[1..] + b;
      PathThrough(j.fields[a[0]], a[1..], b);
    }
  }
}
