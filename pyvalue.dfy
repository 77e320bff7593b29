/** The JSON-like values the inference client sends and receives (Python
    dicts, lists, strings, bytes, numbers, booleans and None), and Python's
    subscript operator `v[k]` on them, including the exception it raises. */
module PyValue {
  import opened Wrappers
  import Text

  datatype Value =
    | PyNone
    | PyBool(b: bool)
    | PyInt(i: int)
    | PyStr(s: string)
    | PyBytes(bytes: seq<bv8>)
    | PyList(items: seq<Value>)
    | PyDict(entries: map<string, Value>)

  /** A subscript: a string key or an integer index. */
  datatype Key = KStr(name: string) | KInt(index: int)

  /** The exceptions a subscript can raise. */
  datatype PyError =
    | KeyError(key: Key)          // dict without that key
    | IndexError(message: string) // sequence index out of range
    | TypeError                   // value not subscriptable by that key

  /** Python's rule for an index into a sequence of length `n`: negative
      indices count from the end. */
  function Normalize(i: int, n: nat): (r: Option<nat>)
    ensures r.Some? <==> -(n as int) <= i < n
    ensures r.Some? ==> r.value < n && r.value == i % n
  {
    if 0 <= i < n then Some(i)
    else if -(n as int) <= i < 0 then Some(n + i)
    else None
  }

  /** `v[k]` in Python. Dict keys in these values are strings, so an integer
      key is never found in a dict; indexing a string yields a one-character
      string and indexing bytes yields an integer. */
  function Subscript(v: Value, k: Key): (r: Result<Value, PyError>)
    ensures r.Failure? && r.error.KeyError? ==> v.PyDict? && r.error.key == k
    ensures r.Failure? && r.error.IndexError? ==> k.KInt? && (v.PyList? || v.PyStr? || v.PyBytes?)
    ensures r.Failure? && r.error.TypeError? <==>
              !v.PyDict? && !(k.KInt? && (v.PyList? || v.PyStr? || v.PyBytes?))
  {
    match v
    case PyDict(m) =>
      if k.KStr? && k.name in m then Success(m[k.name]) else Failure(KeyError(k))
    case PyList(xs) =>
      if k.KStr? then Failure(TypeError)
      else (match Normalize(k.index, |xs|)
        case Some(j) => Success(xs[j])
        case None => Failure(IndexError("list index out of range")))
    case PyStr(s) =>
      if k.KStr? then Failure(TypeError)
      else (match Normalize(k.index, |s|)
        case Some(j) => Success(PyStr([s[j]]))
        case None => Failure(IndexError("string index out of range")))
    case PyBytes(bs) =>
      if k.KStr? then Failure(TypeError)
      else (match Normalize(k.index, |bs|)
        case Some(j) => Success(PyInt(bs[j] as int))
        case None => Failure(IndexError("index out of range")))
    case _ => Failure(TypeError)
  }

  /** A chain of subscripts `v[k0][k1]...`, stopping at the first exception. */
  function Lookup(v: Value, path: seq<Key>): Result<Value, PyError>
    decreases |path|
  {
    if path == [] then Success(v)
    else match Subscript(v, path[0])
      case Failure(e) => Failure(e)
      case Success(w) => Lookup(w, path[1..])
  }

  /** A chain of subscripts can be taken in two stages. */
  lemma {:induction false} LookupAppend(v: Value, p: seq<Key>, q: seq<Key>)
    ensures Lookup(v, p + q) ==
              match Lookup(v, p)
              case Failure(e) => Failure(e)
              case Success(w) => Lookup(w, q)
    decreases |p|
  {
    if p != [] {
      assert (p + q)[0] == p[0];
      assert (p + q)[1..] == p[1..] + q;
      match Subscript(v, p[0])
      case Failure(e) =>
      case Success(w) => LookupAppend(w, p[1..], q);
    } else {
      assert p + q == q;
    }
  }

  /** `str(e)` for the exceptions a parse of the response can raise: a
      `KeyError` shows the missing key (a string key in quotes), an
      `IndexError` its message. */
  function Describe(e: PyError): string {
    match e
    case KeyError(KStr(name)) => "'" + name + "'"
    case KeyError(KInt(i)) => if i < 0 then "-" + Text.Decimal(-i) else Text.Decimal(i)
    case IndexError(message) => message
    case TypeError => "TypeError"
  }
}
