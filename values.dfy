/** Value types shared by the client model: optional values, results that
    carry a raised error, and the Python values that travel as JSON payloads
    and responses. */
module Values {

  datatype Option<+T> = None | Some(value: T)

  datatype Result<+T, +E> = Success(value: T) | Failure(error: E)

  /** The Python values a command payload or a decoded response can hold.
      `PyOpaque` stands for any object `json.dumps` cannot encode (a set,
      a datetime, a user class, ...); `typeName` only names it. */
  datatype PyValue =
    | PyNone
    | PyBool(b: bool)
    | PyInt(i: int)
    | PyFloat(r: real)
    | PyStr(s: string)
    | PyList(items: seq<PyValue>)
    | PyDict(entries: map<string, PyValue>)
    | PyOpaque(typeName: string)

  /** True iff `json.dumps(v)` succeeds: no opaque object occurs anywhere. */
  predicate Serialisable(v: PyValue) {
    match v
    case PyOpaque(_) => false
    case PyList(items) => forall i :: 0 <= i < |items| ==> Serialisable(items[i])
    case PyDict(entries) => forall k :: k in entries ==> Serialisable(entries[k])
    case _ => true
  }
}
