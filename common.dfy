/** Small datatypes shared by every module of the model. */
module Common {

  /** A value that may be absent: Python's `None`, JavaScript's `null`/`undefined`. */
  datatype Option<+T> = None | Some(value: T) {
    function GetOr(default: T): T {
      match this
      case Some(v) => v
      case None => default
    }
  }

  /** The outcome of a request handler: a value, or the HTTPException it raises
      (status code and detail text). */
  datatype HttpResult<+T> = Ok(value: T) | HttpError(status: nat, detail: string)

  /** The outcome of a call that may raise: its value, or the exception's
      message (a `ValueError` unless stated otherwise). */
  datatype Raising<+T> = Returned(value: T) | Raised(message: string)

  /** A JSON-like value, as it appears in Python dicts, metadata and JSON bodies. */
  datatype Value =
    | Null
    | Bool(b: bool)
    | Int(i: int)
    | Str(s: string)
    | List(items: seq<Value>)
    | Dict(fields: map<string, Value>)

  /** An element is in a non-empty sequence exactly when it is in all but
      the last element or is the last. */
  lemma InSnoc<T>(s: seq<T>, x: T)
    requires s != []
    ensures x in s <==> x in s[..|s| - 1] || x == s[|s| - 1]
  {
    assert s == s[..|s| - 1] + [s[|s| - 1]];
  }

  /** Concatenation regroups freely. */
  lemma AppendAssoc<T>(a: seq<T>, b: seq<T>, c: seq<T>)
    ensures (a + b) + c == a + (b + c)
  {
  }

  /** No element occurs twice. */
  predicate Distinct<T(==)>(s: seq<T>) {
    forall i, j :: 0 <= i < j < |s| ==> s[i] != s[j]
  }
}
