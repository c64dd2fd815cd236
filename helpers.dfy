/** utilities/helpers.py: the string helpers (unique ids, file extensions,
    file-name cleaning) and `safe_json_serialize`. The MD5 digest and the
    current time are parameters. */
module Helpers {

  import opened Common
  import opened PyText
  import opened PyPath
  import BaseProcessing

  /** `generate_unique_id`: the MD5 hex digest of `"{prefix}_{timestamp}_{suffix}"`,
      preceded by `prefix` and `'_'` when a prefix is given. */
  function GenerateUniqueId(prefix: string, suffix: string, timestamp: string, md5: string -> string): (r: string)
    ensures prefix != [] ==> StartsWith(r, prefix + "_")
    ensures prefix != [] ==> r[|prefix| + 1..] == md5(prefix + "_" + timestamp + "_" + suffix)
    ensures prefix == [] ==> r == md5("_" + timestamp + "_" + suffix)
  {
    var digest := md5(prefix + "_" + timestamp + "_" + suffix);
    assert prefix == [] ==> prefix + "_" == "_";
    if prefix != [] then prefix + "_" + digest else digest
  }

  /** `get_file_extension`: `Path(filename).suffix.lower().lstrip('.')`. */
  function GetFileExtension(filename: string): string {
    LStripChar(Lower(Suffix(Name(filename))), '.')
  }

  /** The extension has no dot; it is empty exactly when the final path
      component has no suffix; otherwise it is the extension the document
      processors look up (`_get_file_type`) without its leading dot. */
  lemma ExtensionShape(filename: string)
    ensures '.' !in GetFileExtension(filename)
    ensures GetFileExtension(filename) == [] <==> Suffix(Name(filename)) == []
    ensures var ext := BaseProcessing.Extension(filename);
      ext != [] ==> ext[0] == '.' && GetFileExtension(filename) == ext[1..]
  {
    var suffix := Suffix(Name(filename));
    var low := Lower(suffix);
    if suffix != [] {
      assert low[0] == '.';
      assert forall i :: 1 <= i < |low| ==> low[i] != '.' by {
        forall i | 1 <= i < |low|
          ensures low[i] != '.'
        {
          assert suffix[1..][i - 1] == suffix[i];
        }
      }
      assert low[1..] == [] || low[1..][0] != '.';
      assert LStripChar(low, '.') == LStripChar(low[1..], '.');
      assert LStripChar(low[1..], '.') == low[1..];
    }
  }

  /** The characters the first substitution of `sanitize_filename` keeps:
      word characters, whitespace, `'-'` and `'.'`. */
  predicate KeptChar(c: char) {
    IsWordChar(c) || IsSpace(c) || c == '-' || c == '.'
  }

  /** `re.sub(r'[^\w\s\-\.]', '_', s)` */
  function ReplaceUnsafe(s: string): (r: string)
    ensures |r| == |s|
    ensures forall i :: 0 <= i < |s| ==> r[i] == (if KeptChar(s[i]) then s[i] else '_')
  {
    if s == [] then [] else [if KeptChar(s[0]) then s[0] else '_'] + ReplaceUnsafe(s[1..])
  }

  /** `sanitize_filename`: the final path component, with unsafe characters
      replaced by `'_'` and then each whitespace run replaced by one `'_'`. */
  function SanitizeFilename(filename: string): string {
    SubWs(ReplaceUnsafe(Name(filename)), '_')
  }

  /** A cleaned name has no whitespace and no `'/'`; every character is a
      word character, `'-'` or `'.'`, and it is no longer than the final
      path component. */
  lemma SanitizedShape(filename: string)
    ensures var r := SanitizeFilename(filename);
      |r| <= |Name(filename)|
      && (forall i :: 0 <= i < |r| ==> !IsSpace(r[i]) && r[i] != '/')
      && (forall i :: 0 <= i < |r| ==> IsWordChar(r[i]) || r[i] == '-' || r[i] == '.')
  {
    var s := ReplaceUnsafe(Name(filename));
    var r := SubWs(s, '_');
    forall i | 0 <= i < |r|
      ensures IsWordChar(r[i]) || r[i] == '-' || r[i] == '.'
    {
      if r[i] != '_' {
        var j :| 0 <= j < |s| && s[j] == r[i];
        assert KeptChar(s[j]);
      }
    }
  }

  /** A name made only of word characters, `'-'` and `'.'`, other than
      `"."`, is already clean. */
  lemma SanitizeFixedPoint(s: string)
    requires forall i :: 0 <= i < |s| ==> IsWordChar(s[i]) || s[i] == '-' || s[i] == '.'
    requires s != "."
    ensures SanitizeFilename(s) == s
  {
    assert '/' !in s by {
      forall i | 0 <= i < |s|
        ensures s[i] != '/'
      {
      }
    }
    if s == [] {
      assert Name(s) == [];
    } else {
      SplitNone(s, '/');
      assert Components([s]) == [s];
      assert Name(s) == s;
    }
    assert ReplaceUnsafe(s) == s;
    SubWsOfSpaceless(s, '_');
  }

  /** A substitution result of a single `"."` comes only from `"."`. */
  lemma SubWsDot(s: string)
    ensures SubWs(s, '_') == "." ==> s == "."
  {
    if SubWs(s, '_') == "." {
      assert !IsSpace(s[0]) && s[0] == '.';
      assert SubWs(s, '_') == [s[0]] + SubWs(s[1..], '_');
      assert s == [s[0]] + s[1..];
    }
  }

  /** Only `"."` becomes `"."` in the first substitution. */
  lemma ReplaceUnsafeDot(s: string)
    ensures ReplaceUnsafe(s) == "." ==> s == "."
  {
    if ReplaceUnsafe(s) == "." {
      assert s[0] == '.';
    }
  }

  /** Cleaning a cleaned name changes nothing. */
  lemma SanitizeIdempotent(filename: string)
    ensures SanitizeFilename(SanitizeFilename(filename)) == SanitizeFilename(filename)
  {
    var r := SanitizeFilename(filename);
    SanitizedShape(filename);
    SubWsDot(ReplaceUnsafe(Name(filename)));
    ReplaceUnsafeDot(Name(filename));
    SanitizeFixedPoint(r);
  }

  /** A Python value as `safe_json_serialize` sees it: a scalar, a list, a
      tuple, a dict with string keys, or an object, with the result of its
      `to_dict()` when it has one and its `__dict__` when it has one. */
  datatype PyObject =
    | Scalar(v: Value)
    | PyList(items: seq<PyObject>)
    | PyTuple(items: seq<PyObject>)
    | PyDict(entries: map<string, PyObject>)
    | Instance(toDict: Option<PyObject>, attributes: Option<map<string, PyObject>>)

  /** `safe_json_serialize`: an object's `to_dict()` result, else its
      `__dict__`; lists and tuples become lists of serialised items; dicts
      keep their keys with serialised values; anything else is returned
      unchanged. */
  function Serialize(o: PyObject): (r: PyObject)
    ensures o.Instance? && o.toDict.Some? ==> r == o.toDict.value
    ensures o.Instance? && o.toDict.None? && o.attributes.Some? ==> r == PyDict(o.attributes.value)
    ensures (o.PyList? || o.PyTuple?) ==> r.PyList? && |r.items| == |o.items|
    ensures o.PyDict? ==> r.PyDict? && r.entries.Keys == o.entries.Keys
    ensures (o.PyList? || o.PyTuple?) ==> forall i :: 0 <= i < |o.items| ==> r.items[i] == Serialize(o.items[i])
    ensures o.PyDict? ==> forall k :: k in o.entries ==> r.entries[k] == Serialize(o.entries[k])
    ensures o.Instance? && o.toDict.None? && o.attributes.None? ==> r == o
    ensures o.Scalar? ==> r == o
    decreases o
  {
    match o
    case Instance(toDict, attributes) =>
      if toDict.Some? then toDict.value
      else if attributes.Some? then PyDict(attributes.value)
      else o
    case PyList(items) => PyList(seq(|items|, i requires 0 <= i < |items| => Serialize(items[i])))
    case PyTuple(items) => PyList(seq(|items|, i requires 0 <= i < |items| => Serialize(items[i])))
    case PyDict(entries) => PyDict(map k | k in entries :: Serialize(entries[k]))
    case Scalar(_) => o
  }

  /** Plain JSON-ready data: scalars, lists and string-keyed dicts, with no
      tuple and no object anywhere inside. */
  predicate Plain(o: PyObject)
    decreases o
  {
    match o
    case Scalar(_) => true
    case PyList(items) => forall i :: 0 <= i < |items| ==> Plain(items[i])
    case PyDict(entries) => forall k :: k in entries ==> Plain(entries[k])
    case PyTuple(_) => false
    case Instance(_, _) => false
  }

  /** No object anywhere inside: only scalars, lists, tuples and dicts. */
  predicate Structural(o: PyObject)
    decreases o
  {
    match o
    case Scalar(_) => true
    case PyList(items) => forall i :: 0 <= i < |items| ==> Structural(items[i])
    case PyTuple(items) => forall i :: 0 <= i < |items| ==> Structural(items[i])
    case PyDict(entries) => forall k :: k in entries ==> Structural(entries[k])
    case Instance(_, _) => false
  }

  /** Serialising plain data returns it unchanged. */
  lemma {:induction false} SerializePlain(o: PyObject)
    requires Plain(o)
    ensures Serialize(o) == o
    decreases o
  {
    match o
    case Scalar(_) =>
    case PyList(items) =>
      forall i | 0 <= i < |items|
        ensures Serialize(items[i]) == items[i]
      {
        SerializePlain(items[i]);
      }
      assert Serialize(o).items == items;
    case PyDict(entries) =>
      forall k | k in entries
        ensures Serialize(entries[k]) == entries[k]
      {
        SerializePlain(entries[k]);
      }
      assert Serialize(o).entries == entries;
  }

  /** Data made of scalars, lists, tuples and dicts serialises to plain data:
      every tuple, at any depth, becomes a list, and serialising once more
      changes nothing. */
  lemma {:induction false} SerializeStructural(o: PyObject)
    requires Structural(o)
    ensures Plain(Serialize(o))
    ensures Serialize(Serialize(o)) == Serialize(o)
    decreases o
  {
    match o {
      case Scalar(_) =>
      case PyList(items) =>
        forall i | 0 <= i < |items|
          ensures Plain(Serialize(items[i]))
        {
          SerializeStructural(items[i]);
        }
      case PyTuple(items) =>
        forall i | 0 <= i < |items|
          ensures Plain(Serialize(items[i]))
        {
          SerializeStructural(items[i]);
        }
      case PyDict(entries) =>
        forall k | k in entries
          ensures Plain(Serialize(entries[k]))
        {
          SerializeStructural(entries[k]);
        }
    }
    SerializePlain(Serialize(o));
  }
}
