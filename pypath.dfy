/** Python path semantics used by the file utilities: `os.path.basename`,
    and the `name` and `suffix` of a POSIX `pathlib.Path`. */
module PyPath {

  import opened PyText

  /** `s.rfind(c)`: the last index of `c` in `s`, or -1. */
  function LastIndexOf(s: string, c: char): (r: int)
    ensures -1 <= r < |s|
    ensures r >= 0 ==> s[r] == c
    ensures forall j :: r < j < |s| ==> s[j] != c
  {
    if s == [] then -1
    else if s[|s| - 1] == c then |s| - 1
    else LastIndexOf(s[..|s| - 1], c)
  }

  /** `os.path.basename(p)`: the text after the last `'/'`. */
  function BaseName(p: string): (r: string)
    ensures '/' !in r
    ensures |r| <= |p| && r == p[|p| - |r|..]
  {
    p[LastIndexOf(p, '/') + 1..]
  }

  /** The non-empty components of a path other than `.`, in order. */
  function Components(parts: seq<string>): (r: seq<string>)
    ensures forall k :: 0 <= k < |r| ==> r[k] in parts && r[k] != [] && r[k] != "."
  {
    if parts == [] then []
    else (if parts[0] != [] && parts[0] != "." then [parts[0]] else []) + Components(parts[1..])
  }

  /** A piece of a `'/'`-split never contains `'/'`. */
  lemma {:induction false} SplitPiecesHaveNoSlash(s: string)
    ensures forall k :: 0 <= k < |Split(s, "/")| ==> '/' !in Split(s, "/")[k]
    decreases |s|
  {
    var i := Find(s, "/");
    if i == -1 {
      forall j | 0 <= j < |s|
        ensures s[j] != '/'
      {
        assert !OccursAt(s, "/", j);
        assert s[j..j + 1] == [s[j]];
      }
    } else {
      SplitPiecesHaveNoSlash(s[i + 1..]);
      forall j | 0 <= j < i
        ensures s[..i][j] != '/'
      {
        assert !OccursAt(s, "/", j);
        assert s[j..j + 1] == [s[j]];
      }
    }
  }

  /** `Path(p).name`: the last component, `""` for an empty path or the root. */
  function Name(p: string): (r: string)
    ensures '/' !in r
  {
    var cs := Components(Split(p, "/"));
    SplitPiecesHaveNoSlash(p);
    if cs == [] then [] else cs[|cs| - 1]
  }

  /** `Path(p).suffix` of a name: from its last `'.'` on, when that dot is
      neither the first nor the last character; `""` otherwise. */
  function Suffix(name: string): (r: string)
    ensures r == [] || (2 <= |r| <= |name| && r[0] == '.' && '.' !in r[1..] && r == name[|name| - |r|..])
  {
    var i := LastIndexOf(name, '.');
    if 0 < i < |name| - 1 then name[i..] else []
  }

  /** A name without a dot has no suffix. */
  lemma NoDotNoSuffix(name: string)
    requires '.' !in name
    ensures Suffix(name) == []
  {
  }
}
