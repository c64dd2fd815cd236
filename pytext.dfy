/** Python string and slice semantics used throughout the model: `isspace`,
    `strip`, `find`, `split`, `lower` and the clamping rules of slices. */
module PyText {

  import opened Common

  /** `str.isspace()` (and the regular-expression class `\s` on `str`
      patterns): the Unicode whitespace characters. */
  predicate IsSpace(c: char) {
    ('\t' <= c <= '\r') || ('\U{1C}' <= c <= '\U{1F}') || c == ' '
    || c == '\U{85}' || c == '\U{A0}' || c == '\U{1680}'
    || ('\U{2000}' <= c <= '\U{200A}') || c == '\U{2028}' || c == '\U{2029}'
    || c == '\U{202F}' || c == '\U{205F}' || c == '\U{3000}'
  }

  predicate IsBlank(s: string) {
    forall i :: 0 <= i < |s| ==> IsSpace(s[i])
  }

  /** `s.lstrip()` */
  function LStrip(s: string): (r: string)
    ensures |r| <= |s|
    ensures r == [] || !IsSpace(r[0])
  {
    if s == [] || !IsSpace(s[0]) then s else LStrip(s[1..])
  }

  /** `lstrip` removes a run of whitespace from the front and nothing else. */
  lemma {:induction false} LStripShape(s: string)
    ensures LStrip(s) == s[|s| - |LStrip(s)|..]
    ensures forall i :: 0 <= i < |s| - |LStrip(s)| ==> IsSpace(s[i])
    decreases |s|
  {
    if s != [] && IsSpace(s[0]) {
      LStripShape(s[1..]);
    }
  }

  /** `s.rstrip()` */
  function RStrip(s: string): (r: string)
    ensures |r| <= |s|
    ensures r == [] || !IsSpace(r[|r| - 1])
    ensures r != [] ==> r[0] == s[0]
  {
    if s == [] || !IsSpace(s[|s| - 1]) then s else RStrip(s[..|s| - 1])
  }

  /** `rstrip` removes a run of whitespace from the end and nothing else. */
  lemma {:induction false} RStripShape(s: string)
    ensures RStrip(s) == s[..|RStrip(s)|]
    ensures forall i :: |RStrip(s)| <= i < |s| ==> IsSpace(s[i])
    decreases |s|
  {
    if s != [] && IsSpace(s[|s| - 1]) {
      RStripShape(s[..|s| - 1]);
    }
  }

  /** `s.strip()` */
  function Strip(s: string): (r: string)
    ensures |r| <= |s|
    ensures r == [] || (!IsSpace(r[0]) && !IsSpace(r[|r| - 1]))
  {
    RStrip(LStrip(s))
  }

  /** A non-empty string with no whitespace at either end: what `strip`
      leaves of a non-blank string. */
  predicate Stripped(s: string) {
    s != [] && !IsSpace(s[0]) && !IsSpace(s[|s| - 1])
  }

  lemma StripEmptyIffBlank(s: string)
    ensures Strip(s) == [] <==> IsBlank(s)
  {
    var l := LStrip(s);
    LStripShape(s);
    RStripShape(l);
    if l != [] {
      assert l[0] == s[|s| - |l|];
    }
  }

  lemma StripOfStripped(s: string)
    requires s == [] || (!IsSpace(s[0]) && !IsSpace(s[|s| - 1]))
    ensures Strip(s) == s
  {
  }

  /** `s.lstrip(c)` for one character. */
  function LStripChar(s: string, c: char): (r: string)
    ensures |r| <= |s| && r == s[|s| - |r|..]
    ensures r == [] || r[0] != c
    ensures forall i :: 0 <= i < |s| - |r| ==> s[i] == c
  {
    if s != [] && s[0] == c then LStripChar(s[1..], c) else s
  }

  /** `s.rstrip(c)` for one character. */
  function RStripChar(s: string, c: char): (r: string)
    ensures |r| <= |s| && r == s[..|r|]
    ensures r == [] || r[|r| - 1] != c
    ensures forall i :: |r| <= i < |s| ==> s[i] == c
  {
    if s != [] && s[|s| - 1] == c then RStripChar(s[..|s| - 1], c) else s
  }

  /** The substring relation: `sub in s`. */
  predicate OccursAt(s: string, sub: string, i: nat) {
    i + |sub| <= |s| && s[i..i + |sub|] == sub
  }

  predicate Contains(s: string, sub: string) {
    exists i: nat | i <= |s| :: OccursAt(s, sub, i)
  }

  /** `s.find(sub, start)`: the first occurrence at or after `start`, or -1. */
  function FindFrom(s: string, sub: string, start: nat): (r: int)
    requires start <= |s|
    ensures r == -1 || (start <= r <= |s| - |sub| && OccursAt(s, sub, r))
    ensures forall j: nat :: start <= j < (if r == -1 then |s| + 1 else r) ==> !OccursAt(s, sub, j)
    decreases |s| - start
  {
    if OccursAt(s, sub, start) then start
    else if start == |s| then -1
    else FindFrom(s, sub, start + 1)
  }

  function Find(s: string, sub: string): (r: int)
    ensures r == -1 <==> !Contains(s, sub)
    ensures r != -1 ==> 0 <= r <= |s| - |sub| && OccursAt(s, sub, r)
  {
    FindFrom(s, sub, 0)
  }

  /** `s.split(sep)` for a non-empty separator. */
  function Split(s: string, sep: string): (r: seq<string>)
    requires sep != []
    ensures |r| >= 1
    decreases |s|
  {
    var i := Find(s, sep);
    if i == -1 then [s] else [s[..i]] + Split(s[i + |sep|..], sep)
  }

  /** `sep.join(parts)` */
  function Join(parts: seq<string>, sep: string): string {
    if parts == [] then []
    else if |parts| == 1 then parts[0]
    else parts[0] + sep + Join(parts[1..], sep)
  }

  /** Joining one more part appends the separator and that part. */
  lemma {:induction false} JoinSnoc(parts: seq<string>, p: string, sep: string)
    requires parts != []
    ensures Join(parts + [p], sep) == Join(parts, sep) + sep + p
  {
    if |parts| == 1 {
      assert (parts + [p])[1..] == [p];
    } else {
      JoinSnoc(parts[1..], p, sep);
      assert (parts + [p])[1..] == parts[1..] + [p];
    }
  }

  /** A text that occurs in `mid` occurs in any text around it. */
  lemma ContainsWithin(a: string, mid: string, b: string, sub: string)
    requires Contains(mid, sub)
    ensures Contains(a + mid + b, sub)
  {
    var k: nat :| k <= |mid| && OccursAt(mid, sub, k);
    var s := a + mid + b;
    assert s[|a| + k..|a| + k + |sub|] == mid[k..k + |sub|];
    assert OccursAt(s, sub, |a| + k);
  }

  /** Every part occurs in the joined text. */
  lemma {:induction false} JoinHasPart(parts: seq<string>, sep: string, i: nat)
    requires i < |parts|
    ensures Contains(Join(parts, sep), parts[i])
  {
    var s := Join(parts, sep);
    if i == 0 {
      assert s[..|parts[0]|] == parts[0];
      assert OccursAt(s, parts[0], 0);
    } else {
      JoinHasPart(parts[1..], sep, i - 1);
      ContainsWithin(parts[0] + sep, Join(parts[1..], sep), [], parts[i]);
      assert s == parts[0] + sep + Join(parts[1..], sep) + [];
    }
  }

  /** A sequence's suffix is its piece up to `b` followed by the rest. */
  lemma SplitAt<T>(s: seq<T>, a: nat, b: nat)
    requires a <= b <= |s|
    ensures s[a..] == s[a..b] + s[b..]
  {
  }

  lemma JoinCons(a: string, tail: seq<string>, sep: string)
    requires |tail| >= 1
    ensures Join([a] + tail, sep) == a + sep + Join(tail, sep)
  {
    assert ([a] + tail)[1..] == tail;
  }

  lemma Recompose(s: string, sub: string, i: nat)
    requires OccursAt(s, sub, i)
    ensures s == s[..i] + sub + s[i + |sub|..]
  {
    assert s == s[..i] + s[i..i + |sub|] + s[i + |sub|..];
  }

  /** `split` at an occurrence of the separator: the text before it, then
      the split of the text after it. */
  lemma SplitFound(s: string, sep: string)
    requires sep != [] && Find(s, sep) != -1
    ensures Split(s, sep) == [s[..Find(s, sep)]] + Split(s[Find(s, sep) + |sep|..], sep)
  {
  }

  /** Splitting and joining again gives the original text back. */
  lemma {:induction false} JoinSplit(s: string, sep: string)
    requires sep != []
    ensures Join(Split(s, sep), sep) == s
    decreases |s|
  {
    var i := Find(s, sep);
    if i != -1 {
      var rest := s[i + |sep|..];
      JoinSplit(rest, sep);
      var tail := Split(rest, sep);
      SplitFound(s, sep);
      JoinCons(s[..i], tail, sep);
      Recompose(s, sep, i);
    }
  }

  /** The index just past the first run of non-space characters. */
  function WordEnd(s: string, i: nat): (r: nat)
    requires i <= |s|
    ensures i <= r <= |s| && (r == |s| || IsSpace(s[r]))
    ensures forall j :: i <= j < r ==> !IsSpace(s[j])
    decreases |s| - i
  {
    if i == |s| || IsSpace(s[i]) then i else WordEnd(s, i + 1)
  }

  predicate IsWord(w: string) {
    w != [] && forall i :: 0 <= i < |w| ==> !IsSpace(w[i])
  }

  /** `s.split()`: the maximal runs of non-whitespace characters. */
  function SplitWs(s: string): (r: seq<string>)
    ensures forall k :: 0 <= k < |r| ==> IsWord(r[k])
    decreases |s|
  {
    var t := LStrip(s);
    if t == [] then []
    else
      var k := WordEnd(t, 0);
      [t[..k]] + SplitWs(t[k..])
  }

  /** Every character of a word of `s.split()` is a character of `s`. */
  lemma {:induction false} SplitWsChars(s: string)
    ensures forall w, c :: w in SplitWs(s) && c in w ==> c in s
    decreases |s|
  {
    var t := LStrip(s);
    LStripShape(s);
    if t != [] {
      var k := WordEnd(t, 0);
      SplitWsChars(t[k..]);
      assert SplitWs(s) == [t[..k]] + SplitWs(t[k..]);
      SuffixChars(s, t);
      forall w, c | w in SplitWs(s) && c in w
        ensures c in t
      {
        if w == t[..k] {
          assert c in t[..k];
        } else {
          assert w in SplitWs(t[k..]);
          assert c in t[k..];
        }
      }
    }
  }

  /** A suffix's characters are characters of the whole. */
  lemma SuffixChars(s: string, t: string)
    requires |t| <= |s| && t == s[|s| - |t|..]
    ensures forall c :: c in t ==> c in s
  {
    forall c | c in t
      ensures c in s
    {
      var i :| 0 <= i < |t| && t[i] == c;
      assert s[|s| - |t| + i] == c;
    }
  }

  /** The regular-expression class `\w`: ASCII letters and digits, `'_'`,
      and the Arabic letters and Arabic-Indic digits. */
  predicate IsWordChar(c: char) {
    IsAsciiLetter(c) || '0' <= c <= '9' || c == '_'
    || '\U{0621}' <= c <= '\U{064A}' || '\U{0660}' <= c <= '\U{0669}'
  }

  /** ASCII `lower()` of one character. */
  function LowerChar(c: char): char {
    if 'A' <= c <= 'Z' then (c as int + 32) as char else c
  }

  function Lower(s: string): (r: string)
    ensures |r| == |s|
  {
    seq(|s|, i requires 0 <= i < |s| => LowerChar(s[i]))
  }

  /** Lower-casing commutes with taking a substring. */
  lemma LowerSlice(s: string, i: nat, j: nat)
    requires i <= j <= |s|
    ensures Lower(s)[i..j] == Lower(s[i..j])
  {
  }

  /** A substring that lower-casing leaves unchanged survives lower-casing. */
  lemma LowerKeepsLowerInfix(s: string, sub: string)
    requires Contains(s, sub) && Lower(sub) == sub
    ensures Contains(Lower(s), sub)
  {
    var i: nat :| i <= |s| && OccursAt(s, sub, i);
    LowerSlice(s, i, i + |sub|);
    assert OccursAt(Lower(s), sub, i);
  }

  /** ASCII `upper()` of one character. */
  function UpperChar(c: char): char {
    if 'a' <= c <= 'z' then (c as int - 32) as char else c
  }

  function Upper(s: string): (r: string)
    ensures |r| == |s|
    ensures forall i :: 0 <= i < |r| ==> !('a' <= r[i] <= 'z')
  {
    seq(|s|, i requires 0 <= i < |s| => UpperChar(s[i]))
  }

  /** `s.replace(a, b)` for one-character `a` and `b`. */
  function ReplaceChar(s: string, a: char, b: char): (r: string)
    ensures |r| == |s|
    ensures forall i :: 0 <= i < |s| ==> r[i] == (if s[i] == a then b else s[i])
  {
    seq(|s|, i requires 0 <= i < |s| => if s[i] == a then b else s[i])
  }

  predicate IsAsciiLetter(c: char) {
    'a' <= c <= 'z' || 'A' <= c <= 'Z'
  }

  /** `title()` on ASCII text: a letter is upper-cased when the character before
      it is not a letter, and lower-cased otherwise. */
  function TitleFrom(s: string, afterLetter: bool): (r: string)
    ensures |r| == |s|
    ensures |s| > 0 ==> r[0] == (if afterLetter then LowerChar(s[0]) else UpperChar(s[0]))
    ensures forall i :: 0 < i < |s| ==>
      r[i] == (if IsAsciiLetter(s[i - 1]) then LowerChar(s[i]) else UpperChar(s[i]))
  {
    if s == [] then []
    else [if afterLetter then LowerChar(s[0]) else UpperChar(s[0])] + TitleFrom(s[1..], IsAsciiLetter(s[0]))
  }

  function Title(s: string): (r: string)
    ensures |r| == |s|
    ensures |s| > 0 ==> r[0] == UpperChar(s[0])
    ensures forall i :: 0 < i < |s| ==>
      r[i] == (if IsAsciiLetter(s[i - 1]) then LowerChar(s[i]) else UpperChar(s[i]))
  {
    TitleFrom(s, false)
  }

  /** `re.sub(r'\s+', rep, s)`: each maximal run of whitespace becomes the
      single character `rep`. */
  function SubWs(s: string, rep: char): (r: string)
    ensures |r| <= |s|
    ensures forall i :: 0 <= i < |r| ==> r[i] == rep || (r[i] in s && !IsSpace(r[i]))
    ensures s != [] ==> r != [] && r[0] == (if IsSpace(s[0]) then rep else s[0])
    decreases |s|
  {
    if s == [] then []
    else if IsSpace(s[0]) then
      var t := LStrip(s[1..]);
      LStripShape(s[1..]);
      var rest := SubWs(t, rep);
      assert forall i :: 0 <= i < |rest| && rest[i] in t ==> rest[i] in s;
      [rep] + rest
    else
      var rest := SubWs(s[1..], rep);
      assert forall i :: 0 <= i < |rest| && rest[i] in s[1..] ==> rest[i] in s;
      [s[0]] + rest
  }

  /** Whitespace appears only as single `rep` characters. */
  predicate Collapsed(s: string, rep: char) {
    forall i :: 0 <= i < |s| && IsSpace(s[i]) ==> s[i] == rep && (i + 1 < |s| ==> !IsSpace(s[i + 1]))
  }

  /** The substitution leaves only single `rep` characters where runs were. */
  lemma {:induction false} SubWsCollapses(s: string, rep: char)
    requires IsSpace(rep)
    ensures Collapsed(SubWs(s, rep), rep)
    decreases |s|
  {
    if s != [] {
      if IsSpace(s[0]) {
        SubWsCollapses(LStrip(s[1..]), rep);
      } else {
        SubWsCollapses(s[1..], rep);
      }
    }
  }

  /** The tail of collapsed text is collapsed, and starts with a non-space
      when the text starts with a space. */
  lemma CollapsedTail(s: string, rep: char)
    requires s != [] && Collapsed(s, rep)
    ensures Collapsed(s[1..], rep)
    ensures IsSpace(s[0]) ==> s[0] == rep && LStrip(s[1..]) == s[1..]
  {
    var t := s[1..];
    forall i | 0 <= i < |t| && IsSpace(t[i])
      ensures t[i] == rep && (i + 1 < |t| ==> !IsSpace(t[i + 1]))
    {
      assert t[i] == s[i + 1];
      assert i + 1 < |t| ==> t[i + 1] == s[i + 2];
    }
    if IsSpace(s[0]) && t != [] {
      assert t[0] == s[1];
      assert !IsSpace(t[0]);
    }
  }

  /** Text in which whitespace is already collapsed is left as it is. */
  lemma {:induction false} SubWsOfCollapsed(s: string, rep: char)
    requires IsSpace(rep) && Collapsed(s, rep)
    ensures SubWs(s, rep) == s
    decreases |s|
  {
    if s != [] {
      CollapsedTail(s, rep);
      SubWsOfCollapsed(s[1..], rep);
      assert s == [s[0]] + s[1..];
    }
  }

  /** Text without whitespace is left as it is by the substitution. */
  lemma {:induction false} SubWsOfSpaceless(s: string, rep: char)
    requires forall i :: 0 <= i < |s| ==> !IsSpace(s[i])
    ensures SubWs(s, rep) == s
    decreases |s|
  {
    if s != [] {
      SubWsOfSpaceless(s[1..], rep);
      assert s == [s[0]] + s[1..];
    }
  }

  /** A piece of collapsed text is collapsed. */
  lemma CollapsedSlice(s: string, rep: char, a: nat, b: nat)
    requires a <= b <= |s| && Collapsed(s, rep)
    ensures Collapsed(s[a..b], rep)
  {
    forall i | 0 <= i < b - a && IsSpace(s[a..b][i])
      ensures s[a..b][i] == rep && (i + 1 < b - a ==> !IsSpace(s[a..b][i + 1]))
    {
      assert s[a..b][i] == s[a + i];
    }
  }

  /** Stripping collapsed text keeps it collapsed. */
  lemma StripCollapsed(s: string, rep: char)
    requires Collapsed(s, rep)
    ensures Collapsed(Strip(s), rep)
  {
    var l := LStrip(s);
    LStripShape(s);
    RStripShape(l);
    CollapsedSlice(s, rep, |s| - |l|, |s|);
    assert l == s[|s| - |l|..|s|];
    var r := RStrip(l);
    CollapsedSlice(l, rep, 0, |r|);
    assert r == l[0..|r|];
  }

  /** Every character of the stripped text is a character of the text. */
  lemma StripChars(s: string)
    ensures forall i :: 0 <= i < |Strip(s)| ==> Strip(s)[i] in s
  {
    var l := LStrip(s);
    var r := RStrip(l);
    LStripShape(s);
    RStripShape(l);
    assert r == Strip(s);
    forall i | 0 <= i < |r|
      ensures r[i] in s
    {
      assert r[i] == l[i];
      assert l[i] == s[|s| - |l| + i];
    }
  }

  /** `s.startswith(prefix)` */
  predicate StartsWith(s: string, prefix: string) {
    |prefix| <= |s| && s[..|prefix|] == prefix
  }

  /** A text without the separator is not split at all. */
  lemma SplitNone(s: string, sep: char)
    requires sep !in s
    ensures Split(s, [sep]) == [s]
  {
    forall j: nat | j <= |s|
      ensures !OccursAt(s, [sep], j)
    {
      if j < |s| {
        assert s[j..j + 1][0] == s[j];
      }
    }
  }

  /** Splitting `a + sep + rest`, where `a` has no separator, gives `a` and
      then the parts of `rest`. */
  lemma SplitCons(a: string, rest: string, sep: char)
    requires sep !in a
    ensures Split(a + [sep] + rest, [sep]) == [a] + Split(rest, [sep])
  {
    var s := a + [sep] + rest;
    assert OccursAt(s, [sep], |a|);
    forall j: nat | j < |a|
      ensures !OccursAt(s, [sep], j)
    {
      assert s[j..j + 1][0] == a[j];
    }
    assert s[..|a|] == a && s[|a| + 1..] == rest;
  }

  /** Splitting `a + sep + b` at a separator that occurs in neither part gives
      exactly the two parts. */
  lemma SplitOnce(a: string, b: string, sep: char)
    requires sep !in a && sep !in b
    ensures Split(a + [sep] + b, [sep]) == [a, b]
  {
    SplitCons(a, b, sep);
    SplitNone(b, sep);
  }

  /** Three separator-free parts joined by the separator split back into
      those parts. */
  lemma SplitThree(a: string, b: string, c: string, sep: char)
    requires sep !in a && sep !in b && sep !in c
    ensures Split(a + [sep] + b + [sep] + c, [sep]) == [a, b, c]
  {
    var rest := b + [sep] + c;
    AppendAssoc(a + [sep] + b, [sep], c);
    AppendAssoc(a + [sep], b, [sep]);
    AppendAssoc(a + [sep], b + [sep], c);
    SplitOnce(b, c, sep);
    SplitCons(a, rest, sep);
  }

  /** Python slice `s[:stop]`, with negative `stop` counted from the end and clamping. */
  function SliceTo<T>(s: seq<T>, stop: int): (r: seq<T>)
    ensures |r| <= |s| && r == s[..|r|]
    ensures stop >= 0 ==> |r| <= stop
  {
    if stop >= 0 then (if stop >= |s| then s else s[..stop])
    else if |s| + stop <= 0 then []
    else s[..|s| + stop]
  }

  /** Python slice `s[start:]`, with negative `start` counted from the end and clamping. */
  function SliceFrom<T>(s: seq<T>, start: int): (r: seq<T>)
    ensures |r| <= |s| && r == s[|s| - |r|..]
    ensures start < 0 ==> |r| <= -start
  {
    if start >= 0 then (if start >= |s| then [] else s[start..])
    else if |s| + start <= 0 then s
    else s[|s| + start..]
  }

  /** Python slice `s[a:b]` for a non-negative start. */
  function Slice<T>(s: seq<T>, a: nat, b: int): (r: seq<T>)
    ensures |r| <= |s| && (a <= b ==> |r| <= b - a)
  {
    var hi := if b >= 0 then (if b <= |s| then b else |s|) else (if |s| + b <= 0 then 0 else |s| + b);
    if a <= hi then s[a..hi] else []
  }

  function DigitChar(d: nat): char
    requires d < 10
  {
    ('0' as int + d) as char
  }

  /** `str(n)` for a non-negative integer. */
  function NatToString(n: nat): (r: string)
    ensures |r| >= 1
    ensures forall i :: 0 <= i < |r| ==> '0' <= r[i] <= '9'
  {
    if n < 10 then [DigitChar(n)] else NatToString(n / 10) + [DigitChar(n % 10)]
  }

  function IntToString(n: int): string {
    if n < 0 then "-" + NatToString(-n) else NatToString(n)
  }

  predicate IsArabicChar(c: char) {
    '\U{0600}' <= c <= '\U{06FF}'
  }

  /** Some character of the text lies in the Arabic block U+0600..U+06FF
      (`re.search(r'[\u0600-\u06FF]', text)`). */
  function IsArabic(text: string): (r: bool)
    ensures r <==> exists i :: 0 <= i < |text| && IsArabicChar(text[i])
  {
    if text == [] then false
    else if IsArabicChar(text[0]) then true
    else
      var r := IsArabic(text[1..]);
      assert forall i :: 1 <= i < |text| ==> text[i] == text[1..][i - 1];
      r
  }
}
