/** document_processing/chunking/text_splitter.py: splitting a long text at
    the first separator it contains, merging the pieces into chunks of
    about `chunk_size` characters with an overlap, and cutting pieces that
    are too long by force. */
module TextSplitting {

  import opened Common
  import opened PyText

  /** The separators used when none are given, in order of preference. */
  function DefaultSeparators(): seq<string> {
    ["\n\n", "\n", ". ", "。", "؟ ", "! ", "؛ ", ", ", " ", ""]
  }

  /** `list(text)`: one string per character. */
  function Chars(s: string): (r: seq<string>)
    ensures |r| == |s| && forall i :: 0 <= i < |s| ==> r[i] == [s[i]]
  {
    seq(|s|, i requires 0 <= i < |s| => [s[i]])
  }

  /** Joining the characters again gives the text back. */
  lemma {:induction false} JoinChars(s: string)
    ensures Join(Chars(s), "") == s
    decreases |s|
  {
    if |s| >= 2 {
      var rest := Chars(s[1..]);
      assert Chars(s) == [[s[0]]] + rest;
      JoinChars(s[1..]);
      JoinCons([s[0]], rest, "");
      assert [s[0]] + "" + s[1..] == s;
    } else if |s| == 1 {
      assert s == [s[0]];
      assert Chars(s) == [s];
    }
  }

  /** The separator `_split_by_separators` uses: the first that is empty or
      occurs in the text. */
  function ChosenSeparator(text: string, seps: seq<string>): (r: Option<string>)
    ensures r.Some? ==> r.value in seps && (r.value == [] || Contains(text, r.value))
    ensures r.None? ==> forall i :: 0 <= i < |seps| ==> seps[i] != [] && !Contains(text, seps[i])
    ensures r.Some? ==> exists i :: 0 <= i < |seps| && seps[i] == r.value
                                  && forall j :: 0 <= j < i ==> seps[j] != [] && !Contains(text, seps[j])
  {
    if seps == [] then None
    else if seps[0] == [] || Contains(text, seps[0]) then Some(seps[0])
    else
      var r := ChosenSeparator(text, seps[1..]);
      assert r.Some? ==> exists i :: 0 <= i < |seps| && seps[i] == r.value
                                     && forall j :: 0 <= j < i ==> seps[j] != [] && !Contains(text, seps[j]) by {
        if r.Some? {
          var i :| 0 <= i < |seps[1..]| && seps[1..][i] == r.value
                   && forall j :: 0 <= j < i ==> seps[1..][j] != [] && !Contains(text, seps[1..][j]);
          forall j | 0 <= j < i + 1
            ensures seps[j] != [] && !Contains(text, seps[j])
          {
            if j > 0 { assert seps[j] == seps[1..][j - 1]; }
          }
          assert seps[i + 1] == r.value;
        }
      }
      r
  }

  /** `_split_by_separators`: single characters for the empty separator,
      `text.split(sep)` for one that occurs, `[text]` when none does. */
  function SplitBySeparators(text: string, seps: seq<string>): (r: seq<string>)
    ensures ChosenSeparator(text, seps).None? ==> r == [text]
  {
    match ChosenSeparator(text, seps)
    case None => [text]
    case Some(sep) => if sep == [] then Chars(text) else Split(text, sep)
  }

  /** The pieces joined with the chosen separator give the text back. */
  lemma SplitBySeparatorsJoins(text: string, seps: seq<string>)
    requires ChosenSeparator(text, seps).Some?
    ensures Join(SplitBySeparators(text, seps), ChosenSeparator(text, seps).value) == text
  {
    var sep := ChosenSeparator(text, seps).value;
    if sep == [] {
      JoinChars(text);
    } else {
      JoinSplit(text, sep);
    }
  }

  /** A piece up to `end` followed by pieces that join to the rest of the
      text joins to the text from `start` on. */
  lemma JoinPartition(text: string, start: nat, end: nat, piece: string, rest: seq<string>)
    requires start <= end <= |text| && piece == text[start..end]
    requires rest != [] && Join(rest, "") == text[end..]
    ensures Join([piece] + rest, "") == text[start..]
  {
    JoinCons(piece, rest, "");
    assert piece + "" == piece;
    SplitAt(text, start, end);
  }

  /** No string of the list is longer than `n`. */
  predicate AllAtMost(pieces: seq<string>, n: int) {
    forall k :: 0 <= k < |pieces| ==> |pieces[k]| <= n
  }

  /** No string of the list is empty. */
  predicate AllNonEmpty(pieces: seq<string>) {
    forall k :: 0 <= k < |pieces| ==> pieces[k] != []
  }

  /** Both properties carry over to a list with one more string in front. */
  lemma ConsBounds(x: string, rest: seq<string>, n: int)
    ensures AllAtMost(rest, n) && |x| <= n ==> AllAtMost([x] + rest, n)
    ensures AllNonEmpty(rest) && x != [] ==> AllNonEmpty([x] + rest)
  {
    assert forall k :: 1 <= k < |[x] + rest| ==> ([x] + rest)[k] == rest[k - 1];
  }

  /** Before the first round nothing is done. */
  lemma NoneDone<T>(whole: seq<T>)
    ensures [] + whole == whole
  {
  }

  /** After the last round nothing is left. */
  lemma AllDone<T>(done: seq<T>)
    ensures done + [] == done
  {
  }

  /** Moving the first of the remaining elements onto the done ones keeps
      the whole. */
  lemma MoveFirst<T>(done: seq<T>, x: T, rest: seq<T>, whole: seq<T>)
    requires done + ([x] + rest) == whole
    ensures (done + [x]) + rest == whole
  {
    assert done + ([x] + rest) == (done + [x]) + rest;
  }

  /** The state of the merge loop of `split_text`. */
  datatype Acc = Acc(chunks: seq<string>, current: string)

  /** The pending chunk, stripped, when there is one. */
  function Flush(current: string): (r: seq<string>)
    ensures current == [] ==> r == []
    ensures current != [] ==> r == [Strip(current)]
  {
    if current != [] then [Strip(current)] else []
  }

  function Max0(x: int): int {
    if x > 0 then x else 0
  }

  class TextSplitter {
    const chunkSize: int
    const chunkOverlap: int
    const separators: seq<string>

    /** `TextSplitter(chunk_size, chunk_overlap, separators)`: a missing or
        empty separator list means the default one. */
    constructor (chunkSize: int, chunkOverlap: int, separators: Option<seq<string>>)
      ensures this.chunkSize == chunkSize && this.chunkOverlap == chunkOverlap
      ensures this.separators == if separators.Some? && separators.value != [] then separators.value else DefaultSeparators()
    {
      this.chunkSize := chunkSize;
      this.chunkOverlap := chunkOverlap;
      this.separators := if separators.Some? && separators.value != [] then separators.value else DefaultSeparators();
    }

    /** `min(50, chunk_size // 4)`, how far back a forced cut may move. */
    function BackOff(): int {
      if chunkSize / 4 < 50 then chunkSize / 4 else 50
    }

    /** The back-off is at most 50 and, when positive, a quarter of the
        chunk size at most. */
    lemma BackOffBounds()
      ensures BackOff() <= 50 && (BackOff() > 0 ==> 4 * BackOff() <= chunkSize)
    {
    }

    /** `_force_split` advances on every round whenever this holds (a
        sufficient condition: a text without spaces may advance without it). */
    predicate Terminates() {
      chunkSize - chunkOverlap - Max0(BackOff() - 1) > 0
    }

    /** The inner loop of `_force_split`: the first `i` from `from` on,
        below the back-off, with a space at `e - i`; `e` when there is none. */
    function SpaceBefore(text: string, e: int, from: nat): int
      requires 0 <= e < |text| && BackOff() - 1 <= e
      decreases BackOff() - from
    {
      if from >= BackOff() then e
      else if text[e - from] == ' ' then e - from
      else SpaceBefore(text, e, from + 1)
    }

    /** The inner loop stops at `e` or on a space within the back-off. */
    lemma {:induction false} SpaceBeforeFound(text: string, e: int, from: nat)
      requires 0 <= e < |text| && BackOff() - 1 <= e
      ensures var r := SpaceBefore(text, e, from);
        r == e || (e - BackOff() < r <= e - from && text[r] == ' ')
      decreases BackOff() - from
    {
      if from < BackOff() && text[e - from] != ' ' {
        SpaceBeforeFound(text, e, from + 1);
      }
    }

    /** Where a forced piece starting at `start` ends: `chunk_size` further,
        moved back onto a space within the back-off when the text goes on. */
    function CutPoint(text: string, start: nat): int {
      var e := start + chunkSize;
      if e < |text| && BackOff() > 0 then SpaceBefore(text, e, 0) else e
    }

    /** A cut lies at most `back-off - 1` before `start + chunk_size`, and
        when it moved back it landed on a space of the text. */
    lemma CutPointBounds(text: string, start: nat)
      ensures var end := CutPoint(text, start);
        start + chunkSize - Max0(BackOff() - 1) <= end <= start + chunkSize
        && (end < start + chunkSize ==> 0 <= end < |text| && text[end] == ' ')
    {
      var e := start + chunkSize;
      if e < |text| && BackOff() > 0 {
        SpaceBeforeFound(text, e, 0);
      }
    }

    /** The pieces `_force_split` returns from `start` on: each piece ends at
        its cut point, and the next starts `chunk_overlap` before it. */
    function Pieces(text: string, start: nat): seq<string>
      requires Terminates()
      decreases |text| - start
    {
      if start >= |text| then []
      else
        var end := CutPoint(text, start);
        CutPointBounds(text, start);
        [Slice(text, start, end)] + Pieces(text, end - chunkOverlap)
    }

    /** The first forced piece from `start` is at most a chunk long, and not
        empty when the overlap is not negative. */
    lemma FirstPieceBounds(text: string, start: nat)
      requires Terminates() && start < |text|
      ensures chunkSize >= 0 ==> |Slice(text, start, CutPoint(text, start))| <= chunkSize
      ensures chunkOverlap >= 0 ==> Slice(text, start, CutPoint(text, start)) != []
    {
      CutPointBounds(text, start);
    }

    /** No forced piece is longer than a chunk, and none is empty. */
    lemma {:induction false} PiecesBounded(text: string, start: nat)
      requires Terminates()
      ensures chunkSize >= 0 ==> AllAtMost(Pieces(text, start), chunkSize)
      ensures chunkOverlap >= 0 ==> AllNonEmpty(Pieces(text, start))
      decreases |text| - start
    {
      if start < |text| {
        PiecesStep(text, start);
        FirstPieceBounds(text, start);
        var end := CutPoint(text, start);
        PiecesBounded(text, end - chunkOverlap);
        ConsBounds(Slice(text, start, end), Pieces(text, end - chunkOverlap), chunkSize);
      }
    }

    /** One round of the forced split: the piece up to the cut point, then
        the pieces from `chunk_overlap` before it. */
    lemma PiecesStep(text: string, start: nat)
      requires Terminates() && start < |text|
      ensures CutPoint(text, start) - chunkOverlap > start
      ensures Pieces(text, start) == [Slice(text, start, CutPoint(text, start))] + Pieces(text, CutPoint(text, start) - chunkOverlap)
    {
      CutPointBounds(text, start);
    }

    /** With `chunk_overlap >= chunk_size` a round of `_force_split` never
        moves on: the next start is at or before the current one, so the
        loop repeats the same piece for ever. */
    lemma OverlapStalls(text: string, start: nat)
      requires chunkOverlap >= chunkSize && start < |text|
      ensures CutPoint(text, start) - chunkOverlap <= start
    {
      CutPointBounds(text, start);
    }

    /** A text left to cut gives at least one piece. */
    lemma PiecesNonEmpty(text: string, start: nat)
      requires Terminates() && start < |text|
      ensures Pieces(text, start) != []
    {
    }

    /** Nothing is left to cut past the end of the text. */
    lemma PiecesDone(text: string, start: nat)
      requires Terminates() && start >= |text|
      ensures Pieces(text, start) == []
    {
    }

    /** Without overlap the forced pieces partition the text. */
    lemma {:induction false} PiecesPartition(text: string, start: nat)
      requires Terminates() && chunkOverlap == 0 && start <= |text|
      ensures Join(Pieces(text, start), "") == text[start..]
      decreases |text| - start
    {
      if start < |text| {
        PiecesStep(text, start);
        var end := CutPoint(text, start);
        if end >= |text| {
          assert Pieces(text, end) == [];
          assert Slice(text, start, end) == text[start..];
        } else {
          assert Pieces(text, start) == [Slice(text, start, end)] + Pieces(text, end);
          PiecesNonEmpty(text, end);
          PiecesPartition(text, end);
          JoinPartition(text, start, end, Slice(text, start, end), Pieces(text, end));
        }
      }
    }

    /** The cut of one round of `_force_split`: `chunk_size` on from `start`,
        then, when the text goes on, back to the first space found within
        the back-off. */
    method CutAt(text: string, start: nat) returns (end: int)
      ensures end == CutPoint(text, start)
    {
      end := start + chunkSize;
      if end < |text| {
        BackOffBounds();
        var e := end;
        var i := 0;
        while i < BackOff()
          invariant 0 <= i && end == e
          invariant BackOff() > 0 ==> SpaceBefore(text, e, i) == CutPoint(text, start)
          decreases BackOff() - i
        {
          if text[e - i] == ' ' {
            end := e - i;
            break;
          }
          i := i + 1;
        }
      }
    }

    /** A round of the forced split moves its piece from the pieces left to
        the pieces done. */
    lemma PiecesAppend(text: string, start: nat, chunks: seq<string>)
      requires Terminates() && start < |text|
      ensures CutPoint(text, start) - chunkOverlap > start
      ensures (chunks + [Slice(text, start, CutPoint(text, start))]) + Pieces(text, CutPoint(text, start) - chunkOverlap) == chunks + Pieces(text, start)
    {
      PiecesStep(text, start);
    }

    /** `_force_split` */
    method ForceSplit(text: string) returns (chunks: seq<string>)
      requires Terminates()
      ensures chunks == Pieces(text, 0)
    {
      chunks := [];
      var start: nat := 0;
      NoneDone(Pieces(text, 0));
      while start < |text|
        invariant chunks + Pieces(text, start) == Pieces(text, 0)
        decreases |text| - start
      {
        var end := CutAt(text, start);
        PiecesAppend(text, start, chunks);
        chunks := chunks + [Slice(text, start, end)];
        start := end - chunkOverlap;
      }
      PiecesDone(text, start);
      AllDone(chunks);
    }

    /** One round of the merge loop of `split_text`: a piece longer than a
        chunk flushes the pending chunk and is cut by force; a piece that
        would overflow flushes it and starts the next chunk, behind the last
        `chunk_overlap` characters of the last chunk when there is one; any
        other piece is appended. */
    function Absorb(acc: Acc, split: string): (r: Acc)
      requires Terminates()
      ensures |split| > chunkSize ==> r == Acc(acc.chunks + Flush(acc.current) + Pieces(split, 0), [])
      ensures |split| <= chunkSize && |acc.current| + |split| > chunkSize ==>
        r.chunks == acc.chunks + Flush(acc.current)
        && r.current == if r.chunks != [] && chunkOverlap > 0 then SliceFrom(r.chunks[|r.chunks| - 1], -chunkOverlap) + split
                        else split
      ensures |split| <= chunkSize && |acc.current| + |split| <= chunkSize ==> r == Acc(acc.chunks, acc.current + split)
    {
      if |split| > chunkSize then Acc(acc.chunks + Flush(acc.current) + Pieces(split, 0), [])
      else if |acc.current| + |split| > chunkSize then
        var chunks := acc.chunks + Flush(acc.current);
        Acc(chunks, if chunks != [] && chunkOverlap > 0 then SliceFrom(chunks[|chunks| - 1], -chunkOverlap) + split else split)
      else Acc(acc.chunks, acc.current + split)
    }

    /** The merge loop over the pieces, in order. */
    function AbsorbAll(splits: seq<string>): Acc
      requires Terminates()
    {
      if splits == [] then Acc([], [])
      else Absorb(AbsorbAll(splits[..|splits| - 1]), splits[|splits| - 1])
    }

    /** The merge loop over one more piece is one more round. */
    lemma AbsorbAllSnoc(splits: seq<string>, i: nat)
      requires Terminates() && i < |splits|
      ensures AbsorbAll(splits[..i + 1]) == Absorb(AbsorbAll(splits[..i]), splits[i])
    {
      assert splits[..i + 1][..i] == splits[..i];
    }

    /** `[c for c in chunks if c.strip()]` */
    function NonBlank(chunks: seq<string>): (r: seq<string>)
      ensures forall c :: c in r ==> c in chunks && !IsBlank(c)
      ensures forall c :: c in chunks && !IsBlank(c) ==> c in r
    {
      if chunks == [] then []
      else
        StripEmptyIffBlank(chunks[0]);
        (if Strip(chunks[0]) != [] then [chunks[0]] else []) + NonBlank(chunks[1..])
    }

    /** `split_text`: empty text gives no chunk, text that fits one chunk
        is returned whole, and otherwise no chunk is blank. */
    function SplitTextSpec(text: string): (r: seq<string>)
      requires Terminates()
      ensures text == [] ==> r == []
      ensures text != [] && |text| <= chunkSize ==> r == [text]
      ensures |text| > chunkSize ==> forall c :: c in r ==> !IsBlank(c)
    {
      if text == [] then []
      else if |text| <= chunkSize then [text]
      else
        var a := AbsorbAll(SplitBySeparators(text, separators));
        NonBlank(a.chunks + Flush(a.current))
    }

    /** The body of the merge loop of `split_text`, for one piece. */
    method MergePiece(chunks: seq<string>, current: string, split: string)
      returns (chunks': seq<string>, current': string)
      requires Terminates()
      ensures Acc(chunks', current') == Absorb(Acc(chunks, current), split)
    {
      chunks', current' := chunks, current;
      if |split| > chunkSize {
        if current' != [] {
          chunks' := chunks' + [Strip(current')];
          current' := [];
        }
        assert chunks' == chunks + Flush(current);
        var forced := ForceSplit(split);
        chunks' := chunks' + forced;
      } else if |current'| + |split| > chunkSize {
        if current' != [] {
          chunks' := chunks' + [Strip(current')];
        }
        assert chunks' == chunks + Flush(current);
        if chunks' != [] && chunkOverlap > 0 {
          var overlap := SliceFrom(chunks'[|chunks'| - 1], -chunkOverlap);
          current' := overlap + split;
        } else {
          current' := split;
        }
      } else {
        current' := current' + split;
      }
    }

    /** `split_text` */
    method SplitText(text: string) returns (r: seq<string>)
      requires Terminates()
      ensures r == SplitTextSpec(text)
    {
      if text == [] || |text| <= chunkSize {
        return if text != [] then [text] else [];
      }
      var chunks: seq<string> := [];
      var current: string := [];
      var splits := SplitBySeparators(text, separators);
      var i := 0;
      while i < |splits|
        invariant 0 <= i <= |splits|
        invariant Acc(chunks, current) == AbsorbAll(splits[..i])
      {
        AbsorbAllSnoc(splits, i);
        chunks, current := MergePiece(chunks, current, splits[i]);
        i := i + 1;
      }
      assert splits[..|splits|] == splits;
      if current != [] {
        chunks := chunks + [Strip(current)];
      }
      assert chunks == AbsorbAll(splits).chunks + Flush(AbsorbAll(splits).current);
      r := NonBlank(chunks);
    }

    /** Every chunk and the pending text stay within `chunk_size` plus
        `chunk_overlap` characters. */
    predicate Bounded(a: Acc) {
      (forall c :: c in a.chunks ==> |c| <= chunkSize + chunkOverlap) && |a.current| <= chunkSize + chunkOverlap
    }

    /** One round of the merge loop keeps the bound. */
    lemma AbsorbBounded(acc: Acc, split: string)
      requires Terminates() && chunkSize >= 0 && chunkOverlap >= 0 && Bounded(acc)
      ensures Bounded(Absorb(acc, split))
    {
      var flushed := acc.chunks + Flush(acc.current);
      assert forall c :: c in flushed ==> |c| <= chunkSize + chunkOverlap;
      var r := Absorb(acc, split);
      if |split| > chunkSize {
        var forced := Pieces(split, 0);
        PiecesBounded(split, 0);
        assert r.chunks == flushed + forced;
        assert forall c :: c in forced ==> |c| <= chunkSize by {
          forall c | c in forced
            ensures |c| <= chunkSize
          {
            var k :| 0 <= k < |forced| && forced[k] == c;
          }
        }
      } else if |acc.current| + |split| > chunkSize {
        if flushed != [] && chunkOverlap > 0 {
          assert |SliceFrom(flushed[|flushed| - 1], -chunkOverlap)| <= chunkOverlap;
        }
      }
    }

    lemma {:induction false} AbsorbAllBounded(splits: seq<string>)
      requires Terminates() && chunkSize >= 0 && chunkOverlap >= 0
      ensures Bounded(AbsorbAll(splits))
      decreases |splits|
    {
      if splits != [] {
        AbsorbAllBounded(splits[..|splits| - 1]);
        AbsorbBounded(AbsorbAll(splits[..|splits| - 1]), splits[|splits| - 1]);
      }
    }

    /** No chunk of `split_text` is longer than `chunk_size + chunk_overlap`;
        without overlap, none is longer than `chunk_size`. */
    lemma ChunksBounded(text: string)
      requires Terminates() && chunkSize >= 0 && chunkOverlap >= 0
      ensures forall c :: c in SplitTextSpec(text) ==> |c| <= chunkSize + chunkOverlap
    {
      if |text| > chunkSize {
        AbsorbAllBounded(SplitBySeparators(text, separators));
      }
    }
  }
}
