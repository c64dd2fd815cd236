/** api/services/document_processor.py: `_chunk_text`, the paragraph-based
    chunker of the document service (reading files, mock embeddings and the
    database writes around it are not part of this model). */
module DocumentService {

  import opened Common
  import opened PyText
  import TextSplitting

  /** `[x.strip() for x in parts if x.strip()]` */
  function StrippedNonBlank(parts: seq<string>): (r: seq<string>)
    ensures |r| <= |parts|
    ensures forall k :: 0 <= k < |r| ==> Stripped(r[k])
  {
    if parts == [] then []
    else
      var s := Strip(parts[0]);
      if s != [] then [s] + StrippedNonBlank(parts[1..]) else StrippedNonBlank(parts[1..])
  }

  /** The paragraphs: the text split on blank lines, stripped, empty ones
      dropped. */
  function Paragraphs(text: string): seq<string> {
    StrippedNonBlank(Split(text, "\n\n"))
  }

  /** The lines of a paragraph, stripped, empty ones dropped. */
  function Lines(p: string): seq<string> {
    StrippedNonBlank(Split(p, "\n"))
  }

  /** The `chunk_size` slice `s[pos:pos + chunk_size]`, stripped. */
  function Piece(s: string, chunkSize: int, pos: nat): string
    requires chunkSize > 0 && pos <= |s|
  {
    Strip(s[pos..if pos + chunkSize <= |s| then pos + chunkSize else |s|])
  }

  /** A slice is no longer than a chunk. */
  lemma PieceBounded(s: string, chunkSize: int, pos: nat)
    requires chunkSize > 0 && pos <= |s|
    ensures |Piece(s, chunkSize, pos)| <= chunkSize
  {
  }

  /** Consecutive `chunk_size` slices of a line from `pos` on, each stripped
      and kept even when that leaves it empty. */
  function Slices(line: string, chunkSize: int, pos: nat): seq<string>
    requires chunkSize > 0
    decreases |line| - pos
  {
    if pos >= |line| then []
    else [Piece(line, chunkSize, pos)] + Slices(line, chunkSize, pos + chunkSize)
  }

  /** No slice is longer than a chunk. */
  lemma {:induction false} SlicesBounded(line: string, chunkSize: int, pos: nat)
    requires chunkSize > 0
    ensures TextSplitting.AllAtMost(Slices(line, chunkSize, pos), chunkSize)
    decreases |line| - pos
  {
    if pos < |line| {
      SlicesBounded(line, chunkSize, pos + chunkSize);
      PieceBounded(line, chunkSize, pos);
      TextSplitting.ConsBounds(Piece(line, chunkSize, pos), Slices(line, chunkSize, pos + chunkSize), chunkSize);
    }
  }

  /** The fallback: consecutive `chunk_size` slices of the text from `pos`
      on, stripped, empty ones dropped. */
  function FixedSlices(text: string, chunkSize: int, pos: nat): seq<string>
    requires chunkSize > 0
    decreases |text| - pos
  {
    if pos >= |text| then []
    else Kept(Piece(text, chunkSize, pos)) + FixedSlices(text, chunkSize, pos + chunkSize)
  }

  /** A stripped slice is kept only when it is not empty. */
  function Kept(part: string): seq<string> {
    if part != [] then [part] else []
  }

  /** No slice of the fallback is longer than a chunk. */
  lemma {:induction false} FixedSlicesBounded(text: string, chunkSize: int, pos: nat)
    requires chunkSize > 0
    ensures TextSplitting.AllAtMost(FixedSlices(text, chunkSize, pos), chunkSize)
    decreases |text| - pos
  {
    if pos < |text| {
      var part := Piece(text, chunkSize, pos);
      var rest := FixedSlices(text, chunkSize, pos + chunkSize);
      FixedSlicesBounded(text, chunkSize, pos + chunkSize);
      PieceBounded(text, chunkSize, pos);
      if part != [] {
        TextSplitting.ConsBounds(part, rest, chunkSize);
      } else {
        assert Kept(part) + rest == rest;
      }
    }
  }

  /** The state of the line loop: the chunks so far and the pending `cur`. */
  datatype LineAcc = LineAcc(chunks: seq<string>, cur: string)

  /** One round of the line loop: a line that still fits (counting the
      joining newline) is added to `cur`; otherwise `cur` is emitted, and the
      line either starts the next `cur` or, when longer than a chunk, is cut
      into slices. */
  function LineStep(a: LineAcc, line: string, chunkSize: int): LineAcc
    requires chunkSize > 0
  {
    if |a.cur| + 1 + |line| <= chunkSize then
      LineAcc(a.chunks, if a.cur != [] then Strip(a.cur + "\n" + line) else line)
    else
      var flushed := a.chunks + (if a.cur != [] then [a.cur] else []);
      if |line| > chunkSize then LineAcc(flushed + Slices(line, chunkSize, 0), [])
      else LineAcc(flushed, line)
  }

  /** The line loop over `lines`, in order. */
  function LinesFold(a: LineAcc, lines: seq<string>, chunkSize: int): LineAcc
    requires chunkSize > 0
  {
    if lines == [] then a
    else LineStep(LinesFold(a, lines[..|lines| - 1], chunkSize), lines[|lines| - 1], chunkSize)
  }

  /** The chunks one paragraph adds: itself when it fits, else the chunks of
      its line loop and the last pending `cur`. */
  function ParagraphChunks(chunks: seq<string>, p: string, chunkSize: int): seq<string>
    requires chunkSize > 0
  {
    if |p| <= chunkSize then chunks + [p]
    else
      var a := LinesFold(LineAcc(chunks, []), Lines(p), chunkSize);
      a.chunks + (if a.cur != [] then [a.cur] else [])
  }

  /** The paragraph loop over `ps`, in order. */
  function ParagraphsFold(ps: seq<string>, chunkSize: int): seq<string>
    requires chunkSize > 0
  {
    if ps == [] then []
    else ParagraphChunks(ParagraphsFold(ps[..|ps| - 1], chunkSize), ps[|ps| - 1], chunkSize)
  }

  /** What `_chunk_text` returns: the paragraph chunks, or the fixed slices
      when there are none and the text is not empty. */
  function ChunkTextSpec(text: string, chunkSize: int): seq<string>
    requires chunkSize > 0
  {
    var c := ParagraphsFold(Paragraphs(text), chunkSize);
    if c == [] && text != [] then FixedSlices(text, chunkSize, 0) else c
  }

  /** One round of the slice loop: the slice at `pos` is added. */
  lemma SlicesStep(chunks: seq<string>, line: string, chunkSize: int, pos: nat)
    requires chunkSize > 0 && pos < |line|
    ensures chunks + Slices(line, chunkSize, pos)
      == (chunks + [Piece(line, chunkSize, pos)]) + Slices(line, chunkSize, pos + chunkSize)
  {
    AppendAssoc(chunks, [Piece(line, chunkSize, pos)], Slices(line, chunkSize, pos + chunkSize));
  }

  /** The slice loop for a line longer than a chunk. */
  method AppendSlices(chunks: seq<string>, line: string, chunkSize: int) returns (chunks': seq<string>)
    requires chunkSize > 0
    ensures chunks' == chunks + Slices(line, chunkSize, 0)
  {
    chunks' := chunks;
    var pos: nat := 0;
    while pos < |line|
      invariant chunks + Slices(line, chunkSize, 0) == chunks' + Slices(line, chunkSize, pos)
      decreases |line| - pos
    {
      SlicesStep(chunks', line, chunkSize, pos);
      chunks' := chunks' + [Piece(line, chunkSize, pos)];
      pos := pos + chunkSize;
    }
    assert chunks' + [] == chunks';
  }

  /** The line loop of a paragraph longer than a chunk. */
  method ChunkLines(chunks: seq<string>, lines: seq<string>, chunkSize: int) returns (chunks': seq<string>, cur: string)
    requires chunkSize > 0
    ensures LineAcc(chunks', cur) == LinesFold(LineAcc(chunks, []), lines, chunkSize)
  {
    chunks', cur := chunks, [];
    var j := 0;
    while j < |lines|
      invariant 0 <= j <= |lines|
      invariant LineAcc(chunks', cur) == LinesFold(LineAcc(chunks, []), lines[..j], chunkSize)
    {
      assert lines[..j + 1][..j] == lines[..j];
      var line := lines[j];
      if |cur| + 1 + |line| <= chunkSize {
        cur := if cur != [] then Strip(cur + "\n" + line) else line;
      } else {
        if cur != [] {
          chunks' := chunks' + [cur];
        }
        if |line| > chunkSize {
          chunks' := AppendSlices(chunks', line, chunkSize);
          cur := [];
        } else {
          cur := line;
        }
      }
      j := j + 1;
    }
    assert lines[..j] == lines;
  }

  /** The fallback slice loop. */
  method AppendFixedSlices(text: string, chunkSize: int) returns (chunks: seq<string>)
    requires chunkSize > 0
    ensures chunks == FixedSlices(text, chunkSize, 0)
  {
    chunks := [];
    var pos: nat := 0;
    while pos < |text|
      invariant FixedSlices(text, chunkSize, 0) == chunks + FixedSlices(text, chunkSize, pos)
      decreases |text| - pos
    {
      var kept := Kept(Piece(text, chunkSize, pos));
      AppendAssoc(chunks, kept, FixedSlices(text, chunkSize, pos + chunkSize));
      chunks := chunks + kept;
      pos := pos + chunkSize;
    }
    assert chunks + [] == chunks;
  }

  /** `_chunk_text`; a chunk size that is not positive never finishes the
      slice loops, so it is excluded. */
  method ChunkText(text: string, chunkSize: int) returns (chunks: seq<string>)
    requires chunkSize > 0
    ensures chunks == ChunkTextSpec(text, chunkSize)
  {
    var paragraphs := Paragraphs(text);
    chunks := [];
    var i := 0;
    while i < |paragraphs|
      invariant 0 <= i <= |paragraphs|
      invariant chunks == ParagraphsFold(paragraphs[..i], chunkSize)
    {
      assert paragraphs[..i + 1][..i] == paragraphs[..i];
      var p := paragraphs[i];
      if |p| <= chunkSize {
        chunks := chunks + [p];
      } else {
        var cur;
        chunks, cur := ChunkLines(chunks, Lines(p), chunkSize);
        if cur != [] {
          chunks := chunks + [cur];
        }
      }
      i := i + 1;
    }
    assert paragraphs[..i] == paragraphs;
    if chunks == [] && text != [] {
      chunks := AppendFixedSlices(text, chunkSize);
    }
  }

  /** One round of the line loop keeps every chunk and the pending `cur`
      within a chunk. */
  lemma LineStepBounded(a: LineAcc, line: string, chunkSize: int)
    requires chunkSize > 0 && TextSplitting.AllAtMost(a.chunks, chunkSize) && |a.cur| <= chunkSize
    ensures var b := LineStep(a, line, chunkSize);
      TextSplitting.AllAtMost(b.chunks, chunkSize) && |b.cur| <= chunkSize
  {
    if |a.cur| + 1 + |line| > chunkSize {
      var flushed := a.chunks + (if a.cur != [] then [a.cur] else []);
      assert TextSplitting.AllAtMost(flushed, chunkSize);
      if |line| > chunkSize {
        var s := Slices(line, chunkSize, 0);
        SlicesBounded(line, chunkSize, 0);
        assert forall k :: 0 <= k < |flushed + s| ==> (flushed + s)[k] == if k < |flushed| then flushed[k] else s[k - |flushed|];
      }
    }
  }

  lemma {:induction false} LinesFoldBounded(a: LineAcc, lines: seq<string>, chunkSize: int)
    requires chunkSize > 0 && TextSplitting.AllAtMost(a.chunks, chunkSize) && |a.cur| <= chunkSize
    ensures var b := LinesFold(a, lines, chunkSize);
      TextSplitting.AllAtMost(b.chunks, chunkSize) && |b.cur| <= chunkSize
    decreases |lines|
  {
    if lines != [] {
      LinesFoldBounded(a, lines[..|lines| - 1], chunkSize);
      LineStepBounded(LinesFold(a, lines[..|lines| - 1], chunkSize), lines[|lines| - 1], chunkSize);
    }
  }

  lemma {:induction false} ParagraphsFoldBounded(ps: seq<string>, chunkSize: int)
    requires chunkSize > 0
    ensures TextSplitting.AllAtMost(ParagraphsFold(ps, chunkSize), chunkSize)
    decreases |ps|
  {
    if ps != [] {
      var before := ParagraphsFold(ps[..|ps| - 1], chunkSize);
      ParagraphsFoldBounded(ps[..|ps| - 1], chunkSize);
      var p := ps[|ps| - 1];
      if |p| > chunkSize {
        LinesFoldBounded(LineAcc(before, []), Lines(p), chunkSize);
      }
    }
  }

  /** No chunk `_chunk_text` returns is longer than `chunk_size`. */
  lemma ChunksBounded(text: string, chunkSize: int)
    requires chunkSize > 0
    ensures TextSplitting.AllAtMost(ChunkTextSpec(text, chunkSize), chunkSize)
  {
    ParagraphsFoldBounded(Paragraphs(text), chunkSize);
    FixedSlicesBounded(text, chunkSize, 0);
  }

  /** A text whose paragraphs all fit gives exactly its paragraphs, in order. */
  lemma {:induction false} ShortParagraphsKept(ps: seq<string>, chunkSize: int)
    requires chunkSize > 0
    requires forall k :: 0 <= k < |ps| ==> |ps[k]| <= chunkSize
    ensures ParagraphsFold(ps, chunkSize) == ps
    decreases |ps|
  {
    if ps != [] {
      ShortParagraphsKept(ps[..|ps| - 1], chunkSize);
      assert ps == ps[..|ps| - 1] + [ps[|ps| - 1]];
    }
  }

  /** Every piece of a split is made of characters of the text. */
  lemma {:induction false} SplitPiecesFromText(s: string, sep: string)
    requires sep != []
    ensures forall k :: 0 <= k < |Split(s, sep)| ==> forall c :: c in Split(s, sep)[k] ==> c in s
    decreases |s|
  {
    var i := Find(s, sep);
    if i != -1 {
      SplitPiecesFromText(s[i + |sep|..], sep);
    }
  }

  /** Blank parts have no non-blank stripped part. */
  lemma {:induction false} BlankPartsDropped(parts: seq<string>, text: string)
    requires IsBlank(text)
    requires forall k :: 0 <= k < |parts| ==> forall c :: c in parts[k] ==> c in text
    ensures StrippedNonBlank(parts) == []
  {
    if parts != [] {
      assert IsBlank(parts[0]) by {
        forall i | 0 <= i < |parts[0]|
          ensures IsSpace(parts[0][i])
        {
          assert parts[0][i] in text;
        }
      }
      StripEmptyIffBlank(parts[0]);
      BlankPartsDropped(parts[1..], text);
    }
  }

  /** The fallback over blank text keeps nothing. */
  lemma {:induction false} BlankSlicesDropped(text: string, chunkSize: int, pos: nat)
    requires chunkSize > 0 && IsBlank(text)
    ensures FixedSlices(text, chunkSize, pos) == []
    decreases |text| - pos
  {
    if pos < |text| {
      BlankPiece(text, chunkSize, pos);
      BlankSlicesDropped(text, chunkSize, pos + chunkSize);
      assert FixedSlices(text, chunkSize, pos) == [] + [];
    }
  }

  /** A slice of blank text strips to nothing. */
  lemma BlankPiece(text: string, chunkSize: int, pos: nat)
    requires chunkSize > 0 && IsBlank(text) && pos < |text|
    ensures Kept(Piece(text, chunkSize, pos)) == []
  {
    var piece := text[pos..if pos + chunkSize <= |text| then pos + chunkSize else |text|];
    assert IsBlank(piece) by {
      forall i | 0 <= i < |piece|
        ensures IsSpace(piece[i])
      {
        assert piece[i] == text[pos + i];
      }
    }
    StripEmptyIffBlank(piece);
  }

  /** Empty or whitespace-only text gives no chunk at all. */
  lemma BlankTextGivesNothing(text: string, chunkSize: int)
    requires chunkSize > 0 && IsBlank(text)
    ensures ChunkTextSpec(text, chunkSize) == []
  {
    SplitPiecesFromText(text, "\n\n");
    BlankPartsDropped(Split(text, "\n\n"), text);
    BlankSlicesDropped(text, chunkSize, 0);
  }

  /** A line with a run of spaces at least a chunk long yields an empty
      chunk: the slices are stripped but, unlike the fallback's, not
      filtered. */
  lemma WhitespaceSliceGivesEmptyChunk()
    ensures LineStep(LineAcc([], []), "a    b", 2).chunks == ["a", "", "b"]
  {
    SlicesOfSpacedLine("a    b");
  }

  lemma SlicesOfSpacedLine(line: string)
    requires line == "a    b"
    ensures Slices(line, 2, 0) == ["a", "", "b"]
  {
    assert line[0..2] == "a " && line[2..4] == "  " && line[4..6] == " b";
    StripExamples();
    assert Piece(line, 2, 0) == "a" && Piece(line, 2, 2) == "" && Piece(line, 2, 4) == "b";
    SliceUnfold(line, 2, 4);
    SliceUnfold(line, 2, 2);
    SliceUnfold(line, 2, 0);
  }

  lemma SliceUnfold(line: string, chunkSize: int, pos: nat)
    requires chunkSize > 0 && pos < |line|
    ensures Slices(line, chunkSize, pos) == [Piece(line, chunkSize, pos)] + Slices(line, chunkSize, pos + chunkSize)
  {
  }

  lemma StripExamples()
    ensures Strip("a ") == "a" && Strip("  ") == "" && Strip(" b") == "b"
  {
    assert LStrip("a ") == "a ";
    assert RStrip("a ") == RStrip("a");
    assert LStrip("  ") == LStrip(" ") == LStrip("");
    assert LStrip(" b") == LStrip("b") == "b";
  }
}
