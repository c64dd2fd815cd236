/** document_processing/chunking/multilingual_splitter.py: the text splitter
    with Arabic separators, Arabic letter normalisation before splitting and
    removal of a leading conjunction from each chunk. */
module MultilingualSplitting {

  import opened Common
  import opened PyText
  import opened TextSplitting

  /** The separators, in order of preference: paragraphs, lines, sentence
      marks, commas, the conjunctions and, or, then between spaces, a space
      and single characters. */
  function ArabicSeparators(): seq<string> {
    ["\n\n", "\n", ".", "\U{3002}", "\U{061B}", ".", "!", "\U{061F}", "?", "\U{060C}", ",",
     " \U{0648} ", " \U{0623}\U{0648} ", " \U{062B}\U{0645} ", " ", ""]
  }

  /** `MultilingualTextSplitter(chunk_size, chunk_overlap)`, defaults 1000
      and 200. */
  method NewMultilingualSplitter(chunkSize: int, chunkOverlap: int) returns (s: TextSplitter)
    ensures s.chunkSize == chunkSize && s.chunkOverlap == chunkOverlap
    ensures s.separators == ArabicSeparators()
  {
    s := new TextSplitter(chunkSize, chunkOverlap, Some(ArabicSeparators()));
  }

  /** With the default sizes the forced split always advances. */
  lemma DefaultSizesTerminate(s: TextSplitter)
    requires s.chunkSize == 1000 && s.chunkOverlap == 200
    ensures s.Terminates() && s.BackOff() == 50
  {
  }

  /** The hamza forms of alef and bare alef become bare alef, and teh
      marbuta becomes heh. */
  function NormalizeChar(c: char): (r: char)
    ensures r != '\U{0625}' && r != '\U{0623}' && r != '\U{0622}' && r != '\U{0629}'
  {
    if c == '\U{0625}' || c == '\U{0623}' || c == '\U{0622}' || c == '\U{0627}' then '\U{0627}'
    else if c == '\U{0629}' then '\U{0647}'
    else c
  }

  /** The two letter substitutions, character by character. */
  function NormalizeLetters(s: string): (r: string)
    ensures |r| == |s| && forall i :: 0 <= i < |s| ==> r[i] == NormalizeChar(s[i])
  {
    seq(|s|, i requires 0 <= i < |s| => NormalizeChar(s[i]))
  }

  /** The harakat U+064B..U+065F and the superscript alef U+0670. */
  predicate IsDiacritic(c: char) {
    '\U{064B}' <= c <= '\U{065F}' || c == '\U{0670}'
  }

  /** `arabic_diacritics.sub('', text)` */
  function DropDiacritics(s: string): (r: string)
    ensures |r| <= |s|
    ensures forall i :: 0 <= i < |r| ==> r[i] in s && !IsDiacritic(r[i])
    ensures (forall i :: 0 <= i < |s| ==> !IsDiacritic(s[i])) ==> r == s
  {
    if s == [] then []
    else
      var rest := DropDiacritics(s[1..]);
      assert forall i :: 0 <= i < |rest| ==> rest[i] in s;
      if IsDiacritic(s[0]) then rest else [s[0]] + rest
  }

  /** `_clean_arabic_text` */
  function CleanArabicText(text: string): string {
    Strip(SubWs(DropDiacritics(NormalizeLetters(text)), ' '))
  }

  /** A character the cleaning never leaves behind. */
  predicate Removed(c: char) {
    c == '\U{0625}' || c == '\U{0623}' || c == '\U{0622}' || c == '\U{0629}' || IsDiacritic(c)
  }

  /** Cleaned text has no hamza alef, no teh marbuta and no diacritic, its
      whitespace is single spaces, and it has none at either end. */
  lemma CleanedShape(text: string)
    ensures var r := CleanArabicText(text);
      (forall i :: 0 <= i < |r| ==> !Removed(r[i]))
      && Collapsed(r, ' ')
      && (r == [] || (!IsSpace(r[0]) && !IsSpace(r[|r| - 1])))
  {
    var d := DropDiacritics(NormalizeLetters(text));
    assert forall i :: 0 <= i < |d| ==> !Removed(d[i]);
    var w := SubWs(d, ' ');
    assert forall i :: 0 <= i < |w| ==> !Removed(w[i]);
    SubWsCollapses(d, ' ');
    StripCollapsed(w, ' ');
    StripChars(w);
  }

  /** The letter substitutions leave text without those letters as it is. */
  lemma NormalizeFixed(s: string)
    requires forall i :: 0 <= i < |s| ==> !Removed(s[i])
    ensures NormalizeLetters(s) == s
  {
    forall i | 0 <= i < |s|
      ensures NormalizeLetters(s)[i] == s[i]
    {
    }
  }

  /** Cleaning cleaned text changes nothing. */
  lemma CleanIdempotent(text: string)
    ensures CleanArabicText(CleanArabicText(text)) == CleanArabicText(text)
  {
    var c := CleanArabicText(text);
    CleanedShape(text);
    NormalizeFixed(c);
    assert DropDiacritics(c) == c;
    SubWsOfCollapsed(c, ' ');
    StripOfStripped(c);
  }

  /** The conjunctions and, or, then, but, rather, in the order tested. */
  function Conjunctions(): seq<string> {
    ["\U{0648}", "\U{0623}\U{0648}", "\U{062B}\U{0645}", "\U{0644}\U{0643}\U{0646}", "\U{0628}\U{0644}"]
  }

  /** One round of the conjunction loop: when the chunk starts with the
      conjunction and a space, the conjunction is cut off and the rest
      stripped. */
  function CutConjunction(chunk: string, c: string): string {
    if StartsWith(chunk, c + " ") then Strip(chunk[|c|..]) else chunk
  }

  /** The conjunction loop: each conjunction is tested once, in order. */
  function DropConjunctions(chunk: string, conjs: seq<string>): string
    decreases |conjs|
  {
    if conjs == [] then chunk else DropConjunctions(CutConjunction(chunk, conjs[0]), conjs[1..])
  }

  /** A round keeps a stripped chunk stripped and non-empty, and never
      lengthens it. */
  lemma CutConjunctionShape(chunk: string, c: string)
    requires Stripped(chunk)
    ensures Stripped(CutConjunction(chunk, c)) && |CutConjunction(chunk, c)| <= |chunk|
  {
    if StartsWith(chunk, c + " ") {
      var t := chunk[|c|..];
      assert chunk[|c|] == (c + " ")[|c|] == ' ';
      assert |t| >= 2 && t[|t| - 1] == chunk[|chunk| - 1];
      assert !IsBlank(t);
      StripEmptyIffBlank(t);
    }
  }

  /** Stripped non-empty chunks stay stripped and non-empty through the
      loop, and never grow. */
  lemma {:induction false} DropConjunctionsShape(chunk: string, conjs: seq<string>)
    requires Stripped(chunk)
    ensures Stripped(DropConjunctions(chunk, conjs)) && |DropConjunctions(chunk, conjs)| <= |chunk|
    decreases |conjs|
  {
    if conjs != [] {
      CutConjunctionShape(chunk, conjs[0]);
      DropConjunctionsShape(CutConjunction(chunk, conjs[0]), conjs[1..]);
    }
  }

  /** `_post_process_arabic_chunk` */
  function PostProcessArabicChunk(chunk: string): string {
    DropConjunctions(Strip(chunk), Conjunctions())
  }

  /** A chunk that is not blank stays non-empty and stripped after
      post-processing. */
  lemma PostProcessKeepsContent(chunk: string)
    requires !IsBlank(chunk)
    ensures Stripped(PostProcessArabicChunk(chunk)) && |PostProcessArabicChunk(chunk)| <= |chunk|
  {
    StripEmptyIffBlank(chunk);
    DropConjunctionsShape(Strip(chunk), Conjunctions());
  }

  /** A chunk opening with the conjunction "and" and a space loses it. */
  lemma LeadingAndIsCut(rest: string)
    requires Stripped(rest)
    ensures CutConjunction("\U{0648} " + rest, "\U{0648}") == rest
  {
    var chunk := "\U{0648} " + rest;
    assert StartsWith(chunk, "\U{0648}" + " ");
    assert chunk[1..] == " " + rest;
    assert LStrip(" " + rest) == LStrip(rest);
    StripOfStripped(rest);
  }

  /** `split_text`: the base split of the cleaned text, each chunk
      post-processed. */
  method SplitText(s: TextSplitter, text: string) returns (chunks: seq<string>)
    requires s.Terminates()
    ensures var base := s.SplitTextSpec(CleanArabicText(text));
      |chunks| == |base| && forall i :: 0 <= i < |base| ==> chunks[i] == PostProcessArabicChunk(base[i])
    ensures |CleanArabicText(text)| > s.chunkSize ==>
      forall i :: 0 <= i < |chunks| ==> Stripped(chunks[i])
  {
    var base := s.SplitText(CleanArabicText(text));
    chunks := seq(|base|, i requires 0 <= i < |base| => PostProcessArabicChunk(base[i]));
    if |CleanArabicText(text)| > s.chunkSize {
      forall i | 0 <= i < |chunks|
        ensures Stripped(chunks[i])
      {
        assert base[i] in base;
        PostProcessKeepsContent(base[i]);
      }
    }
  }

  /** `is_arabic` is `PyText.IsArabic`. */

  function ArabicCount(s: string): (r: nat)
    ensures r <= |s|
  {
    if s == [] then 0 else (if IsArabicChar(s[0]) then 1 else 0) + ArabicCount(s[1..])
  }

  function EnglishCount(s: string): (r: nat)
    ensures r <= |s|
  {
    if s == [] then 0 else (if IsAsciiLetter(s[0]) then 1 else 0) + EnglishCount(s[1..])
  }

  /** No character is both Arabic and an ASCII letter, so the two counts
      together never exceed the length. */
  lemma {:induction false} CountsDisjoint(s: string)
    ensures ArabicCount(s) + EnglishCount(s) <= |s|
  {
    if s != [] {
      CountsDisjoint(s[1..]);
    }
  }

  datatype LanguageStats = LanguageStats(totalChars: nat, arabicChars: nat, englishChars: nat,
                                         arabicPercentage: real, englishPercentage: real,
                                         primaryLanguage: string)

  /** `get_language_stats` */
  function GetLanguageStats(text: string): (r: LanguageStats)
    ensures r.totalChars == |text| && r.arabicChars == ArabicCount(text) && r.englishChars == EnglishCount(text)
    ensures r.arabicChars + r.englishChars <= r.totalChars
    ensures r.primaryLanguage == "arabic" <==> r.arabicChars > r.englishChars
    ensures r.primaryLanguage == "arabic" || r.primaryLanguage == "english"
    ensures r.totalChars == 0 ==> r.arabicPercentage == 0.0 && r.englishPercentage == 0.0
  {
    var total := |text|;
    var a := ArabicCount(text);
    var e := EnglishCount(text);
    CountsDisjoint(text);
    LanguageStats(total, a, e,
                  if total > 0 then a as real / total as real * 100.0 else 0.0,
                  if total > 0 then e as real / total as real * 100.0 else 0.0,
                  if a > e then "arabic" else "english")
  }
}
