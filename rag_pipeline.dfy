/** core/rag/rag_pipeline.py: turning the documents a retriever returns into
    contexts and numbered citations, and building the prompt handed to the
    language model. The retriever is a function parameter. */
module RagPipeline {

  import opened Common
  import opened PyText

  /** A document as the retriever returns it. */
  datatype Retrieved = Retrieved(text: string, segmentId: string, documentId: string, score: real)

  /** One entry of `sources`. */
  datatype Source = Source(index: nat, segmentId: string, documentId: string, score: real, preview: string)

  /** The dict `process_query` returns; it has no `query` key when nothing
      was retrieved. */
  datatype Answer = Answer(contexts: seq<string>, sources: seq<Source>, totalRetrieved: nat, query: Option<string>)

  /** How many documents are asked of the retriever: twice `top_k` when
      reranking follows, `top_k` otherwise. */
  function RequestSize(topK: int, useReranking: bool): (r: int)
    ensures useReranking ==> r == 2 * topK
    ensures !useReranking ==> r == topK
  {
    if useReranking then topK * 2 else topK
  }

  /** `_rerank_documents`: the retriever's order is kept and its first
      `top_k` documents are returned (`documents[:top_k]`). */
  function Rerank(query: string, docs: seq<Retrieved>, topK: int): (r: seq<Retrieved>)
    ensures |r| <= |docs| && r == docs[..|r|]
    ensures topK >= 0 ==> |r| == (if |docs| <= topK then |docs| else topK)
    ensures topK < 0 ==> |r| == (if |docs| + topK <= 0 then 0 else |docs| + topK)
  {
    SliceTo(docs, topK)
  }

  /** The documents `process_query` keeps: reranked when reranking is on and
      there are more than `top_k`, else the first `top_k`. */
  function Kept(query: string, docs: seq<Retrieved>, topK: int, useReranking: bool): seq<Retrieved> {
    if useReranking && |docs| > topK then Rerank(query, docs, topK) else SliceTo(docs, topK)
  }

  /** Whether reranking is on or off, the same documents are kept: the first
      `top_k` of what was retrieved, in the retriever's order. */
  lemma RerankingKeepsPrefix(query: string, docs: seq<Retrieved>, topK: int)
    ensures Kept(query, docs, topK, true) == Kept(query, docs, topK, false)
    ensures var k := Kept(query, docs, topK, true);
      k == docs[..|k|] && (topK >= 0 ==> |k| == (if |docs| <= topK then |docs| else topK))
  {
  }

  /** The preview of a citation: the text itself up to 200 characters,
      otherwise its first 200 characters and `"..."`. */
  function Preview(text: string): string {
    if |text| > 200 then text[..200] + "..." else text
  }

  /** A preview is at most 203 characters long and starts with the text's
      first 200 characters (all of the text when it is shorter); it equals
      the text exactly when the text is short, or when it is 203 characters
      long and already ends in `"..."`. */
  lemma PreviewShape(text: string)
    ensures |Preview(text)| <= 203
    ensures var n := if |text| <= 200 then |text| else 200;
      n <= |Preview(text)| && Preview(text)[..n] == text[..n]
    ensures Preview(text) == text <==> |text| <= 200 || (|text| == 203 && text[200..] == "...")
  {
    if |text| > 200 && |text| == 203 && text[200..] == "..." {
      assert text == text[..200] + text[200..];
    }
  }

  /** Previewing a preview changes nothing. */
  lemma PreviewIdempotent(text: string)
    ensures Preview(Preview(text)) == Preview(text)
  {
    if |text| > 200 {
      var p := Preview(text);
      assert |p| == 203 && p[..200] == text[..200];
    }
  }

  /** The citation of the document at position `i`, numbered from 1. */
  function SourceAt(i: nat, doc: Retrieved): Source {
    Source(i + 1, doc.segmentId, doc.documentId, doc.score, Preview(doc.text))
  }

  /** The `sources` list: one citation per kept document, in order. */
  function Sources(docs: seq<Retrieved>): (r: seq<Source>)
    ensures |r| == |docs|
    ensures forall i :: 0 <= i < |docs| ==> r[i] == SourceAt(i, docs[i])
  {
    if docs == [] then []
    else Sources(docs[..|docs| - 1]) + [SourceAt(|docs| - 1, docs[|docs| - 1])]
  }

  /** The `contexts` list: the kept documents' texts. */
  function Texts(docs: seq<Retrieved>): seq<string> {
    seq(|docs|, i requires 0 <= i < |docs| => docs[i].text)
  }

  /** The result of `process_query` for what the retriever returned. */
  function Respond(query: string, docs: seq<Retrieved>, topK: int, useReranking: bool): Answer {
    if docs == [] then Answer([], [], 0, None)
    else
      var kept := Kept(query, docs, topK, useReranking);
      Answer(Texts(kept), Sources(kept), |kept|, Some(query))
  }

  /** `process_query`: retrieve, keep the first `top_k`, then collect the
      texts and build the citations one document at a time. */
  method ProcessQuery(query: string, topK: int, datasetId: Option<string>, useReranking: bool,
                      retrieve: (string, int, Option<string>) -> seq<Retrieved>)
    returns (r: Answer)
    ensures r == Respond(query, retrieve(query, RequestSize(topK, useReranking), datasetId), topK, useReranking)
  {
    var docs := retrieve(query, if useReranking then topK * 2 else topK, datasetId);
    if docs == [] {
      return Answer([], [], 0, None);
    }
    if useReranking && |docs| > topK {
      docs := Rerank(query, docs, topK);
    } else {
      docs := SliceTo(docs, topK);
    }
    var contexts := Texts(docs);
    var sources := Cite(docs);
    r := Answer(contexts, sources, |docs|, Some(query));
  }

  /** The citation loop of `process_query`: one source per kept document,
      numbered from 1. */
  method Cite(docs: seq<Retrieved>) returns (sources: seq<Source>)
    ensures sources == Sources(docs)
  {
    sources := [];
    var i := 0;
    while i < |docs|
      invariant 0 <= i <= |docs|
      invariant sources == Sources(docs[..i])
    {
      assert docs[..i + 1][..i] == docs[..i];
      sources := sources + [SourceAt(i, docs[i])];
      i := i + 1;
    }
    assert docs[..i] == docs;
  }

  /** What `process_query` promises: nothing retrieved gives empty contexts
      and sources, a total of 0 and no echoed query; otherwise the query is
      echoed, at most `top_k` documents are kept from the front, the i-th
      context is the i-th document's text, the i-th citation carries index
      i+1, the document's ids and score and its preview, and the total is the
      number of contexts. */
  lemma RespondShape(query: string, docs: seq<Retrieved>, topK: int, useReranking: bool)
    ensures var a := Respond(query, docs, topK, useReranking);
      |a.contexts| == |a.sources| == a.totalRetrieved <= |docs|
      && (docs == [] ==> a.contexts == [] && a.sources == [] && a.totalRetrieved == 0 && a.query == None)
      && (docs != [] ==> a.query == Some(query))
      && (topK >= 0 ==> a.totalRetrieved == (if |docs| <= topK then |docs| else topK))
      && (forall i :: 0 <= i < a.totalRetrieved ==>
            a.contexts[i] == docs[i].text
            && a.sources[i].index == i + 1
            && a.sources[i].segmentId == docs[i].segmentId
            && a.sources[i].documentId == docs[i].documentId
            && a.sources[i].score == docs[i].score
            && a.sources[i].preview == Preview(docs[i].text))
  {
    if docs != [] {
      RerankingKeepsPrefix(query, docs, topK);
      var kept := Kept(query, docs, topK, useReranking);
      assert forall i :: 0 <= i < |kept| ==> kept[i] == docs[i];
    }
  }

  /** The system prompt used when none, or an empty one, is given. */
  const DefaultSystemPrompt: string :=
    "أنت مساعد ذكي متخصص في الإجابة على الأسئلة بناءً على المستندات المقدمة.\n"
    + "قواعد الإجابة:\n"
    + "1. استخدم فقط المعلومات من السياق المقدم\n"
    + "2. إذا لم تجد الإجابة في السياق، قل \"لا أجد معلومات كافية في المستندات المتاحة\"\n"
    + "3. اذكر مصادر المعلومات عند الإمكان\n"
    + "4. كن دقيقاً ومختصراً\n"
    + "5. أجب باللغة العربية أو الإنجليزية حسب لغة السؤال"

  /** `if not system_prompt`: the given prompt, or the default one when it
      is missing or empty. */
  function SystemPrompt(given: Option<string>): (r: string)
    ensures r != []
    ensures r == DefaultSystemPrompt <==> given.None? || given.value == [] || given.value == DefaultSystemPrompt
  {
    if given.None? || given.value == [] then DefaultSystemPrompt else given.value
  }

  /** The block of the context at position `i`, labelled "[مستند i+1]". */
  function Label(i: nat, context: string): string {
    "[مستند " + NatToString(i + 1) + "]\n" + context
  }

  function Labelled(contexts: seq<string>): (r: seq<string>)
    ensures |r| == |contexts|
  {
    seq(|contexts|, i requires 0 <= i < |contexts| => Label(i, contexts[i]))
  }

  /** The context section: the labelled blocks separated by blank lines. */
  function ContextText(contexts: seq<string>): string {
    Join(Labelled(contexts), "\n\n")
  }

  const ContextHeader: string := "\n\nالسياق المتاح:\n"

  /** The text after the context section, which ends the prompt. */
  function QuestionTail(query: string): string {
    "\n\nالسؤال: " + query + "\n\nالإجابة:"
  }

  /** `build_rag_prompt` */
  function BuildRagPrompt(query: string, contexts: seq<string>, systemPrompt: Option<string>): string {
    SystemPrompt(systemPrompt) + ContextHeader + ContextText(contexts) + QuestionTail(query)
  }

  /** The prompt opens with the system prompt (the default one when none or
      an empty one is given) and closes with the question and the answer
      cue. */
  lemma PromptFrame(query: string, contexts: seq<string>, systemPrompt: Option<string>)
    ensures var p := BuildRagPrompt(query, contexts, systemPrompt);
      StartsWith(p, SystemPrompt(systemPrompt))
      && |QuestionTail(query)| <= |p| && p[|p| - |QuestionTail(query)|..] == QuestionTail(query)
    ensures systemPrompt.None? || systemPrompt == Some([]) ==> SystemPrompt(systemPrompt) == DefaultSystemPrompt
    ensures systemPrompt.Some? && systemPrompt.value != [] ==> SystemPrompt(systemPrompt) == systemPrompt.value
  {
    FourParts(SystemPrompt(systemPrompt), ContextHeader, ContextText(contexts), QuestionTail(query));
  }

  lemma FourParts(a: string, b: string, c: string, d: string)
    ensures StartsWith(a + b + c + d, a)
    ensures |d| <= |a + b + c + d| && (a + b + c + d)[|a + b + c + d| - |d|..] == d
  {
    assert a + b + c + d == a + (b + c + d);
  }

  /** The context section numbers the contexts from 1 in order: none gives
      nothing, one gives its block, and one more appends a blank line and
      the next numbered block. */
  lemma ContextsNumberedInOrder(contexts: seq<string>, c: string)
    ensures ContextText([]) == []
    ensures ContextText([c]) == Label(0, c)
    ensures contexts != [] ==> ContextText(contexts + [c]) == ContextText(contexts) + "\n\n" + Label(|contexts|, c)
  {
    if contexts != [] {
      assert Labelled(contexts + [c]) == Labelled(contexts) + [Label(|contexts|, c)];
      JoinSnoc(Labelled(contexts), Label(|contexts|, c), "\n\n");
    }
  }

  /** Every context appears in the prompt inside its numbered block. */
  lemma PromptHasEveryContext(query: string, contexts: seq<string>, systemPrompt: Option<string>, i: nat)
    requires i < |contexts|
    ensures Contains(BuildRagPrompt(query, contexts, systemPrompt), Label(i, contexts[i]))
  {
    JoinHasPart(Labelled(contexts), "\n\n", i);
    ContainsWithin(SystemPrompt(systemPrompt) + ContextHeader, ContextText(contexts), QuestionTail(query), Label(i, contexts[i]));
  }
}
