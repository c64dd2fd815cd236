/** knowledge_base/retrieval/hybrid_search.py: hybrid search over the
    in-memory store. A vector search and a keyword search each produce
    tagged results; these are merged by document id, the weighted scores
    of an id added up, and ranked. The query embedding and the similarity
    measure are parameters. */
module HybridSearch {

  import opened Common
  import opened PyText
  import opened Ranking
  import MemoryStore

  /** The engine's weights of the two searches. */
  datatype Engine = Engine(vectorWeight: real, keywordWeight: real)

  /** The default weights: 0.7 for vectors, 0.3 for keywords. */
  const DefaultEngine := Engine(0.7, 0.3)

  /** One result of either search. */
  datatype Result = Result(id: string, content: string, metadata: map<string, Value>, score: real,
                           searchType: string, weightedScore: real, createdAt: string)

  function ResultScore(r: Result): real {
    r.score
  }

  /** A search's score times its weight. */
  function Weighted(score: real, weight: real): real {
    score * weight
  }

  // ----- keywords -----

  const StopWords: set<string> := {"the", "is", "at", "which", "on", "في", "من", "إلى", "على", "هو", "هي"}

  /** The characters `[\w\s؀-ۿ]` that survive the punctuation pass. */
  predicate KeptChar(c: char) {
    IsWordChar(c) || IsSpace(c) || IsArabicChar(c)
  }

  /** `re.sub(r'[^\w\s؀-ۿ]', ' ', text)` */
  function Depunctuate(s: string): string {
    seq(|s|, i requires 0 <= i < |s| => if KeptChar(s[i]) then s[i] else ' ')
  }

  predicate IsKeyword(w: string) {
    |w| > 2 && w !in StopWords
  }

  /** The words of the lower-cased, depunctuated text. */
  function QueryWords(text: string): seq<string> {
    SplitWs(Depunctuate(Lower(text)))
  }

  /** `_extract_keywords`: the words longer than two characters that are not
      stop words, in order. */
  function ExtractKeywords(text: string): seq<string> {
    Filter(QueryWords(text), IsKeyword)
  }

  /** A keyword is a word of the cleaned text, longer than two characters,
      not a stop word, made of kept characters with no upper-case ASCII
      letter; and no such word of the text is dropped. */
  lemma KeywordsShape(text: string)
    ensures var r := ExtractKeywords(text);
      (forall w :: w in r ==> IsKeyword(w) && IsWord(w) && w in QueryWords(text))
      && (forall w, c :: w in r && c in w ==> KeptChar(c) && !('A' <= c <= 'Z'))
      && (forall w :: w in QueryWords(text) && IsKeyword(w) ==> w in r)
  {
    var clean := Depunctuate(Lower(text));
    SplitWsChars(clean);
    forall c | c in clean
      ensures KeptChar(c) && !('A' <= c <= 'Z')
    {
      var i :| 0 <= i < |clean| && clean[i] == c;
      assert IsSpace(' ');
    }
  }

  /** How many of the keywords occur in the text. */
  function MatchCount(keywords: seq<string>, text: string): (r: nat)
    ensures r <= |keywords|
  {
    if keywords == [] then 0
    else (if Contains(text, keywords[0]) then 1 else 0) + MatchCount(keywords[1..], text)
  }

  /** No match means no keyword occurs; a full count means all do. */
  lemma {:induction false} MatchCountMeaning(keywords: seq<string>, text: string)
    ensures MatchCount(keywords, text) == 0 <==> forall k :: 0 <= k < |keywords| ==> !Contains(text, keywords[k])
    ensures MatchCount(keywords, text) == |keywords| <==> forall k :: 0 <= k < |keywords| ==> Contains(text, keywords[k])
  {
    if keywords != [] {
      MatchCountMeaning(keywords[1..], text);
      assert forall k :: 1 <= k < |keywords| ==> keywords[k] == keywords[1..][k - 1];
    }
  }

  /** `_calculate_keyword_score`: the fraction of the keywords found in the
      lower-cased content; 0 without keywords. */
  function KeywordScore(keywords: seq<string>, content: string): (r: real)
    ensures 0.0 <= r <= 1.0
    ensures keywords == [] ==> r == 0.0
  {
    var matches := MatchCount(keywords, Lower(content));
    if keywords == [] then 0.0
    else
      var m := matches as real;
      var n := |keywords| as real;
      assert m / n <= 1.0 by {
        assert m <= n;
      }
      m / n
  }

  /** The score is positive exactly when some keyword occurs, and 1 exactly
      when every keyword does. */
  lemma KeywordScoreMeaning(keywords: seq<string>, content: string)
    ensures KeywordScore(keywords, content) > 0.0 <==> exists k :: 0 <= k < |keywords| && Contains(Lower(content), keywords[k])
    ensures keywords != [] ==>
      (KeywordScore(keywords, content) == 1.0 <==> forall k :: 0 <= k < |keywords| ==> Contains(Lower(content), keywords[k]))
  {
    MatchCountMeaning(keywords, Lower(content));
    if keywords != [] {
      Fraction(MatchCount(keywords, Lower(content)), |keywords|);
    }
  }

  /** A count out of a positive total is positive exactly when the count is,
      and 1 exactly when the count is the total. */
  lemma Fraction(m: nat, n: nat)
    requires 0 < n
    ensures (m as real) / (n as real) == 1.0 <==> m == n
    ensures (m as real) / (n as real) > 0.0 <==> m > 0
  {
    var q := (m as real) / (n as real);
    assert q * (n as real) == m as real;
  }

  /** `_apply_filters`: the same test as the store's. */
  predicate PassesFilters(doc: MemoryStore.VectorDocument, filters: map<string, Value>) {
    MemoryStore.Matches(doc.metadata, filters)
  }

  /** The keyword result for one document. */
  function KeywordHit(doc: MemoryStore.VectorDocument, keywords: seq<string>, weight: real): Result {
    var score := KeywordScore(keywords, doc.content);
    Result(doc.id, doc.content, doc.metadata, score, "keyword", Weighted(score, weight), doc.createdAt)
  }

  /** The loop of `_keyword_search`: a result for each document that passes
      the filters and has a positive score, in index order. */
  function KeywordCandidates(docs: seq<MemoryStore.VectorDocument>, keywords: seq<string>,
                             filters: map<string, Value>, weight: real): (r: seq<Result>)
    ensures |r| <= |docs|
    ensures forall h :: h in r ==>
      (exists i :: 0 <= i < |docs| && PassesFilters(docs[i], filters)
         && KeywordScore(keywords, docs[i].content) > 0.0 && h == KeywordHit(docs[i], keywords, weight))
    ensures forall i ::
      (0 <= i < |docs| && PassesFilters(docs[i], filters) && KeywordScore(keywords, docs[i].content) > 0.0)
      ==> KeywordHit(docs[i], keywords, weight) in r
  {
    if docs == [] then []
    else
      var init := docs[..|docs| - 1];
      var d := docs[|docs| - 1];
      var rest := KeywordCandidates(init, keywords, filters, weight);
      assert forall i :: 0 <= i < |init| ==> init[i] == docs[i];
      if PassesFilters(d, filters) && KeywordScore(keywords, d.content) > 0.0
      then rest + [KeywordHit(d, keywords, weight)] else rest
  }

  /** The documents of the named index in insertion order; none when there
      is no such index. */
  function IndexDocs(store: MemoryStore.Store, indexName: string): seq<MemoryStore.VectorDocument>
    requires store.IndexesValid()
  {
    if indexName in store.indexes then store.indexes[indexName].Items() else []
  }

  /** `_keyword_search`: the candidates sorted by score, cut to `top_k`. */
  function KeywordResults(engine: Engine, store: MemoryStore.Store, query: string, topK: int, indexName: string,
                          filters: map<string, Value>): seq<Result>
    requires store.IndexesValid()
  {
    var hits := KeywordCandidates(IndexDocs(store, indexName), ExtractKeywords(query), filters, engine.keywordWeight);
    SliceTo(SortDesc(hits, ResultScore), topK)
  }

  method KeywordSearch(engine: Engine, store: MemoryStore.Store, query: string, topK: int, indexName: string,
                       filters: map<string, Value>) returns (results: seq<Result>)
    requires store.IndexesValid()
    ensures results == KeywordResults(engine, store, query, topK, indexName, filters)
  {
    var keywords := ExtractKeywords(query);
    var docs := IndexDocs(store, indexName);
    var hits := ScoreKeywords(docs, keywords, filters, engine.keywordWeight);
    results := SliceTo(SortDesc(hits, ResultScore), topK);
  }

  /** The document loop of `_keyword_search`. */
  method ScoreKeywords(docs: seq<MemoryStore.VectorDocument>, keywords: seq<string>,
                       filters: map<string, Value>, weight: real) returns (hits: seq<Result>)
    ensures hits == KeywordCandidates(docs, keywords, filters, weight)
  {
    hits := [];
    var i := 0;
    while i < |docs|
      invariant 0 <= i <= |docs|
      invariant hits == KeywordCandidates(docs[..i], keywords, filters, weight)
    {
      CandidatesStep(docs, i, keywords, filters, weight);
      var doc := docs[i];
      if PassesFilters(doc, filters) {
        var score := KeywordScore(keywords, doc.content);
        if score > 0.0 {
          hits := hits + [KeywordHit(doc, keywords, weight)];
        }
      }
      i := i + 1;
    }
    assert docs[..i] == docs;
  }

  lemma CandidatesStep(docs: seq<MemoryStore.VectorDocument>, i: nat, keywords: seq<string>,
                       filters: map<string, Value>, weight: real)
    requires i < |docs|
    ensures KeywordCandidates(docs[..i + 1], keywords, filters, weight)
      == KeywordCandidates(docs[..i], keywords, filters, weight)
         + (if PassesFilters(docs[i], filters) && KeywordScore(keywords, docs[i].content) > 0.0
            then [KeywordHit(docs[i], keywords, weight)] else [])
  {
    assert docs[..i + 1][..i] == docs[..i];
  }

  /** The keyword results are keyword-tagged, filter-passing, positively
      scored documents of the index, in descending score order, at most
      `top_k` of them; no candidate left out scores above a kept one. */
  lemma KeywordSearchShape(engine: Engine, store: MemoryStore.Store, query: string, topK: int, indexName: string,
                           filters: map<string, Value>)
    requires store.IndexesValid()
    ensures var r := KeywordResults(engine, store, query, topK, indexName, filters);
      Descending(r, ResultScore)
      && (topK >= 0 ==> |r| <= topK)
      && (forall h :: h in r ==>
        h.searchType == "keyword" && h.score > 0.0 && h.weightedScore == Weighted(h.score, engine.keywordWeight)
        && exists d :: d in IndexDocs(store, indexName) && PassesFilters(d, filters) && d.id == h.id)
      && var omitted := multiset(KeywordCandidates(IndexDocs(store, indexName), ExtractKeywords(query), filters, engine.keywordWeight))
                        - multiset(r);
         forall x, y :: x in omitted && y in r ==> ResultScore(y) >= ResultScore(x)
  {
    var docs := IndexDocs(store, indexName);
    var hits := KeywordCandidates(docs, ExtractKeywords(query), filters, engine.keywordWeight);
    TopSorted(hits, ResultScore, topK);
    TopIsBest(hits, ResultScore, topK);
    forall h | h in KeywordResults(engine, store, query, topK, indexName, filters)
      ensures exists d :: d in docs && PassesFilters(d, filters) && d.id == h.id
    {
      assert h in hits;
      var i :| 0 <= i < |docs| && PassesFilters(docs[i], filters)
        && KeywordScore(ExtractKeywords(query), docs[i].content) > 0.0 && h == KeywordHit(docs[i], ExtractKeywords(query), engine.keywordWeight);
      assert docs[i] in docs;
    }
  }

  // ----- vector search -----

  /** A store hit tagged as a vector result with its weighted score. */
  function VectorHit(h: MemoryStore.Hit, weight: real): Result {
    Result(h.id, h.content, h.metadata, h.score, "vector", Weighted(h.score, weight), h.createdAt)
  }

  /** `_vector_search`: the store's search for the query's embedding, each
      result tagged. */
  function VectorResults(engine: Engine, store: MemoryStore.Store, query: string, topK: int, indexName: string,
                         filters: map<string, Value>, embed: string -> seq<real>,
                         similarity: (seq<real>, seq<real>) -> real): (r: seq<Result>)
    requires store.IndexesValid()
  {
    Tagged(store.Search(embed(query), topK, indexName, filters, similarity), engine.vectorWeight)
  }

  /** Store hits tagged as vector results, in order. */
  function Tagged(hits: seq<MemoryStore.Hit>, weight: real): (r: seq<Result>)
    ensures |r| == |hits| && forall i :: 0 <= i < |hits| ==> r[i] == VectorHit(hits[i], weight)
  {
    seq(|hits|, i requires 0 <= i < |hits| => VectorHit(hits[i], weight))
  }

  /** The tagging loop of `_vector_search`. */
  method TagHits(hits: seq<MemoryStore.Hit>, weight: real) returns (results: seq<Result>)
    ensures results == Tagged(hits, weight)
  {
    results := [];
    var i := 0;
    while i < |hits|
      invariant 0 <= i <= |hits| && |results| == i
      invariant forall j :: 0 <= j < i ==> results[j] == VectorHit(hits[j], weight)
    {
      results := results + [VectorHit(hits[i], weight)];
      i := i + 1;
    }
  }

  method VectorSearch(engine: Engine, store: MemoryStore.Store, query: string, topK: int, indexName: string,
                      filters: map<string, Value>, embed: string -> seq<real>,
                      similarity: (seq<real>, seq<real>) -> real) returns (results: seq<Result>)
    requires store.IndexesValid()
    ensures results == VectorResults(engine, store, query, topK, indexName, filters, embed, similarity)
  {
    var hits := store.Search(embed(query), topK, indexName, filters, similarity);
    results := TagHits(hits, engine.vectorWeight);
  }

  /** The vector results are vector-tagged documents of the index passing
      the filters, in descending score order, at most `top_k` of them. */
  lemma VectorSearchShape(engine: Engine, store: MemoryStore.Store, query: string, topK: int, indexName: string,
                          filters: map<string, Value>, embed: string -> seq<real>,
                          similarity: (seq<real>, seq<real>) -> real)
    requires store.Valid()
    ensures var r := VectorResults(engine, store, query, topK, indexName, filters, embed, similarity);
      Descending(r, ResultScore)
      && (topK >= 0 ==> |r| <= topK)
      && forall i :: 0 <= i < |r| ==>
        r[i].searchType == "vector" && r[i].weightedScore == Weighted(r[i].score, engine.vectorWeight)
        && indexName in store.indexes && r[i].id in store.indexes[indexName].docs
        && MemoryStore.Matches(store.indexes[indexName].docs[r[i].id].metadata, filters)
  {
    var hits := store.Search(embed(query), topK, indexName, filters, similarity);
    MemoryStore.SearchShape(store, embed(query), topK, indexName, filters, similarity);
    var r := VectorResults(engine, store, query, topK, indexName, filters, embed, similarity);
    assert forall i :: 0 <= i < |r| ==> r[i] == VectorHit(hits[i], engine.vectorWeight);
    forall i | 0 <= i < |r|
      ensures indexName in store.indexes && r[i].id in store.indexes[indexName].docs
        && MemoryStore.Matches(store.indexes[indexName].docs[r[i].id].metadata, filters)
    {
      assert hits[i] in hits;
    }
  }

  // ----- merge -----

  /** A merged entry: the first result seen for the id (`result.copy()`),
      its `combined_score` and its `search_types`. */
  datatype Merged = Merged(first: Result, combinedScore: real, searchTypes: seq<string>)

  function Combined(m: Merged): real {
    m.combinedScore
  }

  /** The dict `merged` of `_merge_results`: the ids in insertion order and
      the entry of each. */
  datatype Groups = Groups(order: seq<string>, table: map<string, Merged>) {
    predicate Covers() {
      forall j :: 0 <= j < |order| ==> order[j] in table
    }

    /** Each id is listed once, exactly the table's ids, and each entry is
        the entry of its id. */
    ghost predicate WellFormed() {
      Distinct(order) && (forall id :: id in table <==> id in order)
      && forall id :: id in table ==> table[id].first.id == id
    }
  }

  /** One step of the loop of `_merge_results`. */
  function Absorb(g: Groups, r: Result): Groups {
    if r.id !in g.table then
      Groups(g.order + [r.id], g.table[r.id := Merged(r, r.weightedScore, [r.searchType])])
    else
      var m := g.table[r.id];
      var types := if r.searchType in m.searchTypes then m.searchTypes else m.searchTypes + [r.searchType];
      Groups(g.order, g.table[r.id := Merged(m.first, m.combinedScore + r.weightedScore, types)])
  }

  function Group(results: seq<Result>): (g: Groups)
    ensures g.Covers()
  {
    if results == [] then Groups([], map[])
    else Absorb(Group(results[..|results| - 1]), results[|results| - 1])
  }

  /** `list(merged.values())` */
  function Values(g: Groups): seq<Merged>
    requires g.Covers()
  {
    seq(|g.order|, j requires 0 <= j < |g.order| => g.table[g.order[j]])
  }

  /** `_merge_results`: the merged entries by descending combined score. */
  function MergeSpec(results: seq<Result>): seq<Merged> {
    SortDesc(Values(Group(results)), Combined)
  }

  /** The sum of the weighted scores of the id's results. */
  function SumFor(results: seq<Result>, id: string): real {
    if results == [] then 0.0
    else
      var last := results[|results| - 1];
      SumFor(results[..|results| - 1], id) + (if last.id == id then last.weightedScore else 0.0)
  }

  /** The search types of the id's results, in order. */
  function TypesFor(results: seq<Result>, id: string): seq<string> {
    if results == [] then []
    else
      var last := results[|results| - 1];
      TypesFor(results[..|results| - 1], id) + (if last.id == id then [last.searchType] else [])
  }

  /** The position of the id's first result, if it has one. */
  function FirstIndexFor(results: seq<Result>, id: string): (r: Option<nat>)
    ensures r.Some? ==> (r.value < |results| && results[r.value].id == id
      && forall j :: 0 <= j < r.value ==> results[j].id != id)
    ensures r.None? ==> forall j :: 0 <= j < |results| ==> results[j].id != id
  {
    if results == [] then None
    else
      var init := results[..|results| - 1];
      assert forall j :: 0 <= j < |init| ==> init[j] == results[j];
      match FirstIndexFor(init, id)
      case Some(k) => Some(k)
      case None => if results[|results| - 1].id == id then Some(|results| - 1) else None
  }

  /** The elements in order of first appearance, each once. */
  function Dedup(xs: seq<string>): (r: seq<string>)
    ensures Distinct(r)
    ensures forall x :: x in r <==> x in xs
  {
    if xs == [] then []
    else
      var rest := Dedup(xs[..|xs| - 1]);
      var x := xs[|xs| - 1];
      assert forall y :: y in xs <==> y in xs[..|xs| - 1] || y == x;
      if x in rest then rest else rest + [x]
  }

  /** After the loop the dict has one entry per input id and no other, each
      listed once in the order. */
  lemma {:induction false} GroupKeys(results: seq<Result>)
    ensures Group(results).WellFormed()
    ensures forall id :: id in Group(results).table <==> exists k :: 0 <= k < |results| && results[k].id == id
  {
    if results != [] {
      var init := results[..|results| - 1];
      var r := results[|results| - 1];
      GroupKeys(init);
      AbsorbStep(Group(init), r);
      assert forall k :: 0 <= k < |init| ==> init[k] == results[k];
      forall id | id in Group(results).table
        ensures exists k :: 0 <= k < |results| && results[k].id == id
      {
        if id != r.id {
          assert id in Group(init).table;
        }
      }
    }
  }

  /** One step keeps the dict well formed and adds exactly the result's id. */
  lemma AbsorbStep(g: Groups, r: Result)
    requires g.WellFormed()
    ensures Absorb(g, r).WellFormed()
    ensures forall id :: id in Absorb(g, r).table <==> id in g.table || id == r.id
  {
  }

  /** The entry of an id holds one of its results, the sum of its weighted
      scores and its distinct search types in first-seen order. */
  lemma {:induction false} GroupEntry(results: seq<Result>, id: string)
    requires id in Group(results).table
    ensures Group(results).table[id].first.id == id
    ensures Group(results).table[id].combinedScore == SumFor(results, id)
    ensures Group(results).table[id].searchTypes == Dedup(TypesFor(results, id))
  {
    GroupKeys(results);
    var init := results[..|results| - 1];
    var r := results[|results| - 1];
    var g := Group(init);
    if r.id != id {
      assert id in g.table;
      GroupEntry(init, id);
      assert Group(results).table[id] == g.table[id];
      assert TypesFor(results, id) == TypesFor(init, id);
    } else if id in g.table {
      GroupEntry(init, id);
      var ts := TypesFor(init, id);
      assert TypesFor(results, id) == ts + [r.searchType];
      assert (ts + [r.searchType])[..|ts|] == ts;
    } else {
      GroupKeys(init);
      SumForAbsent(init, id);
      assert TypesFor(results, id) == [r.searchType];
      assert [r.searchType][..0] == [];
    }
  }

  /** The entry of an id holds the first of its results, as `result.copy()`
      is taken only when the id is new. */
  lemma {:induction false} GroupFirst(results: seq<Result>, id: string)
    requires id in Group(results).table
    ensures FirstIndexFor(results, id).Some?
      && Group(results).table[id].first == results[FirstIndexFor(results, id).value]
  {
    GroupKeys(results);
    var init := results[..|results| - 1];
    var r := results[|results| - 1];
    var g := Group(init);
    GroupKeys(init);
    if id in g.table {
      GroupFirst(init, id);
      var k := FirstIndexFor(init, id).value;
      assert results[k] == init[k];
      assert Group(results).table[id].first == g.table[id].first;
    } else {
      assert r.id == id;
      assert forall j :: 0 <= j < |init| ==> init[j].id != id;
      assert FirstIndexFor(init, id).None?;
    }
  }

  /** An id with no results has sum 0 and no search types. */
  lemma {:induction false} SumForAbsent(results: seq<Result>, id: string)
    requires forall k :: 0 <= k < |results| ==> results[k].id != id
    ensures SumFor(results, id) == 0.0 && TypesFor(results, id) == []
  {
    if results != [] {
      SumForAbsent(results[..|results| - 1], id);
    }
  }

  /** The merged list has one entry per input id and no other, each with
      the sum of that id's weighted scores and its search types once each in
      first-seen order, in descending combined score. */
  lemma MergeShape(results: seq<Result>)
    ensures var r := MergeSpec(results);
      Descending(r, Combined)
      && (forall i, j :: 0 <= i < j < |r| ==> r[i].first.id != r[j].first.id)
      && (forall k :: 0 <= k < |results| ==> exists m :: m in r && m.first.id == results[k].id)
      && forall m :: m in r ==>
        (exists k :: 0 <= k < |results| && results[k].id == m.first.id)
        && FirstIndexFor(results, m.first.id).Some?
        && m.first == results[FirstIndexFor(results, m.first.id).value]
        && m.combinedScore == SumFor(results, m.first.id)
        && m.searchTypes == Dedup(TypesFor(results, m.first.id))
  {
    SortDescSorted(Values(Group(results)), Combined);
    MergedFirst(results);
    MergedIdsDistinct(results);
    MergedCoversInputs(results);
    MergedEntries(results);
  }

  /** The listed entries, in insertion order: the entry of each id. */
  lemma ValuesFacts(results: seq<Result>)
    ensures var g := Group(results); var vs := Values(g);
      Distinct(vs)
      && forall j :: 0 <= j < |vs| ==>
        vs[j].first.id == g.order[j]
        && vs[j].combinedScore == SumFor(results, g.order[j])
        && vs[j].searchTypes == Dedup(TypesFor(results, g.order[j]))
  {
    var g := Group(results);
    GroupKeys(results);
    var vs := Values(g);
    forall j | 0 <= j < |vs|
      ensures vs[j].first.id == g.order[j]
      ensures vs[j].combinedScore == SumFor(results, g.order[j])
      ensures vs[j].searchTypes == Dedup(TypesFor(results, g.order[j]))
    {
      GroupEntry(results, g.order[j]);
    }
  }

  lemma MergedIdsDistinct(results: seq<Result>)
    ensures var r := MergeSpec(results);
      forall i, j :: 0 <= i < j < |r| ==> r[i].first.id != r[j].first.id
  {
    var vs := Values(Group(results));
    ValuesFacts(results);
    GroupKeys(results);
    SortKeepsDistinct(vs, Combined);
    IdsStayDistinct(vs, MergeSpec(results));
  }

  /** Distinct entries drawn from entries with pairwise different ids have
      pairwise different ids. */
  lemma IdsStayDistinct(vs: seq<Merged>, r: seq<Merged>)
    requires forall a, b :: 0 <= a < b < |vs| ==> vs[a].first.id != vs[b].first.id
    requires Distinct(r) && forall m :: m in r ==> m in vs
    ensures forall i, j :: 0 <= i < j < |r| ==> r[i].first.id != r[j].first.id
  {
    forall i, j | 0 <= i < j < |r|
      ensures r[i].first.id != r[j].first.id
    {
      assert r[i] != r[j];
      assert r[i] in vs && r[j] in vs;
      var a :| 0 <= a < |vs| && vs[a] == r[i];
      var b :| 0 <= b < |vs| && vs[b] == r[j];
      assert a != b;
    }
  }

  lemma MergedCoversInputs(results: seq<Result>)
    ensures var r := MergeSpec(results);
      forall k :: 0 <= k < |results| ==> exists m :: m in r && m.first.id == results[k].id
  {
    var g := Group(results);
    var vs := Values(g);
    var r := MergeSpec(results);
    GroupKeys(results);
    ValuesFacts(results);
    forall k | 0 <= k < |results|
      ensures exists m :: m in r && m.first.id == results[k].id
    {
      var id := results[k].id;
      assert id in g.table;
      var j :| 0 <= j < |g.order| && g.order[j] == id;
      assert vs[j] in multiset(r);
    }
  }

  lemma MergedEntries(results: seq<Result>)
    ensures forall m :: m in MergeSpec(results) ==>
      (exists k :: 0 <= k < |results| && results[k].id == m.first.id)
      && m.combinedScore == SumFor(results, m.first.id)
      && m.searchTypes == Dedup(TypesFor(results, m.first.id))
  {
    var g := Group(results);
    var vs := Values(g);
    GroupKeys(results);
    ValuesFacts(results);
    forall m | m in MergeSpec(results)
      ensures (exists k :: 0 <= k < |results| && results[k].id == m.first.id)
        && m.combinedScore == SumFor(results, m.first.id)
        && m.searchTypes == Dedup(TypesFor(results, m.first.id))
    {
      assert m in multiset(vs);
      var j :| 0 <= j < |vs| && vs[j] == m;
      assert g.order[j] in g.table;
    }
  }

  /** Each merged entry keeps the first result seen for its id. */
  lemma MergedFirst(results: seq<Result>)
    ensures forall m :: m in MergeSpec(results) ==>
      FirstIndexFor(results, m.first.id).Some? && m.first == results[FirstIndexFor(results, m.first.id).value]
  {
    var g := Group(results);
    var vs := Values(g);
    forall m | m in MergeSpec(results)
      ensures FirstIndexFor(results, m.first.id).Some?
      ensures m.first == results[FirstIndexFor(results, m.first.id).value]
    {
      assert m in multiset(vs);
      var j :| 0 <= j < |vs| && vs[j] == m;
      GroupKeys(results);
      GroupFirst(results, g.order[j]);
    }
  }

  /** `_merge_results`: the dict filled in place, then listed and sorted. */
  method MergeResults(results: seq<Result>) returns (merged: seq<Merged>)
    ensures merged == MergeSpec(results)
  {
    var order: seq<string> := [];
    var table: map<string, Merged> := map[];
    var i := 0;
    while i < |results|
      invariant 0 <= i <= |results|
      invariant Groups(order, table) == Group(results[..i])
    {
      assert results[..i + 1][..i] == results[..i];
      var r := results[i];
      if r.id !in table {
        order := order + [r.id];
        table := table[r.id := Merged(r, r.weightedScore, [r.searchType])];
      } else {
        var m := table[r.id];
        var types := m.searchTypes;
        if r.searchType !in types {
          types := types + [r.searchType];
        }
        table := table[r.id := Merged(m.first, m.combinedScore + r.weightedScore, types)];
      }
      i := i + 1;
    }
    assert results[..i] == results;
    var list := seq(|order|, j requires 0 <= j < |order| => table[order[j]]);
    assert list == Values(Group(results));
    merged := SortDesc(list, Combined);
  }

  // ----- search -----

  /** `search`: each enabled search asks for `2 * top_k` results, the two
      lists are merged, and the best `top_k` merged entries are returned. */
  function HybridResults(engine: Engine, store: MemoryStore.Store, query: string, topK: int, indexName: string,
                         filters: map<string, Value>, useVector: bool, useKeyword: bool,
                         embed: string -> seq<real>, similarity: (seq<real>, seq<real>) -> real): seq<Merged>
    requires store.IndexesValid()
  {
    SliceTo(MergeSpec(Pool(engine, store, query, topK * 2, indexName, filters, useVector, useKeyword, embed, similarity)), topK)
  }

  /** The results of the enabled searches, vector results first. */
  function Pool(engine: Engine, store: MemoryStore.Store, query: string, n: int, indexName: string,
                filters: map<string, Value>, useVector: bool, useKeyword: bool,
                embed: string -> seq<real>, similarity: (seq<real>, seq<real>) -> real): seq<Result>
    requires store.IndexesValid()
  {
    (if useVector then VectorResults(engine, store, query, n, indexName, filters, embed, similarity) else [])
    + (if useKeyword then KeywordResults(engine, store, query, n, indexName, filters) else [])
  }

  method Search(engine: Engine, store: MemoryStore.Store, query: string, topK: int, indexName: string,
                filters: map<string, Value>, useVector: bool, useKeyword: bool,
                embed: string -> seq<real>, similarity: (seq<real>, seq<real>) -> real) returns (results: seq<Merged>)
    requires store.IndexesValid()
    ensures results == HybridResults(engine, store, query, topK, indexName, filters, useVector, useKeyword, embed, similarity)
  {
    var v: seq<Result> := [];
    if useVector {
      v := VectorSearch(engine, store, query, topK * 2, indexName, filters, embed, similarity);
    }
    var k: seq<Result> := [];
    if useKeyword {
      k := KeywordSearch(engine, store, query, topK * 2, indexName, filters);
    }
    var merged := MergeResults(v + k);
    results := SliceTo(merged, topK);
  }

  /** The best `top_k` merged entries: in descending combined score, one
      per id, each search type taken from an input result. */
  lemma TopMerged(results: seq<Result>, topK: int)
    ensures var r := SliceTo(MergeSpec(results), topK);
      Descending(r, Combined)
      && (topK >= 0 ==> |r| <= topK)
      && (forall i, j :: 0 <= i < j < |r| ==> r[i].first.id != r[j].first.id)
      && forall m, t :: m in r && t in m.searchTypes ==>
        exists k :: 0 <= k < |results| && results[k].searchType == t
  {
    MergeShape(results);
    MergedTypesFromResults(results);
    PrefixKeepsShape(results, MergeSpec(results), SliceTo(MergeSpec(results), topK));
  }

  /** Every search type of a merged entry is the type of some input result. */
  lemma MergedTypesFromResults(results: seq<Result>)
    ensures forall m, t :: m in MergeSpec(results) && t in m.searchTypes ==>
      exists k :: 0 <= k < |results| && results[k].searchType == t
  {
    MergeShape(results);
    forall m, t | m in MergeSpec(results) && t in m.searchTypes
      ensures exists k :: 0 <= k < |results| && results[k].searchType == t
    {
      TypesComeFromResults(results, m.first.id, t);
    }
  }

  /** A prefix of the merged entries keeps their order, their distinct ids
      and the origin of their search types. */
  lemma PrefixKeepsShape(results: seq<Result>, merged: seq<Merged>, r: seq<Merged>)
    requires |r| <= |merged| && r == merged[..|r|]
    requires Descending(merged, Combined)
    requires forall i, j :: 0 <= i < j < |merged| ==> merged[i].first.id != merged[j].first.id
    requires forall m, t :: m in merged && t in m.searchTypes ==>
      exists k :: 0 <= k < |results| && results[k].searchType == t
    ensures Descending(r, Combined)
    ensures forall i, j :: 0 <= i < j < |r| ==> r[i].first.id != r[j].first.id
    ensures forall m, t :: m in r && t in m.searchTypes ==>
      exists k :: 0 <= k < |results| && results[k].searchType == t
  {
    assert forall i :: 0 <= i < |r| ==> r[i] == merged[i];
    assert forall m :: m in r ==> m in merged;
  }

  /** The pool of `search` holds only results of the enabled searches. */
  lemma PoolTypes(engine: Engine, store: MemoryStore.Store, query: string, n: int, indexName: string,
                  filters: map<string, Value>, useVector: bool, useKeyword: bool,
                  embed: string -> seq<real>, similarity: (seq<real>, seq<real>) -> real)
    requires store.Valid()
    ensures forall x :: x in Pool(engine, store, query, n, indexName, filters, useVector, useKeyword, embed, similarity) ==>
      (x.searchType == "vector" && useVector) || (x.searchType == "keyword" && useKeyword)
  {
    if useVector {
      VectorSearchShape(engine, store, query, n, indexName, filters, embed, similarity);
    }
    if useKeyword {
      KeywordSearchShape(engine, store, query, n, indexName, filters);
    }
  }

  /** At most `top_k` entries, in descending combined score, one per
      document id, each found by one of the enabled searches; with both
      searches off there is nothing. */
  lemma HybridShape(engine: Engine, store: MemoryStore.Store, query: string, topK: int, indexName: string,
                    filters: map<string, Value>, useVector: bool, useKeyword: bool,
                    embed: string -> seq<real>, similarity: (seq<real>, seq<real>) -> real)
    requires store.Valid()
    ensures var r := HybridResults(engine, store, query, topK, indexName, filters, useVector, useKeyword, embed, similarity);
      Descending(r, Combined)
      && (topK >= 0 ==> |r| <= topK)
      && (forall i, j :: 0 <= i < j < |r| ==> r[i].first.id != r[j].first.id)
      && (forall m, t :: m in r && t in m.searchTypes ==>
            (t == "vector" && useVector) || (t == "keyword" && useKeyword))
      && (!useVector && !useKeyword ==> r == [])
  {
    var all := Pool(engine, store, query, topK * 2, indexName, filters, useVector, useKeyword, embed, similarity);
    var r := SliceTo(MergeSpec(all), topK);
    PoolTypes(engine, store, query, topK * 2, indexName, filters, useVector, useKeyword, embed, similarity);
    TopMerged(all, topK);
    forall m, t | m in r && t in m.searchTypes
      ensures (t == "vector" && useVector) || (t == "keyword" && useKeyword)
    {
      var j :| 0 <= j < |all| && all[j].searchType == t;
      assert all[j] in all;
    }
    if !useVector && !useKeyword {
      assert all == [];
      assert Group(all) == Groups([], map[]);
    }
  }

  /** A search type listed for an id is the type of one of its results. */
  lemma TypesComeFromResults(results: seq<Result>, id: string, t: string)
    requires t in Dedup(TypesFor(results, id))
    ensures exists k :: 0 <= k < |results| && results[k].searchType == t
  {
    TypeOfSomeResult(results, id, t);
  }

  lemma {:induction false} TypeOfSomeResult(results: seq<Result>, id: string, t: string)
    requires t in TypesFor(results, id)
    ensures exists k :: 0 <= k < |results| && results[k].searchType == t
  {
    if results != [] {
      var init := results[..|results| - 1];
      var last := results[|results| - 1];
      var rest := TypesFor(init, id);
      assert TypesFor(results, id) == rest + (if last.id == id then [last.searchType] else []);
      if t in rest {
        TypeOfSomeResult(init, id, t);
        var k :| 0 <= k < |init| && init[k].searchType == t;
        assert results[k] == init[k];
      } else {
        assert last.searchType == t;
      }
    }
  }
}
