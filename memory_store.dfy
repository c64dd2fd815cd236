/** knowledge_base/vector_store/memory_store.py: the in-memory vector store
    with a main document table and named indexes. Python dicts keep their
    insertion order, which decides the order of equal-scored search results,
    so an index is its id order plus its documents. The similarity measure
    and the clock are parameters. */
module MemoryStore {

  import opened Common
  import opened PyText
  import opened Ranking

  /** `VectorDocument` */
  datatype VectorDocument = VectorDocument(
    id: string,
    content: string,
    embedding: seq<real>,
    metadata: map<string, Value>,
    createdAt: string)

  /** The id order with one id taken out. */
  function Without(order: seq<string>, id: string): (r: seq<string>)
    ensures forall x :: x in r <==> x in order && x != id
    ensures Distinct(order) ==> Distinct(r)
  {
    if order == [] then []
    else
      var rest := Without(order[1..], id);
      if order[0] == id then rest
      else
        assert Distinct(order) ==> order[0] !in order[1..];
        [order[0]] + rest
  }

  /** One index: its documents by id, and the ids in insertion order. */
  datatype Index = Index(order: seq<string>, docs: map<string, VectorDocument>) {

    /** The order lists each stored id exactly once, and each document is
        stored under its own id. */
    ghost predicate Valid() {
      Distinct(order) && (forall id :: id in docs <==> id in order)
      && forall id :: id in docs ==> docs[id].id == id
    }

    /** `index[doc_id] = doc`: a new id goes last, an existing one keeps its
        place and gets the new document. */
    function Put(id: string, doc: VectorDocument): (r: Index)
      requires Valid() && doc.id == id
      ensures r.Valid() && r.docs == docs[id := doc]
      ensures id in docs ==> r.order == order
      ensures id !in docs ==> r.order == order + [id]
    {
      if id in docs then Index(order, docs[id := doc]) else Index(order + [id], docs[id := doc])
    }

    /** `del index[doc_id]` when present; the other ids keep their order. */
    function Discard(id: string): (r: Index)
      requires Valid()
      ensures r.Valid() && r.docs == docs - {id}
      ensures forall x :: x in r.order <==> x in order && x != id
    {
      if id in docs then Index(Without(order, id), docs - {id}) else this
    }

    /** `index.values()`, in insertion order. */
    function Items(): (r: seq<VectorDocument>)
      requires Valid()
      ensures |r| == |order| && forall i :: 0 <= i < |r| ==> r[i] == docs[order[i]]
    {
      seq(|order|, i requires 0 <= i < |order| => docs[order[i]])
    }
  }

  function EmptyIndex(): Index {
    Index([], map[])
  }

  /** The index of that name, or a new empty one. */
  function IndexOr(indexes: map<string, Index>, name: string): Index {
    if name in indexes then indexes[name] else EmptyIndex()
  }

  /** `_apply_filters`, as a condition: every filter key is in the
      metadata with an equal value. */
  predicate Matches(metadata: map<string, Value>, filters: map<string, Value>) {
    forall k :: k in filters ==> k in metadata && metadata[k] == filters[k]
  }

  /** `_apply_filters`: an early-exit loop over the filters. */
  method ApplyFilters(doc: VectorDocument, filters: map<string, Value>) returns (ok: bool)
    ensures ok == Matches(doc.metadata, filters)
    ensures filters == map[] ==> ok
  {
    var keys := filters.Keys;
    while keys != {}
      invariant keys <= filters.Keys
      invariant forall k :: k in filters && k !in keys ==> k in doc.metadata && doc.metadata[k] == filters[k]
      decreases keys
    {
      var k :| k in keys;
      if k !in doc.metadata || doc.metadata[k] != filters[k] {
        return false;
      }
      keys := keys - {k};
    }
    return true;
  }

  /** One search result. */
  datatype Hit = Hit(id: string, content: string, metadata: map<string, Value>, score: real, createdAt: string)

  function HitScore(h: Hit): real {
    h.score
  }

  /** The results of the similarity loop: the documents that pass the
      filters, in order, each with its score against the query. */
  function Scored(docs: seq<VectorDocument>, query: seq<real>, filters: map<string, Value>,
                  similarity: (seq<real>, seq<real>) -> real): (r: seq<Hit>)
    ensures |r| <= |docs|
    ensures forall h :: h in r ==> exists d :: d in docs && d.id == h.id && Matches(d.metadata, filters)
  {
    if docs == [] then []
    else
      var init := docs[..|docs| - 1];
      var rest := Scored(init, query, filters, similarity);
      var d := docs[|docs| - 1];
      assert forall x :: x in init ==> x in docs;
      if Matches(d.metadata, filters) then
        rest + [Hit(d.id, d.content, d.metadata, similarity(query, d.embedding), d.createdAt)]
      else rest
  }

  /** The similarity loop one document further. */
  lemma ScoredStep(docs: seq<VectorDocument>, i: nat, query: seq<real>, filters: map<string, Value>,
                   similarity: (seq<real>, seq<real>) -> real)
    requires i < |docs|
    ensures var d := docs[i];
      Scored(docs[..i + 1], query, filters, similarity)
      == Scored(docs[..i], query, filters, similarity)
         + (if Matches(d.metadata, filters)
            then [Hit(d.id, d.content, d.metadata, similarity(query, d.embedding), d.createdAt)] else [])
  {
    assert docs[..i + 1][..i] == docs[..i];
  }

  /** The similarity loop of `search`: each document of the index that
      passes the filters, in order, with its score. */
  method ScoreDocs(items: seq<VectorDocument>, query: seq<real>, filters: map<string, Value>,
                   similarity: (seq<real>, seq<real>) -> real) returns (similarities: seq<Hit>)
    ensures similarities == Scored(items, query, filters, similarity)
  {
    similarities := [];
    var i := 0;
    while i < |items|
      invariant 0 <= i <= |items|
      invariant similarities == Scored(items[..i], query, filters, similarity)
    {
      ScoredStep(items, i, query, filters, similarity);
      var doc := items[i];
      var pass := ApplyFilters(doc, filters);
      if pass {
        similarities := similarities + [Hit(doc.id, doc.content, doc.metadata, similarity(query, doc.embedding), doc.createdAt)];
      }
      i := i + 1;
    }
    assert items[..i] == items;
  }

  /** Input of `add_documents_batch`: one document's fields. */
  datatype DocInput = DocInput(id: string, content: string, embedding: seq<real>, metadata: Option<map<string, Value>>)

  /** `get_stats` */
  datatype Stats = Stats(totalDocuments: nat, indexSizes: map<string, nat>)

  /** The whole store, as a value: the operations below are the methods'
      specifications. */
  datatype Store = Store(documents: map<string, VectorDocument>, indexes: map<string, Index>) {

    /** Every index is well formed, and every stored document is held, as
        it is, by some index. */
    ghost predicate Valid() {
      IndexesValid() && Reachable()
    }

    ghost predicate IndexesValid() {
      forall n :: n in indexes ==> indexes[n].Valid()
    }

    ghost predicate Reachable() {
      forall id :: id in documents ==> HeldBySomeIndex(id)
    }

    ghost predicate HeldBySomeIndex(id: string)
      requires id in documents
    {
      exists n :: n in indexes && id in indexes[n].docs && indexes[n].docs[id] == documents[id]
    }

    /** `add_document`: the document (metadata `{}` when none is given) is
        stored by id in the table and in the named index, which is created
        when missing; an existing id is overwritten. */
    function Add(id: string, content: string, embedding: seq<real>, metadata: Option<map<string, Value>>,
                 indexName: string, createdAt: string): (r: Store)
      requires IndexesValid()
      ensures r.IndexesValid()
      ensures r.documents == documents[id := VectorDocument(id, content, embedding, metadata.GetOr(map[]), createdAt)]
      ensures r.indexes.Keys == indexes.Keys + {indexName}
      ensures id in r.indexes[indexName].docs && r.indexes[indexName].docs[id] == r.documents[id]
      ensures forall n :: n in indexes && n != indexName ==> r.indexes[n] == indexes[n]
    {
      var doc := VectorDocument(id, content, embedding, metadata.GetOr(map[]), createdAt);
      Store(documents[id := doc], indexes[indexName := IndexOr(indexes, indexName).Put(id, doc)])
    }

    /** `add_documents_batch`: the documents added in order. */
    function AddAll(inputs: seq<DocInput>, indexName: string, createdAt: string): (r: Store)
      requires Valid()
      ensures r.Valid()
      decreases |inputs|
    {
      if inputs == [] then this
      else
        var s := AddAll(inputs[..|inputs| - 1], indexName, createdAt);
        var d := inputs[|inputs| - 1];
        AddValid(s, d.id, d.content, d.embedding, d.metadata, indexName, createdAt);
        s.Add(d.id, d.content, d.embedding, d.metadata, indexName, createdAt)
    }

    /** `delete_document`, on a stored id: gone from the table and from
        every index. */
    function Delete(id: string): Store
      requires IndexesValid()
    {
      Store(documents - {id}, map n | n in indexes :: indexes[n].Discard(id))
    }

    /** `clear_index`: the index's ids leave the table and the index is
        emptied; an unknown name changes nothing. */
    function ClearIndex(name: string): Store {
      if name !in indexes then this
      else Store(documents - indexes[name].docs.Keys, indexes[name := EmptyIndex()])
    }

    /** `search`: nothing for a missing or empty index; otherwise the
        filter-passing documents of the index, best score first (ties in
        insertion order), at most `top_k` of them. */
    function Search(query: seq<real>, topK: int, indexName: string, filters: map<string, Value>,
                    similarity: (seq<real>, seq<real>) -> real): seq<Hit>
      requires IndexesValid()
    {
      if indexName !in indexes || indexes[indexName].docs == map[] then []
      else SliceTo(SortDesc(Scored(indexes[indexName].Items(), query, filters, similarity), HitScore), topK)
    }

    /** `get_document` */
    function GetDocument(id: string): (r: Option<VectorDocument>)
      ensures r.Some? <==> id in documents
      ensures r.Some? ==> r.value == documents[id]
    {
      if id in documents then Some(documents[id]) else None
    }

    /** `get_stats`: the table's size and each index's size. */
    function GetStats(): (r: Stats)
      ensures r.totalDocuments == |documents|
      ensures r.indexSizes.Keys == indexes.Keys
      ensures forall n :: n in indexes ==> r.indexSizes[n] == |indexes[n].docs|
    {
      Stats(|documents|, map n | n in indexes :: |indexes[n].docs|)
    }
  }

  /** The store `__init__` builds: no documents, three empty indexes. */
  function InitialStore(): (r: Store)
    ensures r.Valid()
  {
    Store(map[], map["general" := EmptyIndex(), "financial" := EmptyIndex(), "research" := EmptyIndex()])
  }

  lemma InitialIndexes()
    ensures "general" in InitialStore().indexes && "financial" in InitialStore().indexes
    ensures InitialStore().indexes["financial"] == EmptyIndex()
  {
  }

  /** Adding keeps the store well formed. */
  lemma AddValid(s: Store, id: string, content: string, embedding: seq<real>, metadata: Option<map<string, Value>>,
                 indexName: string, createdAt: string)
    requires s.Valid()
    ensures s.Add(id, content, embedding, metadata, indexName, createdAt).Valid()
  {
    var r := s.Add(id, content, embedding, metadata, indexName, createdAt);
    forall x | x in r.documents
      ensures r.HeldBySomeIndex(x)
    {
      if x != id {
        assert s.HeldBySomeIndex(x);
        var n :| n in s.indexes && x in s.indexes[n].docs && s.indexes[n].docs[x] == s.documents[x];
        assert n in r.indexes && x in r.indexes[n].docs && r.indexes[n].docs[x] == r.documents[x];
      } else {
        assert indexName in r.indexes;
      }
    }
  }

  /** Deleting keeps the store well formed. */
  lemma DeleteValid(s: Store, id: string)
    requires s.Valid()
    ensures s.Delete(id).Valid()
  {
    var r := s.Delete(id);
    forall x | x in r.documents
      ensures r.HeldBySomeIndex(x)
    {
      assert s.HeldBySomeIndex(x);
      var n :| n in s.indexes && x in s.indexes[n].docs && s.indexes[n].docs[x] == s.documents[x];
      assert n in r.indexes && x in r.indexes[n].docs && r.indexes[n].docs[x] == r.documents[x];
    }
  }

  /** Clearing an index keeps the store well formed: an id that stays in
      the table is held by some other index. */
  lemma ClearIndexValid(s: Store, name: string)
    requires s.Valid()
    ensures s.ClearIndex(name).Valid()
  {
    var r := s.ClearIndex(name);
    if name in s.indexes {
      forall x | x in r.documents
        ensures r.HeldBySomeIndex(x)
      {
        HeldAfterClear(s, name, r, x);
      }
    }
  }

  lemma HeldAfterClear(s: Store, name: string, r: Store, x: string)
    requires s.Valid() && name in s.indexes
    requires r == Store(s.documents - s.indexes[name].docs.Keys, s.indexes[name := EmptyIndex()])
    requires x in r.documents
    ensures r.HeldBySomeIndex(x)
  {
    assert s.HeldBySomeIndex(x);
    var n :| n in s.indexes && x in s.indexes[n].docs && s.indexes[n].docs[x] == s.documents[x];
    assert n != name;
    assert n in r.indexes && x in r.indexes[n].docs && r.indexes[n].docs[x] == r.documents[x];
  }

  /** Deleting a stored id removes it from the table and from every index
      and leaves everything else as it was. */
  lemma DeleteRemovesEverywhere(s: Store, id: string)
    requires s.Valid()
    ensures var r := s.Delete(id);
      id !in r.documents
      && r.indexes.Keys == s.indexes.Keys
      && (forall n :: n in r.indexes ==> id !in r.indexes[n].docs && r.indexes[n].docs == s.indexes[n].docs - {id})
      && (forall x :: x != id && x in s.documents ==> x in r.documents && r.documents[x] == s.documents[x])
  {
  }

  /** Adding a new id grows the table by one. */
  lemma AddCountsOne(s: Store, id: string, content: string, embedding: seq<real>, metadata: Option<map<string, Value>>,
                     indexName: string, createdAt: string)
    requires s.Valid() && id !in s.documents
    ensures |s.Add(id, content, embedding, metadata, indexName, createdAt).documents| == |s.documents| + 1
  {
  }

  lemma {:induction false} WithoutLast(order: seq<string>, id: string)
    requires id !in order
    ensures Without(order + [id], id) == order
  {
    if order == [] {
      assert [id][1..] == [];
    } else {
      assert (order + [id])[1..] == order[1..] + [id];
      WithoutLast(order[1..], id);
      assert order == [order[0]] + order[1..];
    }
  }

  /** Putting a new id into an index and discarding it again gives back the
      index. */
  lemma PutThenDiscard(ix: Index, id: string, doc: VectorDocument)
    requires ix.Valid() && doc.id == id && id !in ix.docs
    ensures ix.Put(id, doc).Discard(id) == ix
  {
    WithoutLast(ix.order, id);
    assert ix.docs[id := doc] - {id} == ix.docs;
  }

  /** Deleting an id that was new to the store and its indexes right after
      adding it gives back the store as it was. */
  lemma AddThenDeleteRestores(s: Store, id: string, content: string, embedding: seq<real>,
                              metadata: Option<map<string, Value>>, indexName: string, createdAt: string)
    requires s.IndexesValid() && id !in s.documents && indexName in s.indexes
    requires forall n :: n in s.indexes ==> id !in s.indexes[n].docs
    ensures s.Add(id, content, embedding, metadata, indexName, createdAt).IndexesValid()
    ensures s.Add(id, content, embedding, metadata, indexName, createdAt).Delete(id) == s
  {
    var doc := VectorDocument(id, content, embedding, metadata.GetOr(map[]), createdAt);
    var a := s.Add(id, content, embedding, metadata, indexName, createdAt);
    assert a.indexes == s.indexes[indexName := s.indexes[indexName].Put(id, doc)];
    assert a.documents - {id} == s.documents;
    DiscardAllRestores(s.indexes, indexName, id, doc, a.indexes);
  }

  lemma DiscardAllRestores(ixs: map<string, Index>, name: string, id: string, doc: VectorDocument,
                           added: map<string, Index>)
    requires forall n :: n in ixs ==> ixs[n].Valid() && id !in ixs[n].docs
    requires name in ixs && doc.id == id
    requires added == ixs[name := ixs[name].Put(id, doc)]
    ensures forall n :: n in added ==> added[n].Valid()
    ensures (map n | n in added :: added[n].Discard(id)) == ixs
  {
    PutThenDiscard(ixs[name], id, doc);
  }

  /** Clearing an index takes its ids out of the table and empties it; the
      other indexes and the ids they alone hold are untouched. */
  lemma ClearIndexEffect(s: Store, name: string)
    requires s.Valid() && name in s.indexes
    ensures var r := s.ClearIndex(name);
      r.indexes[name].docs == map[]
      && (forall x :: x in s.indexes[name].docs ==> x !in r.documents)
      && (forall x :: x in s.documents && x !in s.indexes[name].docs ==> x in r.documents && r.documents[x] == s.documents[x])
      && (forall n :: n in s.indexes && n != name ==> r.indexes[n] == s.indexes[n])
  {
  }

  /** An id added to two indexes is dropped from the table when one of them
      is cleared, yet the other index still holds it and search there still
      finds it. */
  lemma SharedIdOutlivesClear(id: string, content: string, embedding: seq<real>, similarity: (seq<real>, seq<real>) -> real)
    ensures var s := InitialStore().Add(id, content, embedding, None, "general", "t")
                                   .Add(id, content, embedding, None, "financial", "t")
                                   .ClearIndex("general");
      id !in s.documents && s.GetDocument(id) == None
      && id in s.indexes["financial"].docs
      && |s.Search(embedding, 5, "financial", map[], similarity)| == 1
  {
    var s0 := InitialStore();
    InitialIndexes();
    var s1 := s0.Add(id, content, embedding, None, "general", "t");
    var s2 := s1.Add(id, content, embedding, None, "financial", "t");
    var s3 := s2.ClearIndex("general");
    assert "financial" != "general";
    assert s1.indexes["financial"] == s0.indexes["financial"];
    assert s2.indexes["financial"].order == [id];
    assert s3.indexes["financial"] == s2.indexes["financial"];
    SearchSingle(s3, "financial", embedding, similarity);
  }

  /** An index holding one document answers an unfiltered search with one
      result. */
  lemma SearchSingle(s: Store, name: string, query: seq<real>, similarity: (seq<real>, seq<real>) -> real)
    requires s.IndexesValid() && name in s.indexes && |s.indexes[name].order| == 1
    ensures |s.Search(query, 5, name, map[], similarity)| == 1
  {
    var ix := s.indexes[name];
    assert ix.order[0] in ix.docs;
    var items := ix.Items();
    assert items[..0] == [];
    assert |Scored(items, query, map[], similarity)| == 1;
  }

  /** Search gives at most `top_k` results, best first, each a document of
      the index that passes the filters; no scored document left out
      scores above a kept one. */
  lemma SearchShape(s: Store, query: seq<real>, topK: int, indexName: string, filters: map<string, Value>,
                    similarity: (seq<real>, seq<real>) -> real)
    requires s.Valid()
    ensures var r := s.Search(query, topK, indexName, filters, similarity);
      Descending(r, HitScore)
      && (topK >= 0 ==> |r| <= topK)
      && (forall h :: h in r ==>
            (indexName in s.indexes && h.id in s.indexes[indexName].docs
             && Matches(s.indexes[indexName].docs[h.id].metadata, filters)))
      && (indexName in s.indexes ==>
            var omitted := multiset(Scored(s.indexes[indexName].Items(), query, filters, similarity)) - multiset(r);
            forall x, y :: x in omitted && y in r ==> HitScore(y) >= HitScore(x))
  {
    if indexName in s.indexes && s.indexes[indexName].docs != map[] {
      var index := s.indexes[indexName];
      var items := index.Items();
      var hits := Scored(items, query, filters, similarity);
      TopSorted(hits, HitScore, topK);
      TopIsBest(hits, HitScore, topK);
      forall h | h in s.Search(query, topK, indexName, filters, similarity)
        ensures h.id in index.docs && Matches(index.docs[h.id].metadata, filters)
      {
        assert h in hits;
        ScoredHitInIndex(index, query, filters, similarity, h);
      }
    }
  }

  /** A scored hit is a document of the index that passes the filters. */
  lemma ScoredHitInIndex(index: Index, query: seq<real>, filters: map<string, Value>,
                         similarity: (seq<real>, seq<real>) -> real, h: Hit)
    requires index.Valid() && h in Scored(index.Items(), query, filters, similarity)
    ensures h.id in index.docs && Matches(index.docs[h.id].metadata, filters)
  {
    var items := index.Items();
    var d :| d in items && d.id == h.id && Matches(d.metadata, filters);
    var j :| 0 <= j < |items| && items[j] == d;
    assert index.order[j] in index.docs;
  }

  /** The batch one document longer is the batch followed by that document. */
  lemma AddAllStep(s: Store, inputs: seq<DocInput>, i: nat, indexName: string, createdAt: string)
    requires s.Valid() && i < |inputs|
    ensures s.AddAll(inputs[..i], indexName, createdAt).Valid()
    ensures var d := inputs[i];
      s.AddAll(inputs[..i + 1], indexName, createdAt)
        == s.AddAll(inputs[..i], indexName, createdAt).Add(d.id, d.content, d.embedding, d.metadata, indexName, createdAt)
  {
    assert inputs[..i + 1][..i] == inputs[..i];
  }

  /** One pass of the loop of `delete_document` over index `n`. */
  lemma DiscardStep(before: map<string, Index>, ix: map<string, Index>, names: set<string>, n: string,
                    id: string, next: map<string, Index>)
    requires names <= ix.Keys && ix.Keys == before.Keys && n in names
    requires forall m :: m in before ==> before[m].Valid()
    requires forall m :: m in names ==> ix[m] == before[m]
    requires forall m :: m in ix && m !in names ==> ix[m] == before[m].Discard(id)
    requires next == if id in ix[n].docs then ix[n := ix[n].Discard(id)] else ix
    ensures names - {n} <= next.Keys && next.Keys == before.Keys
    ensures forall m :: m in names - {n} ==> next[m] == before[m]
    ensures forall m :: m in next && m !in names - {n} ==> next[m] == before[m].Discard(id)
  {
  }

  /** Indexes that each equal the original with `id` discarded are the
      indexes `delete_document` specifies. */
  lemma DiscardedEverywhere(before: map<string, Index>, after: map<string, Index>, id: string)
    requires forall n :: n in before ==> before[n].Valid()
    requires after.Keys == before.Keys
    requires forall n :: n in after ==> after[n] == before[n].Discard(id)
    ensures after == map n | n in before :: before[n].Discard(id)
  {
  }

  /** `MemoryVectorStore`: the table and the indexes, updated in place. */
  class MemoryVectorStore {
    var documents: map<string, VectorDocument>
    var indexes: map<string, Index>

    function State(): Store
      reads this
    {
      Store(documents, indexes)
    }

    constructor ()
      ensures State() == InitialStore()
    {
      documents := map[];
      indexes := map["general" := EmptyIndex(), "financial" := EmptyIndex(), "research" := EmptyIndex()];
    }

    /** `add_document`; it always reports success. */
    method AddDocument(id: string, content: string, embedding: seq<real>, metadata: Option<map<string, Value>>,
                       indexName: string, createdAt: string) returns (ok: bool)
      requires State().Valid()
      modifies this
      ensures ok
      ensures State() == old(State()).Add(id, content, embedding, metadata, indexName, createdAt)
      ensures State().Valid()
    {
      ghost var start := State();
      var doc := VectorDocument(id, content, embedding, metadata.GetOr(map[]), createdAt);
      documents := documents[id := doc];
      ghost var before := indexes;
      if indexName !in indexes {
        indexes := indexes[indexName := EmptyIndex()];
      }
      assert indexes[indexName] == IndexOr(before, indexName);
      var ix := indexes[indexName].Put(id, doc);
      indexes := indexes[indexName := ix];
      assert indexes == before[indexName := ix];
      AddValid(start, id, content, embedding, metadata, indexName, createdAt);
      ok := true;
    }

    /** `add_documents_batch`: the number of documents added, here all. */
    method AddDocumentsBatch(inputs: seq<DocInput>, indexName: string, createdAt: string) returns (count: nat)
      requires State().Valid()
      modifies this
      ensures count == |inputs|
      ensures State() == old(State()).AddAll(inputs, indexName, createdAt)
      ensures State().Valid()
    {
      ghost var start := State();
      count := 0;
      var i := 0;
      while i < |inputs|
        invariant 0 <= i <= |inputs| && count == i
        invariant start.Valid()
        invariant State() == start.AddAll(inputs[..i], indexName, createdAt)
      {
        AddAllStep(start, inputs, i, indexName, createdAt);
        var d := inputs[i];
        var ok := AddDocument(d.id, d.content, d.embedding, d.metadata, indexName, createdAt);
        if ok {
          count := count + 1;
        }
        i := i + 1;
      }
      assert inputs[..i] == inputs;
    }

    /** `delete_document`: False and no change for an unknown id. */
    method DeleteDocument(id: string) returns (ok: bool)
      requires State().Valid()
      modifies this
      ensures ok == (id in old(documents))
      ensures ok ==> State() == old(State()).Delete(id)
      ensures !ok ==> State() == old(State())
      ensures State().Valid()
    {
      DeleteValid(State(), id);
      if id !in documents {
        return false;
      }
      documents := documents - {id};
      ghost var before := indexes;
      var names := indexes.Keys;
      while names != {}
        invariant documents == old(documents) - {id}
        invariant names <= indexes.Keys && indexes.Keys == before.Keys
        invariant forall n :: n in before ==> before[n].Valid()
        invariant forall n :: n in names ==> indexes[n] == before[n]
        invariant forall n :: n in indexes && n !in names ==> indexes[n] == before[n].Discard(id)
        decreases names
      {
        var n :| n in names;
        var next := indexes;
        if id in indexes[n].docs {
          next := indexes[n := indexes[n].Discard(id)];
        }
        DiscardStep(before, indexes, names, n, id, next);
        indexes := next;
        names := names - {n};
      }
      DiscardedEverywhere(before, indexes, id);
      ok := true;
    }

    /** `clear_index` */
    method ClearIndex(name: string)
      requires State().Valid()
      modifies this
      ensures State() == old(State()).ClearIndex(name)
      ensures State().Valid()
    {
      ClearIndexValid(State(), name);
      if name in indexes {
        var ids := indexes[name].order;
        ghost var keys := indexes[name].docs.Keys;
        assert (set j | 0 <= j < |ids| :: ids[j]) == keys by {
          assert indexes[name].Valid();
          forall x | x in keys
            ensures x in (set j | 0 <= j < |ids| :: ids[j])
          {
            var j :| 0 <= j < |ids| && ids[j] == x;
          }
        }
        DropFromTable(ids);
        indexes := indexes[name := EmptyIndex()];
      }
    }

    /** The deletion loop of `clear_index`: each listed id still in the
        table is deleted from it. */
    method DropFromTable(ids: seq<string>)
      modifies this
      ensures indexes == old(indexes)
      ensures documents == old(documents) - (set j | 0 <= j < |ids| :: ids[j])
    {
      var i := 0;
      while i < |ids|
        invariant 0 <= i <= |ids| && indexes == old(indexes)
        invariant documents == old(documents) - (set j | 0 <= j < i :: ids[j])
      {
        if ids[i] in documents {
          documents := documents - {ids[i]};
        }
        i := i + 1;
      }
    }

    /** `search`: the similarity loop over the index, then the stable sort
        and the cut to `top_k`. */
    method Search(query: seq<real>, topK: int, indexName: string, filters: map<string, Value>,
                  similarity: (seq<real>, seq<real>) -> real) returns (results: seq<Hit>)
      requires State().Valid()
      ensures results == State().Search(query, topK, indexName, filters, similarity)
    {
      if indexName !in indexes || indexes[indexName].docs == map[] {
        return [];
      }
      var items := indexes[indexName].Items();
      var similarities := ScoreDocs(items, query, filters, similarity);
      results := SliceTo(SortDesc(similarities, HitScore), topK);
    }
  }
}
