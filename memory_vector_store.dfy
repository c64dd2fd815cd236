/** knowledge_base/vector_store/memory_vector_store.py: the vector store kept
    as four parallel lists (vectors, texts, metadatas, ids). Position `i` of
    the four lists is one stored entry. The uuid generator, the clock and
    cosine similarity are parameters. */
module VectorLists {

  import opened Common
  import opened PyText
  import opened Ranking

  /** Position `i` of the four lists. */
  datatype Entry = Entry(vector: seq<real>, text: string, metadata: map<string, Value>, id: string)

  function Ids(es: seq<Entry>): seq<string> {
    seq(|es|, i requires 0 <= i < |es| => es[i].id)
  }

  /** The metadata `add_embeddings` stores: the given one with `added_at` set. */
  function Stamped(metadata: map<string, Value>, addedAt: string): map<string, Value> {
    metadata["added_at" := Str(addedAt)]
  }

  /** The entries `add_embeddings` appends: `zip` of the four inputs, which
      stops at the shortest of them. */
  function Zipped(texts: seq<string>, embeddings: seq<seq<real>>, metadatas: seq<map<string, Value>>,
                  ids: seq<string>, addedAt: string): (r: seq<Entry>)
    ensures |r| <= |texts| && |r| <= |embeddings| && |r| <= |metadatas| && |r| <= |ids|
    ensures |r| == |texts| || |r| == |embeddings| || |r| == |metadatas| || |r| == |ids|
  {
    if texts == [] || embeddings == [] || metadatas == [] || ids == [] then []
    else
      [Entry(embeddings[0], texts[0], Stamped(metadatas[0], addedAt), ids[0])]
      + Zipped(texts[1..], embeddings[1..], metadatas[1..], ids[1..], addedAt)
  }

  /** The ids `add_embeddings` uses: the given ones, or one fresh uuid per text. */
  function IdsFor(texts: seq<string>, given: Option<seq<string>>, uuid: nat -> string): (r: seq<string>)
    ensures given.Some? ==> r == given.value
    ensures given.None? ==> |r| == |texts| && forall i :: 0 <= i < |r| ==> r[i] == uuid(i)
  {
    match given
    case Some(ids) => ids
    case None => seq(|texts|, (i: int) requires 0 <= i < |texts| => uuid(i))
  }

  /** One search result. */
  datatype Hit = Hit(id: string, text: string, metadata: map<string, Value>, score: real)

  function HitScore(h: Hit): real {
    h.score
  }

  /** `metadata.get(key)`: a missing key reads as None. */
  function Get(metadata: map<string, Value>, key: string): Value {
    if key in metadata then metadata[key] else Null
  }

  /** The filter of `search`: `metadata.get(key) == value` for every filter
      key. A `None` filter and an empty one both keep everything. */
  predicate Matches(metadata: map<string, Value>, filter: map<string, Value>) {
    forall k :: k in filter ==> Get(metadata, k) == filter[k]
  }

  /** The hit for one entry. */
  function HitOf(e: Entry, query: seq<real>, similarity: (seq<real>, seq<real>) -> real): Hit {
    Hit(e.id, e.text, e.metadata, similarity(query, e.vector))
  }

  /** The scoring loop of `search`: one hit per entry passing the filter, in
      list order. */
  function Scored(es: seq<Entry>, query: seq<real>, filter: map<string, Value>,
                  similarity: (seq<real>, seq<real>) -> real): (r: seq<Hit>)
    ensures |r| <= |es|
    ensures forall h :: h in r ==> exists i :: 0 <= i < |es| && Matches(es[i].metadata, filter) && h == HitOf(es[i], query, similarity)
    ensures forall i :: 0 <= i < |es| && Matches(es[i].metadata, filter) ==> HitOf(es[i], query, similarity) in r
  {
    if es == [] then []
    else
      var init := es[..|es| - 1];
      var e := es[|es| - 1];
      var rest := Scored(init, query, filter, similarity);
      assert forall i :: 0 <= i < |init| ==> init[i] == es[i];
      if Matches(e.metadata, filter) then rest + [HitOf(e, query, similarity)] else rest
  }

  /** The scoring loop one entry further. */
  lemma ScoredStep(es: seq<Entry>, i: nat, query: seq<real>, filter: map<string, Value>,
                   similarity: (seq<real>, seq<real>) -> real)
    requires i < |es|
    ensures Scored(es[..i + 1], query, filter, similarity)
      == Scored(es[..i], query, filter, similarity)
         + (if Matches(es[i].metadata, filter) then [HitOf(es[i], query, similarity)] else [])
  {
    assert es[..i + 1][..i] == es[..i];
  }

  /** `search`: nothing on an empty store; otherwise the filtered hits in
      descending score order (a stable sort), cut to `top_k`. */
  function SearchResults(es: seq<Entry>, query: seq<real>, topK: int, filter: map<string, Value>,
                  similarity: (seq<real>, seq<real>) -> real): seq<Hit>
  {
    if es == [] then [] else SliceTo(SortDesc(Scored(es, query, filter, similarity), HitScore), topK)
  }

  /** The results are in descending score order, at most `top_k` of them,
      each one is a stored entry whose metadata passes the filter, and no
      candidate left out scores above a kept one. */
  lemma SearchShape(es: seq<Entry>, query: seq<real>, topK: int, filter: map<string, Value>,
                    similarity: (seq<real>, seq<real>) -> real)
    ensures var r := SearchResults(es, query, topK, filter, similarity);
      Descending(r, HitScore)
      && (es == [] ==> r == [])
      && (topK >= 0 ==> |r| <= topK)
      && (forall h :: h in r ==> exists i :: 0 <= i < |es| && Matches(es[i].metadata, filter) && h == HitOf(es[i], query, similarity))
      && forall x, y :: x in multiset(Scored(es, query, filter, similarity)) - multiset(r) && y in r ==> HitScore(y) >= HitScore(x)
  {
    if es != [] {
      TopSorted(Scored(es, query, filter, similarity), HitScore, topK);
      TopIsBest(Scored(es, query, filter, similarity), HitScore, topK);
    }
  }

  /** With a large enough `top_k` nothing that passes the filter is lost;
      in particular a filter asking for `None` keeps the entries that lack
      the key. */
  lemma SearchKeepsEveryMatch(es: seq<Entry>, query: seq<real>, topK: int, filter: map<string, Value>,
                              similarity: (seq<real>, seq<real>) -> real, i: nat)
    requires i < |es| && topK >= |es|
    requires forall k :: k in filter ==> (k in es[i].metadata && es[i].metadata[k] == filter[k]) || (k !in es[i].metadata && filter[k] == Null)
    ensures HitOf(es[i], query, similarity) in SearchResults(es, query, topK, filter, similarity)
  {
    var hits := Scored(es, query, filter, similarity);
    var sorted := SortDesc(hits, HitScore);
    assert HitOf(es[i], query, similarity) in hits;
    assert HitOf(es[i], query, similarity) in multiset(sorted);
    assert SliceTo(sorted, topK) == sorted;
  }

  /** `get_stats` */
  datatype Stats = Stats(totalVectors: nat, vectorDimension: nat, storageType: string)

  /** `get_stats`: the number of entries, the length of the first vector
      (0 when there is none) and the storage type. */
  function StatsOf(es: seq<Entry>): (r: Stats)
    ensures r.totalVectors == |es| && r.storageType == "memory"
    ensures es == [] ==> r.vectorDimension == 0
    ensures es != [] ==> r.vectorDimension == |es[0].vector|
  {
    Stats(|es|, if es == [] then 0 else |es[0].vector|, "memory")
  }

  // ----- delete -----

  /** `ids.index(id)`: the first position holding `id`. */
  function FirstIndex(ids: seq<string>, id: string): (r: nat)
    requires id in ids
    ensures r < |ids| && ids[r] == id && id !in ids[..r]
  {
    if ids[0] == id then 0
    else
      assert ids == [ids[0]] + ids[1..];
      1 + FirstIndex(ids[1..], id)
  }

  /** The first positions of the requested ids that are present. */
  function FirstPositions(ids: seq<string>, requested: seq<string>): set<nat> {
    set x | x in requested && x in ids :: FirstIndex(ids, x)
  }

  function Elems(xs: seq<nat>): set<nat> {
    set x | x in xs
  }

  /** The index list `delete` builds as written: the first position of
      each requested id that is present, in request order, repeated when
      an id is requested twice. */
  function IndicesAsWritten(ids: seq<string>, requested: seq<string>): (r: seq<nat>)
    ensures forall k :: 0 <= k < |r| ==> r[k] < |ids|
  {
    if requested == [] then []
    else
      var rest := IndicesAsWritten(ids, requested[..|requested| - 1]);
      var x := requested[|requested| - 1];
      if x in ids then rest + [FirstIndex(ids, x)] else rest
  }

  /** The index list with a position already collected skipped: each first
      position once. */
  function Indices(ids: seq<string>, requested: seq<string>): (r: seq<nat>)
    ensures forall k :: 0 <= k < |r| ==> r[k] < |ids|
  {
    if requested == [] then []
    else
      var rest := Indices(ids, requested[..|requested| - 1]);
      var x := requested[|requested| - 1];
      if x in ids && FirstIndex(ids, x) !in rest then rest + [FirstIndex(ids, x)] else rest
  }

  /** Each collected position occurs once, and the positions collected are
      the first positions of the requested ids that are present. */
  lemma {:induction false} IndicesShape(ids: seq<string>, requested: seq<string>)
    ensures Distinct(Indices(ids, requested))
    ensures Elems(Indices(ids, requested)) == FirstPositions(ids, requested)
  {
    if requested != [] {
      var init := requested[..|requested| - 1];
      var x := requested[|requested| - 1];
      IndicesShape(ids, init);
      assert forall y :: y in requested <==> y in init || y == x;
      assert FirstPositions(ids, requested) == FirstPositions(ids, init) + (if x in ids then {FirstIndex(ids, x)} else {});
    }
  }

  /** Sorting key of the positions. */
  function Position(i: nat): real {
    i as real
  }

  function RemoveAt(es: seq<Entry>, i: nat): seq<Entry>
    requires i < |es|
  {
    es[..i] + es[i + 1..]
  }

  /** The outcome of the deletion loop: whether it ran to the end (an
      `IndexError` makes `delete` return False) and the entries left. */
  datatype Removal = Removal(ok: bool, entries: seq<Entry>)

  /** `del` at each listed position in turn, stopping at the first position
      past the end. */
  function RemoveEach(es: seq<Entry>, positions: seq<nat>): Removal {
    if positions == [] then Removal(true, es)
    else if positions[0] < |es| then RemoveEach(RemoveAt(es, positions[0]), positions[1..])
    else Removal(false, es)
  }

  /** `delete` as written: the collected positions sorted in descending order,
      then deleted one by one. */
  function DeletedAsWritten(es: seq<Entry>, requested: seq<string>): Removal {
    RemoveEach(es, SortDesc(IndicesAsWritten(Ids(es), requested), Position))
  }

  /** `delete` with each position collected once. */
  function Deleted(es: seq<Entry>, requested: seq<string>): Removal {
    RemoveEach(es, SortDesc(Indices(Ids(es), requested), Position))
  }

  /** The entries at the positions outside `p`, in their order. */
  function Keep(es: seq<Entry>, p: set<nat>): (r: seq<Entry>)
    ensures |r| <= |es| && forall e :: e in r ==> e in es
  {
    if es == [] then []
    else
      var rest := Keep(es[..|es| - 1], p);
      if |es| - 1 in p then rest else rest + [es[|es| - 1]]
  }

  lemma {:induction false} KeepBeyond(es: seq<Entry>, p: set<nat>)
    requires forall q :: q in p ==> q >= |es|
    ensures Keep(es, p) == es
  {
    if es != [] {
      KeepBeyond(es[..|es| - 1], p);
    }
  }

  /** Deleting position `j` of what is kept, when every position already
      removed lies after `j`, is keeping one position fewer. */
  lemma {:induction false} RemoveKeep(es: seq<Entry>, p: set<nat>, j: nat)
    requires j < |es| && j !in p
    requires forall q :: q in p ==> q > j
    ensures j < |Keep(es, p)|
    ensures RemoveAt(Keep(es, p), j) == Keep(es, p + {j})
  {
    var init := es[..|es| - 1];
    if j == |es| - 1 {
      KeepBeyond(init, p);
      KeepBeyond(init, p + {j});
      assert init + [es[j]] == es;
    } else {
      RemoveKeep(init, p, j);
      var a := Keep(init, p);
      var t := if |es| - 1 in p then [] else [es[|es| - 1]];
      assert Keep(es, p) == a + t;
      assert Keep(es, p + {j}) == Keep(init, p + {j}) + t;
      assert (a + t)[..j] == a[..j];
      assert (a + t)[j + 1..] == a[j + 1..] + t;
    }
  }

  predicate StrictlyDescending(xs: seq<nat>) {
    forall i, j :: 0 <= i < j < |xs| ==> xs[i] > xs[j]
  }

  /** Deleting strictly descending positions, all before those removed
      already, is keeping the rest. */
  lemma {:induction false} RemoveEachKeep(es: seq<Entry>, p: set<nat>, positions: seq<nat>)
    requires StrictlyDescending(positions)
    requires forall k :: 0 <= k < |positions| ==> positions[k] < |es| && positions[k] !in p
    requires forall q, k :: q in p && 0 <= k < |positions| ==> q > positions[k]
    ensures RemoveEach(Keep(es, p), positions) == Removal(true, Keep(es, p + Elems(positions)))
    decreases |positions|
  {
    if positions == [] {
      assert Elems(positions) == {};
      assert p + Elems(positions) == p;
    } else {
      var j := positions[0];
      RemoveKeep(es, p, j);
      RemoveEachKeep(es, p + {j}, positions[1..]);
      assert p + {j} + Elems(positions[1..]) == p + Elems(positions) by {
        assert forall x :: x in positions <==> x == j || x in positions[1..];
      }
    }
  }

  /** Sorting distinct positions in descending order makes them strictly
      descending, with the same elements. */
  lemma SortedPositions(xs: seq<nat>)
    requires Distinct(xs)
    ensures StrictlyDescending(SortDesc(xs, Position))
    ensures Elems(SortDesc(xs, Position)) == Elems(xs)
  {
    var s := SortDesc(xs, Position);
    SortDescSorted(xs, Position);
    SortKeepsDistinct(xs, Position);
    DistinctDescending(s);
    SameElems(s, xs);
  }

  /** Positions in descending order without repetition are strictly
      descending. */
  lemma DistinctDescending(s: seq<nat>)
    requires Descending(s, Position) && Distinct(s)
    ensures StrictlyDescending(s)
  {
    forall i, j | 0 <= i < j < |s|
      ensures s[i] > s[j]
    {
      assert Position(s[i]) >= Position(s[j]);
    }
  }

  lemma SameElems(s: seq<nat>, xs: seq<nat>)
    requires forall x :: x in s <==> x in xs
    ensures Elems(s) == Elems(xs)
  {
  }

  /** `delete` with each position collected once never fails, and removes
      exactly the first entry holding each requested id that is present,
      keeping the others in their order. */
  lemma DeleteRemovesFirstOccurrences(es: seq<Entry>, requested: seq<string>)
    ensures Deleted(es, requested) == Removal(true, Keep(es, FirstPositions(Ids(es), requested)))
  {
    var idxs := Indices(Ids(es), requested);
    IndicesShape(Ids(es), requested);
    var sorted := SortDesc(idxs, Position);
    SortedPositions(idxs);
    forall k | 0 <= k < |sorted|
      ensures sorted[k] < |es|
    {
      assert sorted[k] in Elems(idxs);
    }
    RemoveEachKeep(es, {}, sorted);
    KeepBeyond(es, {});
    assert {} + Elems(sorted) == FirstPositions(Ids(es), requested);
  }

  /** For requests without a repeated id the code as written collects the
      same positions, so it behaves the same. */
  lemma {:induction false} DistinctRequestIndices(ids: seq<string>, requested: seq<string>)
    requires Distinct(requested)
    ensures IndicesAsWritten(ids, requested) == Indices(ids, requested)
  {
    if requested != [] {
      var init := requested[..|requested| - 1];
      var x := requested[|requested| - 1];
      DistinctRequestIndices(ids, init);
      IndicesShape(ids, init);
      if x in ids {
        forall y | y in init && y in ids
          ensures FirstIndex(ids, y) != FirstIndex(ids, x)
        {
          var k :| 0 <= k < |init| && init[k] == y;
          assert requested[k] == y;
        }
        assert FirstIndex(ids, x) !in FirstPositions(ids, init);
      }
    }
  }

  lemma DistinctRequestAgrees(es: seq<Entry>, requested: seq<string>)
    requires Distinct(requested)
    ensures DeletedAsWritten(es, requested) == Deleted(es, requested)
  {
    DistinctRequestIndices(Ids(es), requested);
  }

  lemma SortZeros()
    ensures SortDesc<nat>([0], Position) == [0]
    ensures SortDesc<nat>([0, 0], Position) == [0, 0]
  {
    var one: seq<nat> := [0];
    var two: seq<nat> := [0, 0];
    assert SortDesc(one, Position) == one;
    assert two[1..] == one;
  }

  /** The position list of a request for `a` twice, as written: position 0
      twice when the first entry is `a`. */
  lemma RepeatedIdIndices(ids: seq<string>)
    requires |ids| > 0 && ids[0] == "a"
    ensures IndicesAsWritten(ids, ["a", "a"]) == [0, 0]
    ensures Indices(ids, ["a", "a"]) == [0]
  {
    RepeatedIdIndicesAsWritten(ids);
    RepeatedIdIndicesOnce(ids);
  }

  lemma RepeatedIdIndicesAsWritten(ids: seq<string>)
    requires |ids| > 0 && ids[0] == "a"
    ensures IndicesAsWritten(ids, ["a", "a"]) == [0, 0]
  {
    assert FirstIndex(ids, "a") == 0;
    assert ["a", "a"][..1] == ["a"];
    assert ["a"][..0] == [];
    assert IndicesAsWritten(ids, ["a"]) == [0];
  }

  lemma RepeatedIdIndicesOnce(ids: seq<string>)
    requires |ids| > 0 && ids[0] == "a"
    ensures Indices(ids, ["a", "a"]) == [0]
  {
    assert FirstIndex(ids, "a") == 0;
    assert ["a", "a"][..1] == ["a"];
    assert ["a"][..0] == [];
    assert Indices(ids, ["a"]) == [0];
  }

  /** A repeated id makes the code as written delete a bystander: with ids
      `a`, `b`, deleting `[a, a]` collects position 0 twice and so deletes
      both entries; collecting each position once deletes only `a`. */
  lemma RepeatedIdDeletesBystander(a: Entry, b: Entry)
    requires a.id == "a" && b.id == "b"
    ensures DeletedAsWritten([a, b], ["a", "a"]) == Removal(true, [])
    ensures Deleted([a, b], ["a", "a"]) == Removal(true, [b])
  {
    var es := [a, b];
    assert Ids(es) == ["a", "b"];
    RepeatedIdIndices(Ids(es));
    SortZeros();
    RemoveZeroTwice(a, b);
    RemoveZeroOnce(a, b);
  }

  lemma RemoveZeroTwice(a: Entry, b: Entry)
    ensures RemoveEach([a, b], [0, 0]) == Removal(true, [])
  {
    var one: seq<nat> := [0];
    var two: seq<nat> := [0, 0];
    assert RemoveAt([a, b], 0) == [b];
    assert RemoveAt([b], 0) == [];
    assert two[1..] == one && one[1..] == [];
    assert RemoveEach([b], one) == Removal(true, []);
    assert RemoveEach([a, b], two) == RemoveEach([b], one);
  }

  lemma RemoveZeroOnce(a: Entry, b: Entry)
    ensures RemoveEach([a, b], [0]) == Removal(true, [b])
  {
    var one: seq<nat> := [0];
    assert RemoveAt([a, b], 0) == [b];
    assert one[1..] == [];
    assert RemoveEach([a, b], one) == RemoveEach([b], []);
  }

  /** With the single id `a`, the second deletion of position 0 raises, and
      `delete` reports False although `a` is gone. */
  lemma RepeatedIdReportsFailure(a: Entry)
    requires a.id == "a"
    ensures DeletedAsWritten([a], ["a", "a"]) == Removal(false, [])
  {
    assert Ids([a]) == ["a"];
    RepeatedIdIndicesAsWritten(Ids([a]));
    SortZeros();
    RemoveZeroTwiceFails(a);
  }

  lemma RemoveZeroTwiceFails(a: Entry)
    ensures RemoveEach([a], [0, 0]) == Removal(false, [])
  {
    var one: seq<nat> := [0];
    var two: seq<nat> := [0, 0];
    assert RemoveAt([a], 0) == [];
    assert two[1..] == one;
    assert RemoveEach([a], two) == RemoveEach([], one);
  }

  /** The entries held by four lists of equal length. */
  function Entries(vectors: seq<seq<real>>, texts: seq<string>, metadatas: seq<map<string, Value>>,
                   ids: seq<string>): (r: seq<Entry>)
    requires |vectors| == |texts| == |metadatas| == |ids|
    ensures |r| == |ids| && Ids(r) == ids
  {
    seq(|ids|, i requires 0 <= i < |ids| => Entry(vectors[i], texts[i], metadatas[i], ids[i]))
  }

  /** The collection loop of `delete`, each position taken once. */
  method CollectIndices(ids: seq<string>, requested: seq<string>) returns (toRemove: seq<nat>)
    ensures toRemove == Indices(ids, requested)
  {
    toRemove := [];
    var i := 0;
    while i < |requested|
      invariant 0 <= i <= |requested|
      invariant toRemove == Indices(ids, requested[..i])
    {
      assert requested[..i + 1][..i] == requested[..i];
      var x := requested[i];
      if x in ids {
        var idx := FirstIndex(ids, x);
        if idx !in toRemove {
          toRemove := toRemove + [idx];
        }
      }
      i := i + 1;
    }
    assert requested[..i] == requested;
  }

  /** Appending one position to each of the four lists appends one entry. */
  lemma EntriesSnoc(vectors: seq<seq<real>>, texts: seq<string>, metadatas: seq<map<string, Value>>,
                    ids: seq<string>, e: Entry)
    requires |vectors| == |texts| == |metadatas| == |ids|
    ensures Entries(vectors + [e.vector], texts + [e.text], metadatas + [e.metadata], ids + [e.id])
      == Entries(vectors, texts, metadatas, ids) + [e]
  {
  }

  /** Deleting position `i` of each of the four lists deletes entry `i`. */
  lemma EntriesRemoveAt(vectors: seq<seq<real>>, texts: seq<string>, metadatas: seq<map<string, Value>>,
                        ids: seq<string>, i: nat)
    requires |vectors| == |texts| == |metadatas| == |ids| && i < |ids|
    ensures Entries(vectors[..i] + vectors[i + 1..], texts[..i] + texts[i + 1..],
                    metadatas[..i] + metadatas[i + 1..], ids[..i] + ids[i + 1..])
      == RemoveAt(Entries(vectors, texts, metadatas, ids), i)
  {
    var r := RemoveAt(Entries(vectors, texts, metadatas, ids), i);
    assert forall k :: 0 <= k < |r| ==> r[k] == (if k < i then Entries(vectors, texts, metadatas, ids)[k]
                                                else Entries(vectors, texts, metadatas, ids)[k + 1]);
  }

  /** The store itself. */
  class MemoryVectorStore {
    var vectors: seq<seq<real>>
    var texts: seq<string>
    var metadatas: seq<map<string, Value>>
    var ids: seq<string>

    /** The four lists have equal length. */
    predicate Valid()
      reads this
    {
      |vectors| == |texts| == |metadatas| == |ids|
    }

    /** The entries the four lists hold. */
    function State(): (r: seq<Entry>)
      reads this
      requires Valid()
      ensures |r| == |ids| && Ids(r) == ids
    {
      Entries(vectors, texts, metadatas, ids)
    }

    constructor ()
      ensures Valid() && State() == []
    {
      vectors := [];
      texts := [];
      metadatas := [];
      ids := [];
    }

    /** `add_embeddings`: appends the zipped inputs, each metadata stamped
        with `added_at`, and returns the ids, given or generated. */
    method AddEmbeddings(newTexts: seq<string>, embeddings: seq<seq<real>>, newMetadatas: seq<map<string, Value>>,
                         given: Option<seq<string>>, uuid: nat -> string, addedAt: string) returns (r: seq<string>)
      requires Valid()
      modifies this
      ensures Valid()
      ensures r == IdsFor(newTexts, given, uuid)
      ensures State() == old(State()) + Zipped(newTexts, embeddings, newMetadatas, r, addedAt)
    {
      r := IdsFor(newTexts, given, uuid);
      ghost var added := Zipped(newTexts, embeddings, newMetadatas, r, addedAt);
      var i := 0;
      while i < |newTexts| && i < |embeddings| && i < |newMetadatas| && i < |r|
        invariant 0 <= i <= |added|
        invariant Valid()
        invariant State() == old(State()) + added[..i]
      {
        ZippedAt(newTexts, embeddings, newMetadatas, r, addedAt, i);
        EntriesSnoc(vectors, texts, metadatas, ids, added[i]);
        vectors := vectors + [embeddings[i]];
        texts := texts + [newTexts[i]];
        metadatas := metadatas + [Stamped(newMetadatas[i], addedAt)];
        ids := ids + [r[i]];
        assert added[..i + 1] == added[..i] + [added[i]];
        i := i + 1;
      }
      assert added[..i] == added;
    }

    /** `search` */
    method Search(query: seq<real>, topK: int, filter: map<string, Value>,
                  similarity: (seq<real>, seq<real>) -> real) returns (results: seq<Hit>)
      requires Valid()
      ensures results == SearchResults(State(), query, topK, filter, similarity)
    {
      if vectors == [] {
        return [];
      }
      ghost var es := State();
      var similarities: seq<Hit> := [];
      var i := 0;
      while i < |vectors|
        invariant 0 <= i <= |es|
        invariant similarities == Scored(es[..i], query, filter, similarity)
      {
        ScoredStep(es, i, query, filter, similarity);
        assert es[i] == Entry(vectors[i], texts[i], metadatas[i], ids[i]);
        if Matches(metadatas[i], filter) {
          similarities := similarities + [Hit(ids[i], texts[i], metadatas[i], similarity(query, vectors[i]))];
        }
        i := i + 1;
      }
      assert es[..i] == es;
      results := SliceTo(SortDesc(similarities, HitScore), topK);
    }

    /** `delete`, collecting each position once; it reports False only if
        a deletion raises `IndexError`, which then cannot happen. */
    method Delete(requested: seq<string>) returns (ok: bool)
      requires Valid()
      modifies this
      ensures Valid()
      ensures Removal(ok, State()) == Deleted(old(State()), requested)
    {
      ghost var es := State();
      var toRemove := CollectIndices(ids, requested);
      var order := SortDesc(toRemove, Position);
      var k := 0;
      while k < |order|
        invariant 0 <= k <= |order| && Valid()
        invariant RemoveEach(State(), order[k..]) == RemoveEach(es, order)
      {
        var idx := order[k];
        if idx >= |ids| {
          return false;
        }
        EntriesRemoveAt(vectors, texts, metadatas, ids, idx);
        vectors := vectors[..idx] + vectors[idx + 1..];
        texts := texts[..idx] + texts[idx + 1..];
        metadatas := metadatas[..idx] + metadatas[idx + 1..];
        ids := ids[..idx] + ids[idx + 1..];
        assert order[k..][1..] == order[k + 1..];
        k := k + 1;
      }
      ok := true;
    }

    /** `get_stats` */
    method GetStats() returns (s: Stats)
      requires Valid()
      ensures s == StatsOf(State())
    {
      s := Stats(|vectors|, if vectors == [] then 0 else |vectors[0]|, "memory");
    }

    /** `clear`: all four lists emptied. */
    method Clear()
      modifies this
      ensures Valid() && State() == []
    {
      vectors := [];
      texts := [];
      metadatas := [];
      ids := [];
    }
  }

  lemma {:induction false} ZippedAt(texts: seq<string>, embeddings: seq<seq<real>>, metadatas: seq<map<string, Value>>,
                                    ids: seq<string>, addedAt: string, i: nat)
    requires i < |texts| && i < |embeddings| && i < |metadatas| && i < |ids|
    ensures i < |Zipped(texts, embeddings, metadatas, ids, addedAt)|
    ensures Zipped(texts, embeddings, metadatas, ids, addedAt)[i] == Entry(embeddings[i], texts[i], Stamped(metadatas[i], addedAt), ids[i])
  {
    var rest := Zipped(texts[1..], embeddings[1..], metadatas[1..], ids[1..], addedAt);
    var head := Entry(embeddings[0], texts[0], Stamped(metadatas[0], addedAt), ids[0]);
    assert Zipped(texts, embeddings, metadatas, ids, addedAt) == [head] + rest;
    if i > 0 {
      ZippedAt(texts[1..], embeddings[1..], metadatas[1..], ids[1..], addedAt, i - 1);
      assert ([head] + rest)[i] == rest[i - 1];
    }
  }
}
