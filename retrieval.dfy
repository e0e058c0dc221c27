/**
 * The values behind backend/rag/hybrid_vector_store.py: the two document collections,
 * the BM25 corpus bookkeeping and the scoring, filtering, ordering and truncation of a
 * hybrid search, as functions of the store's state.
 */
module Retrieval {
  import opened Wrappers
  import opened Text
  import opened Models
  import opened Embeddings
  import opened Ranking

  // ---------------------------------------------------------------------------
  // Services outside the store
  // ---------------------------------------------------------------------------

  /** The tokenized documents a BM25 index was built from; `BM25Okapi` is a function of them. */
  type Corpus = seq<seq<string>>

  /**
   * What the store calls but does not define: the embedding provider (`None` when it raises),
   * md5, Python's per-process `hash`, whether `BM25Okapi(corpus)` constructs and whether
   * `add_doc` succeeds (`rank_bm25` may raise in either), `get_scores`, and the floating-point
   * value dot / (norm1 * norm2) of two non-zero vectors of equal length.
   */
  datatype Services = Services(
    embed: string -> Option<seq<real>>,
    md5: string -> Md5Digest,
    pyHash: string -> int,
    bm25Builds: Corpus -> bool,
    addDocSucceeds: (Corpus, seq<string>) -> bool,
    bm25Scores: (Corpus, seq<string>) -> seq<real>,
    cosine: (seq<real>, seq<real>) -> real)

  /** `get_dense_embedding`: the provider's vector, or the md5 fallback when the provider raises. */
  function DenseEmbedding(env: Services, text: string): seq<real> {
    match env.embed(text)
    case Some(e) => e
    case None => FallbackEmbedding(env.md5(text))
  }

  /** `doc.lower().split()`, the tokenization used for BM25. */
  function Tokenize(doc: string): seq<string> {
    Words(Lower(doc))
  }

  function TokenizeAll(docs: seq<string>): (ts: Corpus)
    ensures |ts| == |docs|
  {
    seq(|docs|, i requires 0 <= i < |docs| => Tokenize(docs[i]))
  }

  // ---------------------------------------------------------------------------
  // The document store's answers
  // ---------------------------------------------------------------------------

  /**
   * How many more calls the document store answers. Each `set`, `delete` and query `stream`
   * is one call. `Always`: every call succeeds. `Answers(n)`: the next n calls succeed and
   * every later call raises.
   */
  datatype Budget = Always | Answers(left: nat)

  /** Whether each of the next n calls is answered. */
  predicate Allows(b: Budget, n: nat) {
    b.Always? || n <= b.left
  }

  /** How many of n calls in a row are answered before the first one that raises. */
  function Granted(b: Budget, n: nat): (g: nat)
    ensures g <= n
    ensures g == n <==> Allows(b, n)
    ensures g < n ==> b == Answers(g)
  {
    if Allows(b, n) then n else b.left
  }

  /** What is left after n calls in a row; once a call raises, nothing is left. */
  function Spent(b: Budget, n: nat): (b': Budget)
    ensures b.Always? <==> b'.Always?
    ensures Allows(b, n) && b.Answers? ==> b'.left + n == b.left
    ensures !Allows(b, n) ==> b' == Answers(0)
  {
    if b.Always? then b else if n <= b.left then Answers(b.left - n) else Answers(0)
  }

  /** m calls and then n more are m + n calls: the pieces are answered exactly when the whole run is. */
  lemma SpentAdd(b: Budget, m: nat, n: nat)
    ensures Spent(Spent(b, m), n) == Spent(b, m + n)
    ensures Allows(b, m + n) <==> Allows(b, m) && Allows(Spent(b, m), n)
    ensures Granted(b, m + n) == Granted(b, m) + Granted(Spent(b, m), n)
  {
  }

  /** Of n stores of two calls each, made in a row, how many had both calls answered. */
  function StoresCompleted(b: Budget, n: nat): (k: nat)
    ensures k <= n
    ensures k == n <==> Allows(b, 2 * n)
  {
    Granted(b, 2 * n) / 2
  }

  /** Of the same n stores, how many had their first call answered. */
  function StoresStarted(b: Budget, n: nat): (k: nat)
    ensures StoresCompleted(b, n) <= k <= n
    ensures k <= StoresCompleted(b, n) + 1
  {
    (Granted(b, 2 * n) + 1) / 2
  }

  /**
   * A batch of two-call stores that stops at store i: of the 2n calls, 2i or 2i + 1 were
   * answered, so i stores completed and store i wrote its first document only when 2i + 1 were.
   */
  lemma StoreStopped(b: Budget, i: nat, n: nat)
    requires i < n && Allows(b, 2 * i) && !Allows(b, 2 * i + 2)
    ensures StoresCompleted(b, n) == i
    ensures StoresStarted(b, n) == if Allows(b, 2 * i + 1) then i + 1 else i
    ensures Spent(b, 2 * i + 2) == Spent(b, 2 * n)
  {
    assert b.left == 2 * i || b.left == 2 * i + 1;
  }

  /** The calls `hybrid_search` makes: the stream in `_load_bm25_index` when there is no index, then its own query. */
  function SearchCalls(index: Option<Corpus>): nat {
    if index.None? then 2 else 1
  }

  // ---------------------------------------------------------------------------
  // Collections
  // ---------------------------------------------------------------------------

  /** A stored document: its id and its content. */
  datatype Doc<T> = Doc(key: string, data: T)

  ghost predicate UniqueKeys<T>(coll: seq<Doc<T>>) {
    forall i, j :: 0 <= i < j < |coll| ==> coll[i].key != coll[j].key
  }

  function Lookup<T(==)>(coll: seq<Doc<T>>, key: string): Option<T> {
    if coll == [] then None
    else if coll[0].key == key then Some(coll[0].data)
    else Lookup(coll[1..], key)
  }

  ghost function Keys<T>(coll: seq<Doc<T>>): set<string> {
    set i | 0 <= i < |coll| :: coll[i].key
  }

  /** `collection.document(key).set(data)`: overwrite the document with that id, or add it. */
  function Upsert<T(==)>(coll: seq<Doc<T>>, key: string, data: T): seq<Doc<T>> {
    if coll == [] then [Doc(key, data)]
    else if coll[0].key == key then [Doc(key, data)] + coll[1..]
    else [coll[0]] + Upsert(coll[1..], key, data)
  }

  /** After a write, the id maps to the new content and every other id is untouched. */
  lemma {:induction false} UpsertLookup<T>(coll: seq<Doc<T>>, key: string, data: T)
    ensures Lookup(Upsert(coll, key, data), key) == Some(data)
    ensures forall k :: k != key ==> Lookup(Upsert(coll, key, data), k) == Lookup(coll, k)
  {
    if coll != [] && coll[0].key != key {
      UpsertLookup(coll[1..], key, data);
      assert Upsert(coll, key, data)[1..] == Upsert(coll[1..], key, data);
    }
  }

  /** A write adds its id to the ids of the collection and no other. */
  lemma {:induction false} UpsertKeys<T>(coll: seq<Doc<T>>, key: string, data: T)
    ensures Keys(Upsert(coll, key, data)) == Keys(coll) + {key}
  {
    var r := Upsert(coll, key, data);
    if coll == [] {
      assert r == [Doc(key, data)];
      KeysCons(Doc(key, data), []);
    } else {
      var rest := coll[1..];
      KeysCons(coll[0], rest);
      assert coll == [coll[0]] + rest;
      if coll[0].key == key {
        KeysCons(Doc(key, data), rest);
        assert r == [Doc(key, data)] + rest;
      } else {
        UpsertKeys(rest, key, data);
        KeysCons(coll[0], Upsert(rest, key, data));
        assert r == [coll[0]] + Upsert(rest, key, data);
      }
    }
  }

  /** Writes keep document ids unique. */
  lemma {:induction false} UpsertUnique<T>(coll: seq<Doc<T>>, key: string, data: T)
    requires UniqueKeys(coll)
    ensures UniqueKeys(Upsert(coll, key, data))
  {
    if coll != [] {
      var rest := coll[1..];
      assert UniqueKeys(rest);
      if coll[0].key == key {
        assert Upsert(coll, key, data) == [Doc(key, data)] + rest;
      } else {
        var r' := Upsert(rest, key, data);
        UpsertUnique(rest, key, data);
        UpsertKeys(rest, key, data);
        assert coll[0].key !in Keys(rest);
        assert forall j :: 0 <= j < |r'| ==> r'[j].key in Keys(r');
        assert Upsert(coll, key, data) == [coll[0]] + r';
      }
    }
  }

  /** The three facts about a write. */
  lemma UpsertSpec<T>(coll: seq<Doc<T>>, key: string, data: T)
    requires UniqueKeys(coll)
    ensures UniqueKeys(Upsert(coll, key, data))
    ensures Keys(Upsert(coll, key, data)) == Keys(coll) + {key}
    ensures Lookup(Upsert(coll, key, data), key) == Some(data)
    ensures forall k :: k != key ==> Lookup(Upsert(coll, key, data), k) == Lookup(coll, k)
  {
    UpsertLookup(coll, key, data);
    UpsertKeys(coll, key, data);
    UpsertUnique(coll, key, data);
  }

  lemma KeysCons<T>(d: Doc<T>, rest: seq<Doc<T>>)
    ensures Keys([d] + rest) == {d.key} + Keys(rest)
  {
    var s := [d] + rest;
    assert s[0].key == d.key;
    forall k | k in Keys(s) ensures k in {d.key} + Keys(rest) {
      var i :| 0 <= i < |s| && s[i].key == k;
      if i > 0 {
        assert rest[i - 1].key == k;
      }
    }
    forall k | k in Keys(rest) ensures k in Keys(s) {
      var i :| 0 <= i < |rest| && rest[i].key == k;
      assert s[i + 1].key == k;
    }
  }

  /** The documents whose content satisfies `keep`, in stored order. */
  function Where<T(==)>(coll: seq<Doc<T>>, keep: T -> bool): (r: seq<Doc<T>>)
    ensures |r| <= |coll|
  {
    if coll == [] then []
    else Where(coll[..|coll| - 1], keep) + (if keep(coll[|coll| - 1].data) then [coll[|coll| - 1]] else [])
  }

  /** `Where` keeps exactly the matching documents and the ids stay unique. */
  lemma {:induction false} WhereSpec<T>(coll: seq<Doc<T>>, keep: T -> bool)
    ensures forall d :: d in Where(coll, keep) <==> d in coll && keep(d.data)
  {
    if coll != [] {
      WhereSpec(coll[..|coll| - 1], keep);
      assert coll == coll[..|coll| - 1] + [coll[|coll| - 1]];
    }
  }

  function Contents<T(==)>(coll: seq<Doc<T>>): (r: seq<T>)
    ensures |r| == |coll|
  {
    seq(|coll|, i requires 0 <= i < |coll| => coll[i].data)
  }

  /** Dropping documents keeps ids unique. */
  lemma {:induction false} WhereUnique<T>(coll: seq<Doc<T>>, keep: T -> bool)
    requires UniqueKeys(coll)
    ensures UniqueKeys(Where(coll, keep))
    ensures Keys(Where(coll, keep)) <= Keys(coll)
  {
    if coll != [] {
      var init := coll[..|coll| - 1];
      var last := coll[|coll| - 1];
      UniqueInit(coll);
      WhereUnique(init, keep);
      if keep(last.data) {
        UniqueSnoc(Where(init, keep), last);
      }
    }
  }

  /** A collection with unique ids is its prefix, unique too, followed by a document with a new id. */
  lemma UniqueInit<T>(coll: seq<Doc<T>>)
    requires UniqueKeys(coll) && coll != []
    ensures UniqueKeys(coll[..|coll| - 1])
    ensures coll[|coll| - 1].key !in Keys(coll[..|coll| - 1])
    ensures Keys(coll) == Keys(coll[..|coll| - 1]) + {coll[|coll| - 1].key}
  {
    var init := coll[..|coll| - 1];
    assert forall k :: k in Keys(coll) ==> k in Keys(init) || k == coll[|coll| - 1].key;
  }

  /** Appending a document with a new id keeps ids unique. */
  lemma UniqueSnoc<T>(w: seq<Doc<T>>, d: Doc<T>)
    requires UniqueKeys(w) && d.key !in Keys(w)
    ensures UniqueKeys(w + [d])
    ensures Keys(w + [d]) == Keys(w) + {d.key}
  {
    assert forall j :: 0 <= j < |w| ==> w[j].key in Keys(w);
    var r := w + [d];
    assert forall k :: k in Keys(r) ==> k in Keys(w) || k == d.key;
    assert forall j :: 0 <= j < |w| ==> r[j] == w[j];
    assert r[|w|] == d;
  }

  /** How many documents satisfy `hit`. */
  function Hits<T(==)>(coll: seq<Doc<T>>, hit: T -> bool): nat {
    |Where(coll, hit)|
  }

  /**
   * The collection after deleting, in stored order, the first j documents that satisfy `hit`:
   * a delete loop over a query's stream that stops after j deletes.
   */
  function RemoveFirst<T(==)>(coll: seq<Doc<T>>, hit: T -> bool, j: nat): (r: seq<Doc<T>>)
    ensures |r| <= |coll|
  {
    if coll == [] then []
    else
      var init := coll[..|coll| - 1];
      var last := coll[|coll| - 1];
      RemoveFirst(init, hit, j) + (if hit(last.data) && Hits(init, hit) < j then [] else [last])
  }

  /** A prefix has no more hits than the whole collection. */
  lemma {:induction false} HitsPrefix<T>(coll: seq<Doc<T>>, hit: T -> bool, i: nat)
    requires i <= |coll|
    ensures Hits(coll[..i], hit) <= Hits(coll, hit)
    decreases |coll|
  {
    if i < |coll| {
      var init := coll[..|coll| - 1];
      assert coll[..i] == init[..i];
      HitsPrefix(init, hit, i);
    } else {
      assert coll[..i] == coll;
    }
  }

  /** One more streamed document: the loop step of a delete loop. */
  lemma RemoveFirstStep<T>(coll: seq<Doc<T>>, hit: T -> bool, j: nat, i: nat)
    requires i < |coll|
    ensures Hits(coll[..i + 1], hit) == Hits(coll[..i], hit) + (if hit(coll[i].data) then 1 else 0)
    ensures RemoveFirst(coll[..i + 1], hit, j)
         == RemoveFirst(coll[..i], hit, j) + (if hit(coll[i].data) && Hits(coll[..i], hit) < j then [] else [coll[i]])
  {
    assert coll[..i + 1][..i] == coll[..i];
  }

  /** Deleting nothing leaves the collection as it was. */
  lemma {:induction false} RemoveFirstNone<T>(coll: seq<Doc<T>>, hit: T -> bool)
    ensures RemoveFirst(coll, hit, 0) == coll
  {
    if coll != [] {
      RemoveFirstNone(coll[..|coll| - 1], hit);
      assert coll == coll[..|coll| - 1] + [coll[|coll| - 1]];
    }
  }

  /** Once the first j hits lie before position i, everything from i on is kept. */
  lemma {:induction false} RemoveFirstDone<T>(coll: seq<Doc<T>>, hit: T -> bool, j: nat, i: nat)
    requires i <= |coll| && j <= Hits(coll[..i], hit)
    ensures RemoveFirst(coll, hit, j) == RemoveFirst(coll[..i], hit, j) + coll[i..]
    decreases |coll|
  {
    if i == |coll| {
      assert coll[..i] == coll;
    } else {
      var init := coll[..|coll| - 1];
      assert init[..i] == coll[..i];
      RemoveFirstDone(init, hit, j, i);
      HitsPrefix(init, hit, i);
      assert init[i..] + [coll[|coll| - 1]] == coll[i..];
    }
  }

  /** Deleting at least every hit leaves exactly the documents that are not hits. */
  lemma {:induction false} RemoveFirstAll<T>(coll: seq<Doc<T>>, hit: T -> bool, keep: T -> bool, j: nat)
    requires forall x :: keep(x) == !hit(x)
    requires Hits(coll, hit) <= j
    ensures RemoveFirst(coll, hit, j) == Where(coll, keep)
  {
    if coll != [] {
      RemoveFirstAll(coll[..|coll| - 1], hit, keep, j);
    }
  }

  /** Deleting hits never loses a document that is not one. */
  lemma {:induction false} RemoveFirstKeeps<T>(coll: seq<Doc<T>>, hit: T -> bool, keep: T -> bool, j: nat)
    requires forall x :: keep(x) == !hit(x)
    ensures Where(RemoveFirst(coll, hit, j), keep) == Where(coll, keep)
  {
    if coll != [] {
      var init := coll[..|coll| - 1];
      var last := coll[|coll| - 1];
      var r := RemoveFirst(init, hit, j);
      RemoveFirstKeeps(init, hit, keep, j);
      if hit(last.data) && Hits(init, hit) < j {
        assert RemoveFirst(coll, hit, j) == r;
        assert !keep(last.data);
      } else {
        var r' := r + [last];
        assert RemoveFirst(coll, hit, j) == r';
        assert r'[..|r'| - 1] == r;
      }
    }
  }

  /** Exactly min(j, hits) of the hits are deleted. */
  lemma {:induction false} RemoveFirstCount<T>(coll: seq<Doc<T>>, hit: T -> bool, j: nat)
    ensures Hits(RemoveFirst(coll, hit, j), hit) + (if j <= Hits(coll, hit) then j else Hits(coll, hit))
         == Hits(coll, hit)
  {
    if coll != [] {
      var init := coll[..|coll| - 1];
      var last := coll[|coll| - 1];
      var r := RemoveFirst(init, hit, j);
      RemoveFirstCount(init, hit, j);
      if hit(last.data) && Hits(init, hit) < j {
        assert RemoveFirst(coll, hit, j) == r;
      } else {
        var r' := r + [last];
        assert RemoveFirst(coll, hit, j) == r';
        assert r'[..|r'| - 1] == r;
      }
    }
  }

  /** Deleting keeps document ids unique. */
  lemma {:induction false} RemoveFirstUnique<T>(coll: seq<Doc<T>>, hit: T -> bool, j: nat)
    requires UniqueKeys(coll)
    ensures UniqueKeys(RemoveFirst(coll, hit, j))
    ensures Keys(RemoveFirst(coll, hit, j)) <= Keys(coll)
  {
    if coll != [] {
      var init := coll[..|coll| - 1];
      var last := coll[|coll| - 1];
      UniqueInit(coll);
      RemoveFirstUnique(init, hit, j);
      if !(hit(last.data) && Hits(init, hit) < j) {
        UniqueSnoc(RemoveFirst(init, hit, j), last);
      }
    }
  }

  // ---------------------------------------------------------------------------
  // The two collections
  // ---------------------------------------------------------------------------

  /** A document of the `embeddings` collection, as `store_chunk` writes it. */
  datatype EmbeddingDoc = EmbeddingDoc(
    chunkId: string,
    documentId: string,
    denseEmbedding: seq<real>,
    sparseEmbedding: seq<real>,
    content: string,
    className: string,
    subjectName: string,
    fileId: string,
    chunkIndex: int,
    metadata: map<string, Value>,
    userId: Value,
    createdAt: string)

  /** `chunk.metadata.get("user_id", "default")`. */
  function UserIdOf(metadata: map<string, Value>): (v: Value)
    ensures "user_id" in metadata ==> v == metadata["user_id"]
    ensures "user_id" !in metadata ==> v == Str("default")
  {
    if "user_id" in metadata then metadata["user_id"] else Str("default")
  }

  /** The chunk with both embeddings computed from its content, as `store_chunk` fills it in. */
  function WithEmbeddings(env: Services, c: DocumentChunk): (r: DocumentChunk)
    ensures r == c.(denseEmbedding := r.denseEmbedding, sparseEmbedding := r.sparseEmbedding)
    ensures |r.sparseEmbedding| == SparseFeatures
  {
    c.(denseEmbedding := DenseEmbedding(env, c.content), sparseEmbedding := SparseVector(c.content, env.pyHash))
  }

  /** The `embedding_doc` of a chunk whose embeddings are filled in. */
  function EmbeddingDocOf(c: DocumentChunk): (e: EmbeddingDoc)
    ensures e.chunkId == c.id && e.content == c.content && e.fileId == c.fileId
    ensures e.userId == UserIdOf(c.metadata)
  {
    EmbeddingDoc(c.id, c.documentId, c.denseEmbedding, c.sparseEmbedding, c.content, c.className,
                 c.subjectName, c.fileId, c.chunkIndex, c.metadata, UserIdOf(c.metadata), IsoFormat(c.createdAt))
  }

  /** The `chunks` collection after `store_chunk` has written each of `cs` in order. */
  function StoredChunks(env: Services, coll: seq<Doc<DocumentChunk>>, cs: seq<DocumentChunk>): seq<Doc<DocumentChunk>> {
    if cs == [] then coll
    else
      var c := cs[|cs| - 1];
      Upsert(StoredChunks(env, coll, cs[..|cs| - 1]), c.id, WithEmbeddings(env, c))
  }

  /** The `embeddings` collection after `store_chunk` has written each of `cs` in order. */
  function StoredEmbeddings(env: Services, coll: seq<Doc<EmbeddingDoc>>, cs: seq<DocumentChunk>): seq<Doc<EmbeddingDoc>> {
    if cs == [] then coll
    else
      var c := cs[|cs| - 1];
      Upsert(StoredEmbeddings(env, coll, cs[..|cs| - 1]), c.id, EmbeddingDocOf(WithEmbeddings(env, c)))
  }

  /** `where("file_id", "==", file_id)` over the `chunks` collection: the stored field is `to_dict()["file_id"]`. */
  predicate InFile(c: DocumentChunk, fileId: string) {
    ChunkToDict(c)["file_id"] == Str(fileId)
  }

  /** The chunks `get_chunks_by_file_id` returns: the stored chunks of that file, in stored order. */
  function ChunksOfFile(coll: seq<Doc<DocumentChunk>>, fileId: string): seq<DocumentChunk> {
    Contents(Where(coll, (c: DocumentChunk) => InFile(c, fileId)))
  }

  /** The ids of a batch of chunks, in order: what `store_chunks` returns. */
  function ChunkIds(cs: seq<DocumentChunk>): (ids: seq<string>)
    ensures |ids| == |cs| && forall i :: 0 <= i < |cs| ==> ids[i] == cs[i].id
  {
    seq(|cs|, i requires 0 <= i < |cs| => cs[i].id)
  }

  /** The contents of a batch of chunks, in order: the documents handed to the BM25 index. */
  function ChunkContents(cs: seq<DocumentChunk>): (docs: seq<string>)
    ensures |docs| == |cs| && forall i :: 0 <= i < |cs| ==> docs[i] == cs[i].content
  {
    seq(|cs|, i requires 0 <= i < |cs| => cs[i].content)
  }

  /** After a file's chunks are deleted, none of them can be read back. */
  lemma DeletedChunksGone(coll: seq<Doc<DocumentChunk>>, fileId: string)
    ensures ChunksOfFile(Where(coll, (c: DocumentChunk) => !InFile(c, fileId)), fileId) == []
  {
    var kept := Where(coll, (c: DocumentChunk) => !InFile(c, fileId));
    WhereSpec(coll, (c: DocumentChunk) => !InFile(c, fileId));
    WhereNone(kept, (c: DocumentChunk) => InFile(c, fileId));
  }

  lemma {:induction false} WhereNone<T>(coll: seq<Doc<T>>, keep: T -> bool)
    requires forall i :: 0 <= i < |coll| ==> !keep(coll[i].data)
    ensures Where(coll, keep) == []
  {
    if coll != [] {
      WhereNone(coll[..|coll| - 1], keep);
    }
  }

  /** The chunk query of `delete_chunks_by_file_id`, as a test on a stored chunk. */
  function ChunkOfFile(fileId: string): DocumentChunk -> bool {
    (c: DocumentChunk) => InFile(c, fileId)
  }

  /** Its embedding query, as a test on a stored embedding document. */
  function EmbeddingOfFile(fileId: string): EmbeddingDoc -> bool {
    (e: EmbeddingDoc) => e.fileId == fileId
  }

  /** How many chunks of a file the chunk query streams. */
  function FileChunkCount(coll: seq<Doc<DocumentChunk>>, fileId: string): nat {
    Hits(coll, ChunkOfFile(fileId))
  }

  /** How many embedding documents of a file the embedding query streams. */
  function FileEmbeddingCount(coll: seq<Doc<EmbeddingDoc>>, fileId: string): nat {
    Hits(coll, EmbeddingOfFile(fileId))
  }

  /** The calls `delete_chunks_by_file_id` makes: in each collection a query, then a delete per document of the file. */
  function DeleteCalls(chunks: seq<Doc<DocumentChunk>>, embeddings: seq<Doc<EmbeddingDoc>>, fileId: string): nat {
    FileChunkCount(chunks, fileId) + FileEmbeddingCount(embeddings, fileId) + 2
  }

  /** The `chunks` collection after `delete_chunks_by_file_id`: the file's chunks deleted in order until a call raises. */
  function ChunksAfterDelete(chunks: seq<Doc<DocumentChunk>>, fileId: string, b: Budget): seq<Doc<DocumentChunk>> {
    RemoveFirst(chunks, ChunkOfFile(fileId), Granted(Spent(b, 1), FileChunkCount(chunks, fileId)))
  }

  /**
   * The `embeddings` collection after `delete_chunks_by_file_id`: its query comes only after
   * the chunk query and every chunk delete were answered.
   */
  function EmbeddingsAfterDelete(chunks: seq<Doc<DocumentChunk>>, embeddings: seq<Doc<EmbeddingDoc>>, fileId: string,
                                 b: Budget): seq<Doc<EmbeddingDoc>> {
    RemoveFirst(embeddings, EmbeddingOfFile(fileId),
                Granted(Spent(b, FileChunkCount(chunks, fileId) + 2), FileEmbeddingCount(embeddings, fileId)))
  }

  /** A delete, however far it gets, keeps document ids unique in both collections. */
  lemma DeleteUnique(chunks: seq<Doc<DocumentChunk>>, embeddings: seq<Doc<EmbeddingDoc>>, fileId: string, b: Budget)
    requires UniqueKeys(chunks) && UniqueKeys(embeddings)
    ensures UniqueKeys(ChunksAfterDelete(chunks, fileId, b))
    ensures UniqueKeys(EmbeddingsAfterDelete(chunks, embeddings, fileId, b))
  {
    RemoveFirstUnique(chunks, ChunkOfFile(fileId), Granted(Spent(b, 1), FileChunkCount(chunks, fileId)));
    RemoveFirstUnique(embeddings, EmbeddingOfFile(fileId),
                      Granted(Spent(b, FileChunkCount(chunks, fileId) + 2), FileEmbeddingCount(embeddings, fileId)));
  }

  /** When every call is answered, the file's documents are gone from both collections and nothing else is. */
  lemma DeleteAnswered(chunks: seq<Doc<DocumentChunk>>, embeddings: seq<Doc<EmbeddingDoc>>, fileId: string, b: Budget)
    requires Allows(b, DeleteCalls(chunks, embeddings, fileId))
    ensures ChunksAfterDelete(chunks, fileId, b) == Where(chunks, (c: DocumentChunk) => !InFile(c, fileId))
    ensures EmbeddingsAfterDelete(chunks, embeddings, fileId, b)
         == Where(embeddings, (e: EmbeddingDoc) => e.fileId != fileId)
  {
    var m, e := FileChunkCount(chunks, fileId), FileEmbeddingCount(embeddings, fileId);
    SpentAdd(b, 1, m + e + 1);
    SpentAdd(b, m + 2, e);
    RemoveFirstAll(chunks, ChunkOfFile(fileId), (c: DocumentChunk) => !InFile(c, fileId),
                   Granted(Spent(b, 1), m));
    RemoveFirstAll(embeddings, EmbeddingOfFile(fileId), (d: EmbeddingDoc) => d.fileId != fileId,
                   Granted(Spent(b, m + 2), e));
  }

  /** However early a delete stops, no document of another file is lost from either collection. */
  lemma DeleteKeepsOtherFiles(chunks: seq<Doc<DocumentChunk>>, embeddings: seq<Doc<EmbeddingDoc>>, fileId: string,
                              b: Budget)
    ensures Where(ChunksAfterDelete(chunks, fileId, b), (c: DocumentChunk) => !InFile(c, fileId))
         == Where(chunks, (c: DocumentChunk) => !InFile(c, fileId))
    ensures Where(EmbeddingsAfterDelete(chunks, embeddings, fileId, b), (e: EmbeddingDoc) => e.fileId != fileId)
         == Where(embeddings, (e: EmbeddingDoc) => e.fileId != fileId)
  {
    var m, e := FileChunkCount(chunks, fileId), FileEmbeddingCount(embeddings, fileId);
    RemoveFirstKeeps(chunks, ChunkOfFile(fileId), (c: DocumentChunk) => !InFile(c, fileId),
                     Granted(Spent(b, 1), m));
    RemoveFirstKeeps(embeddings, EmbeddingOfFile(fileId), (d: EmbeddingDoc) => d.fileId != fileId,
                     Granted(Spent(b, m + 2), e));
  }

  /** When the store answers nothing, the delete changes nothing. */
  lemma DeleteUnanswered(chunks: seq<Doc<DocumentChunk>>, embeddings: seq<Doc<EmbeddingDoc>>, fileId: string)
    ensures !Allows(Answers(0), DeleteCalls(chunks, embeddings, fileId))
    ensures ChunksAfterDelete(chunks, fileId, Answers(0)) == chunks
    ensures EmbeddingsAfterDelete(chunks, embeddings, fileId, Answers(0)) == embeddings
  {
    RemoveFirstNone(chunks, ChunkOfFile(fileId));
    RemoveFirstNone(embeddings, EmbeddingOfFile(fileId));
  }

  /**
   * A delete whose embedding query raises after every chunk delete was answered: it reports
   * failure, yet the file's chunks are all gone while all its embedding documents remain.
   */
  lemma DeleteStopsBeforeEmbeddings(chunks: seq<Doc<DocumentChunk>>, embeddings: seq<Doc<EmbeddingDoc>>, fileId: string)
    ensures var b := Answers(FileChunkCount(chunks, fileId) + 1);
      && !Allows(b, DeleteCalls(chunks, embeddings, fileId))
      && ChunksAfterDelete(chunks, fileId, b) == Where(chunks, (c: DocumentChunk) => !InFile(c, fileId))
      && EmbeddingsAfterDelete(chunks, embeddings, fileId, b) == embeddings
  {
    var m := FileChunkCount(chunks, fileId);
    RemoveFirstAll(chunks, ChunkOfFile(fileId), (c: DocumentChunk) => !InFile(c, fileId), m);
    RemoveFirstNone(embeddings, EmbeddingOfFile(fileId));
  }

  /** One more chunk of a batch: the loop step of `store_chunks`. */
  lemma StoredStep(env: Services, chunks: seq<Doc<DocumentChunk>>, embeddings: seq<Doc<EmbeddingDoc>>,
                   cs: seq<DocumentChunk>, i: nat)
    requires i < |cs|
    ensures var c := cs[i];
      && StoredChunks(env, chunks, cs[..i + 1]) == Upsert(StoredChunks(env, chunks, cs[..i]), c.id, WithEmbeddings(env, c))
      && StoredEmbeddings(env, embeddings, cs[..i + 1])
         == Upsert(StoredEmbeddings(env, embeddings, cs[..i]), c.id, EmbeddingDocOf(WithEmbeddings(env, c)))
      && ChunkIds(cs[..i + 1]) == ChunkIds(cs[..i]) + [c.id]
      && ChunkContents(cs[..i + 1]) == ChunkContents(cs[..i]) + [c.content]
  {
    StoredChunksStep(env, chunks, cs, i);
    StoredEmbeddingsStep(env, embeddings, cs, i);
    BatchStep(cs, i);
  }

  lemma StoredChunksStep(env: Services, chunks: seq<Doc<DocumentChunk>>, cs: seq<DocumentChunk>, i: nat)
    requires i < |cs|
    ensures StoredChunks(env, chunks, cs[..i + 1]) == Upsert(StoredChunks(env, chunks, cs[..i]), cs[i].id, WithEmbeddings(env, cs[i]))
  {
    assert cs[..i + 1][..i] == cs[..i];
  }

  lemma StoredEmbeddingsStep(env: Services, embeddings: seq<Doc<EmbeddingDoc>>, cs: seq<DocumentChunk>, i: nat)
    requires i < |cs|
    ensures StoredEmbeddings(env, embeddings, cs[..i + 1])
         == Upsert(StoredEmbeddings(env, embeddings, cs[..i]), cs[i].id, EmbeddingDocOf(WithEmbeddings(env, cs[i])))
  {
    assert cs[..i + 1][..i] == cs[..i];
  }

  lemma BatchStep(cs: seq<DocumentChunk>, i: nat)
    requires i < |cs|
    ensures ChunkIds(cs[..i + 1]) == ChunkIds(cs[..i]) + [cs[i].id]
    ensures ChunkContents(cs[..i + 1]) == ChunkContents(cs[..i]) + [cs[i].content]
  {
  }

  /** One more stored chunk: the loop step of `get_chunks_by_file_id`. */
  lemma ChunksOfFileStep(coll: seq<Doc<DocumentChunk>>, fileId: string, i: nat)
    requires i < |coll|
    ensures ChunksOfFile(coll[..i + 1], fileId)
      == ChunksOfFile(coll[..i], fileId) + (if InFile(coll[i].data, fileId) then [coll[i].data] else [])
  {
    assert coll[..i + 1][..i] == coll[..i];
  }

  /**
   * After a batch is written, every chunk of the batch whose id is not written again later
   * in the batch can be read back, embeddings included.
   */
  lemma {:induction false} StoredChunkReadable(env: Services, coll: seq<Doc<DocumentChunk>>, cs: seq<DocumentChunk>, i: nat)
    requires UniqueKeys(coll)
    requires i < |cs|
    requires forall j :: i < j < |cs| ==> cs[j].id != cs[i].id
    ensures UniqueKeys(StoredChunks(env, coll, cs))
    ensures Lookup(StoredChunks(env, coll, cs), cs[i].id) == Some(WithEmbeddings(env, cs[i]))
  {
    var init := cs[..|cs| - 1];
    var last := cs[|cs| - 1];
    StoredChunksUnique(env, coll, init);
    UpsertSpec(StoredChunks(env, coll, init), last.id, WithEmbeddings(env, last));
    if i < |cs| - 1 {
      StoredChunkReadable(env, coll, init, i);
    }
  }

  lemma {:induction false} StoredChunksUnique(env: Services, coll: seq<Doc<DocumentChunk>>, cs: seq<DocumentChunk>)
    requires UniqueKeys(coll)
    ensures UniqueKeys(StoredChunks(env, coll, cs))
  {
    if cs != [] {
      var c := cs[|cs| - 1];
      StoredChunksUnique(env, coll, cs[..|cs| - 1]);
      UpsertSpec(StoredChunks(env, coll, cs[..|cs| - 1]), c.id, WithEmbeddings(env, c));
    }
  }

  lemma {:induction false} StoredEmbeddingsUnique(env: Services, coll: seq<Doc<EmbeddingDoc>>, cs: seq<DocumentChunk>)
    requires UniqueKeys(coll)
    ensures UniqueKeys(StoredEmbeddings(env, coll, cs))
  {
    if cs != [] {
      var c := cs[|cs| - 1];
      StoredEmbeddingsUnique(env, coll, cs[..|cs| - 1]);
      UpsertSpec(StoredEmbeddings(env, coll, cs[..|cs| - 1]), c.id, EmbeddingDocOf(WithEmbeddings(env, c)));
    }
  }

  // ---------------------------------------------------------------------------
  // BM25 bookkeeping
  // ---------------------------------------------------------------------------

  /** `add_doc` for each document in order; stops at the first that raises. `true` when all were added. */
  function AddDocs(env: Services, corpus: Corpus, docs: Corpus): (Corpus, bool)
    decreases |docs|
  {
    if docs == [] then (corpus, true)
    else if env.addDocSucceeds(corpus, docs[0]) then AddDocs(env, corpus + [docs[0]], docs[1..])
    else (corpus, false)
  }

  /** `_update_bm25_index` on the index: build it when there is none, otherwise add to it. `true` when nothing raised. */
  function Bm25Update(env: Services, index: Option<Corpus>, docs: Corpus): (Option<Corpus>, bool) {
    if index.None? then (if env.bm25Builds(docs) then (Some(docs), true) else (None, false))
    else
      var (c, ok) := AddDocs(env, index.value, docs);
      (Some(c), ok)
  }

  /** A successful update indexes exactly the old corpus followed by the new documents. */
  lemma {:induction false} AddDocsAll(env: Services, corpus: Corpus, docs: Corpus)
    ensures AddDocs(env, corpus, docs).1 ==> AddDocs(env, corpus, docs).0 == corpus + docs
    ensures !AddDocs(env, corpus, docs).1 ==> docs != []
    decreases |docs|
  {
    if docs != [] && env.addDocSucceeds(corpus, docs[0]) {
      AddDocsAll(env, corpus + [docs[0]], docs[1..]);
      assert corpus + [docs[0]] + docs[1..] == corpus + docs;
    }
  }

  /** The `content` and `chunk_id` of every stored embedding document, in stream order. */
  function StoredContents(embs: seq<Doc<EmbeddingDoc>>): (docs: seq<string>)
    ensures |docs| == |embs|
  {
    seq(|embs|, i requires 0 <= i < |embs| => embs[i].data.content)
  }

  function StoredIds(embs: seq<Doc<EmbeddingDoc>>): (ids: seq<string>)
    ensures |ids| == |embs|
  {
    seq(|embs|, i requires 0 <= i < |embs| => embs[i].data.chunkId)
  }

  /** `_load_bm25_index` rebuilds only when the stored documents exist and the index builds. */
  predicate Reloads(env: Services, embs: seq<Doc<EmbeddingDoc>>) {
    embs != [] && env.bm25Builds(TokenizeAll(StoredContents(embs)))
  }

  // ---------------------------------------------------------------------------
  // Hybrid search
  // ---------------------------------------------------------------------------

  /** The optional arguments of `hybrid_search` that narrow the candidates. */
  datatype Filters = Filters(
    className: Option<string>,
    subjectName: Option<string>,
    allowedFileIds: Option<seq<string>>,
    userId: Option<string>)

  /** Python's truthiness of an optional string: present and non-empty. */
  predicate Given(o: Option<string>) {
    o.Some? && o.value != ""
  }

  /** Python's truthiness of an optional list: present and non-empty. */
  predicate GivenIds(o: Option<seq<string>>) {
    o.Some? && o.value != []
  }

  /** The document satisfies each filter that was supplied. */
  predicate Matches(f: Filters, e: EmbeddingDoc) {
    && (Given(f.userId) ==> e.userId == Str(f.userId.value))
    && (Given(f.className) ==> e.className == f.className.value)
    && (Given(f.subjectName) ==> e.subjectName == f.subjectName.value)
    && (GivenIds(f.allowedFileIds) ==> e.fileId in f.allowedFileIds.value)
  }

  /** The BM25 position of an id: `list.index`, the first occurrence. */
  function FirstIndex(s: seq<string>, x: string): (i: nat)
    requires x in s
    ensures i < |s| && s[i] == x && x !in s[..i]
  {
    if s[0] == x then 0 else 1 + FirstIndex(s[1..], x)
  }

  /** The raw BM25 score of a chunk: its entry in `get_scores`, or 0.0 when it is not indexed. */
  function RawSparse(env: Services, index: Option<Corpus>, ids: seq<string>, query: string, chunkId: string): real {
    if index.Some? && chunkId in ids then
      var i := FirstIndex(ids, chunkId);
      var scores := env.bm25Scores(index.value, Tokenize(query));
      if i < |scores| then scores[i] else 0.0
    else 0.0
  }

  /** One scored candidate of `hybrid_search`. */
  function Score(env: Services, queryDense: seq<real>, index: Option<Corpus>, ids: seq<string>,
                 query: string, denseWeight: real, sparseWeight: real, e: EmbeddingDoc): SearchResult
  {
    var dense := if e.denseEmbedding != [] then CosineSimilarity(queryDense, e.denseEmbedding, env.cosine) else 0.0;
    var sparse := NormalizeSparse(RawSparse(env, index, ids, query, e.chunkId));
    SearchResult(e.chunkId, e.documentId, e.content, e.className, e.subjectName, e.fileId,
                 dense, sparse, HybridScore(denseWeight, dense, sparseWeight, sparse), e.metadata)
  }

  /** The score of a candidate follows the rules of `hybrid_search`. */
  lemma ScoreSpec(env: Services, queryDense: seq<real>, index: Option<Corpus>, ids: seq<string>,
                  query: string, denseWeight: real, sparseWeight: real, e: EmbeddingDoc)
    ensures var r := Score(env, queryDense, index, ids, query, denseWeight, sparseWeight, e);
      && r.chunkId == e.chunkId && r.className == e.className && r.subjectName == e.subjectName
      && r.fileId == e.fileId && r.content == e.content && r.documentId == e.documentId
      && (e.denseEmbedding == [] ==> r.denseScore == 0.0)
      && (ZeroNorm(queryDense) || ZeroNorm(e.denseEmbedding) ==> r.denseScore == 0.0)
      && (index.None? || e.chunkId !in ids ==> r.sparseScore == 0.0)
      && (RawSparse(env, index, ids, query, e.chunkId) > 0.0 ==>
            0.0 < r.sparseScore <= 1.0 && (RawSparse(env, index, ids, query, e.chunkId) <= 1.0 ==> r.sparseScore == RawSparse(env, index, ids, query, e.chunkId)))
      && (RawSparse(env, index, ids, query, e.chunkId) <= 0.0 ==> r.sparseScore == RawSparse(env, index, ids, query, e.chunkId))
      && r.hybridScore == denseWeight * r.denseScore + sparseWeight * r.sparseScore
  {
    NormalizeSparseIsMin(RawSparse(env, index, ids, query, e.chunkId));
  }

  /** The candidates of a search: the stored embedding documents that pass the filters, in stored order. */
  function Candidates(docs: seq<Doc<EmbeddingDoc>>, f: Filters): seq<EmbeddingDoc> {
    Contents(Where(docs, (e: EmbeddingDoc) => Matches(f, e)))
  }

  /** The `similarities` list: every candidate scored, in stored order. */
  function Similarities(env: Services, docs: seq<Doc<EmbeddingDoc>>, f: Filters, queryDense: seq<real>,
                        index: Option<Corpus>, ids: seq<string>, query: string,
                        denseWeight: real, sparseWeight: real): (r: seq<SearchResult>)
    ensures |r| == |Candidates(docs, f)|
  {
    var cs := Candidates(docs, f);
    seq(|cs|, i requires 0 <= i < |cs| => Score(env, queryDense, index, ids, query, denseWeight, sparseWeight, cs[i]))
  }

  /** One more stored document extends the scored list by its score when it passes the filters. */
  lemma SimilaritiesStep(env: Services, docs: seq<Doc<EmbeddingDoc>>, i: nat, f: Filters, queryDense: seq<real>,
                         index: Option<Corpus>, ids: seq<string>, query: string,
                         denseWeight: real, sparseWeight: real)
    requires i < |docs|
    ensures var e := docs[i].data;
      Similarities(env, docs[..i + 1], f, queryDense, index, ids, query, denseWeight, sparseWeight)
      == Similarities(env, docs[..i], f, queryDense, index, ids, query, denseWeight, sparseWeight)
         + (if Matches(f, e) then [Score(env, queryDense, index, ids, query, denseWeight, sparseWeight, e)] else [])
  {
    assert docs[..i + 1][..i] == docs[..i];
  }

  function HybridKey(r: SearchResult): real {
    r.hybridScore
  }

  /** What `hybrid_search` returns once the index is loaded: the scored candidates, best first, cut to `top_k`. */
  function SearchResults(env: Services, docs: seq<Doc<EmbeddingDoc>>, f: Filters, index: Option<Corpus>,
                         ids: seq<string>, query: string, topK: int,
                         denseWeight: real, sparseWeight: real): seq<SearchResult>
  {
    var sims := Similarities(env, docs, f, DenseEmbedding(env, query), index, ids, query, denseWeight, sparseWeight);
    Prefix(SortDesc(sims, HybridKey), topK)
  }

  /** Every candidate is a stored document that satisfies each supplied filter. */
  lemma CandidatesMatch(docs: seq<Doc<EmbeddingDoc>>, f: Filters)
    ensures forall e :: e in Candidates(docs, f) ==> Matches(f, e) && exists d :: d in docs && d.data == e
  {
    var keep := (e: EmbeddingDoc) => Matches(f, e);
    var w := Where(docs, keep);
    WhereSpec(docs, keep);
    forall e | e in Candidates(docs, f) ensures Matches(f, e) && exists d :: d in docs && d.data == e {
      var i :| 0 <= i < |w| && Contents(w)[i] == e;
      assert w[i] in w;
    }
  }

  /** Every stored document that satisfies the filters is a candidate. */
  lemma CandidatesComplete(docs: seq<Doc<EmbeddingDoc>>, f: Filters, d: Doc<EmbeddingDoc>)
    requires d in docs && Matches(f, d.data)
    ensures d.data in Candidates(docs, f)
  {
    var keep := (e: EmbeddingDoc) => Matches(f, e);
    var w := Where(docs, keep);
    WhereSpec(docs, keep);
    var i :| 0 <= i < |w| && w[i] == d;
    assert Contents(w)[i] == d.data;
  }

  /** The top `k` of a stable descending sort: sorted, at most `k` long, taken from the input, all of it when `k` covers it. */
  lemma TopKSpec(sims: seq<SearchResult>, topK: int)
    ensures var rs := Prefix(SortDesc(sims, HybridKey), topK);
      && SortedDesc(rs, HybridKey)
      && (topK >= 0 ==> |rs| <= topK)
      && multiset(rs) <= multiset(sims)
      && (topK >= |sims| ==> multiset(rs) == multiset(sims))
  {
    var sorted := SortDesc(sims, HybridKey);
    SortDescSpec(sims, HybridKey);
    var rs := Prefix(sorted, topK);
    assert sorted == rs + sorted[|rs|..];
  }

  /**
   * The search results are ordered by non-increasing hybrid score, are at most `top_k` many
   * when `top_k` is not negative, and each is a scored candidate. When `top_k` covers all
   * candidates, every candidate is returned.
   */
  lemma SearchResultsSpec(env: Services, docs: seq<Doc<EmbeddingDoc>>, f: Filters, index: Option<Corpus>,
                          ids: seq<string>, query: string, topK: int,
                          denseWeight: real, sparseWeight: real)
    ensures var rs := SearchResults(env, docs, f, index, ids, query, topK, denseWeight, sparseWeight);
      var sims := Similarities(env, docs, f, DenseEmbedding(env, query), index, ids, query, denseWeight, sparseWeight);
      && SortedDesc(rs, HybridKey)
      && (topK >= 0 ==> |rs| <= topK)
      && multiset(rs) <= multiset(sims)
      && (topK >= |sims| ==> multiset(rs) == multiset(sims))
  {
    TopKSpec(Similarities(env, docs, f, DenseEmbedding(env, query), index, ids, query, denseWeight, sparseWeight), topK);
  }

  /** Each result is the score of a stored document that passes every supplied filter. */
  lemma SearchResultsFiltered(env: Services, docs: seq<Doc<EmbeddingDoc>>, f: Filters, index: Option<Corpus>,
                              ids: seq<string>, query: string, topK: int,
                              denseWeight: real, sparseWeight: real, r: SearchResult)
    requires r in SearchResults(env, docs, f, index, ids, query, topK, denseWeight, sparseWeight)
    ensures exists d :: (d in docs && Matches(f, d.data)
      && r == Score(env, DenseEmbedding(env, query), index, ids, query, denseWeight, sparseWeight, d.data))
    ensures Given(f.className) ==> r.className == f.className.value
    ensures Given(f.subjectName) ==> r.subjectName == f.subjectName.value
    ensures GivenIds(f.allowedFileIds) ==> r.fileId in f.allowedFileIds.value
  {
    var qd := DenseEmbedding(env, query);
    var sims := Similarities(env, docs, f, qd, index, ids, query, denseWeight, sparseWeight);
    TopKSpec(sims, topK);
    assert r in multiset(sims);
    var i :| 0 <= i < |sims| && sims[i] == r;
    var e := Candidates(docs, f)[i];
    assert r == Score(env, qd, index, ids, query, denseWeight, sparseWeight, e);
    CandidatesMatch(docs, f);
    assert e in Candidates(docs, f);
    var d :| d in docs && d.data == e;
    ScoreSpec(env, qd, index, ids, query, denseWeight, sparseWeight, e);
  }

  /** Chunks of a deleted file never come back from a search. */
  lemma DeletedFileNotFound(env: Services, docs: seq<Doc<EmbeddingDoc>>, fileId: string, f: Filters,
                            index: Option<Corpus>, ids: seq<string>, query: string, topK: int,
                            denseWeight: real, sparseWeight: real, r: SearchResult)
    requires r in SearchResults(env, Where(docs, (e: EmbeddingDoc) => e.fileId != fileId), f, index, ids, query,
                                topK, denseWeight, sparseWeight)
    ensures r.fileId != fileId
  {
    var kept := Where(docs, (e: EmbeddingDoc) => e.fileId != fileId);
    SearchResultsFiltered(env, kept, f, index, ids, query, topK, denseWeight, sparseWeight, r);
    var d :| d in kept && Matches(f, d.data)
      && r == Score(env, DenseEmbedding(env, query), index, ids, query, denseWeight, sparseWeight, d.data);
    WhereSpec(docs, (e: EmbeddingDoc) => e.fileId != fileId);
    ScoreSpec(env, DenseEmbedding(env, query), index, ids, query, denseWeight, sparseWeight, d.data);
  }

  // ---------------------------------------------------------------------------
  // The store's state after each operation
  // ---------------------------------------------------------------------------

  /** The fields of a `HybridVectorStore` as one value, with the document store's remaining answers. */
  datatype StoreState = StoreState(
    budget: Budget,
    chunks: seq<Doc<DocumentChunk>>,
    embeddings: seq<Doc<EmbeddingDoc>>,
    bm25Index: Option<Corpus>,
    bm25Documents: seq<string>,
    bm25DocumentIds: seq<string>)

  /**
   * The store after `store_chunks(cs)`: the chunks whose first write was answered are stored,
   * those whose second write was answered also have their embedding record, and the BM25
   * update runs only when no write raised.
   */
  function AfterStoreChunks(env: Services, s: StoreState, cs: seq<DocumentChunk>): StoreState {
    var n := |cs|;
    var stored := s.(budget := Spent(s.budget, 2 * n),
                     chunks := StoredChunks(env, s.chunks, cs[..StoresStarted(s.budget, n)]),
                     embeddings := StoredEmbeddings(env, s.embeddings, cs[..StoresCompleted(s.budget, n)]));
    if Allows(s.budget, 2 * n) then
      var (index, ok) := Bm25Update(env, s.bm25Index, TokenizeAll(ChunkContents(cs)));
      stored.(bm25Index := index,
              bm25Documents := s.bm25Documents + (if ok then ChunkContents(cs) else []),
              bm25DocumentIds := s.bm25DocumentIds + (if ok then ChunkIds(cs) else []))
    else stored
  }

  /** Whether `hybrid_search` rebuilds the BM25 index: there is none, the read is answered and it builds. */
  predicate SearchReloads(env: Services, s: StoreState) {
    s.bm25Index.None? && Allows(s.budget, 1) && Reloads(env, s.embeddings)
  }

  /** The store after `hybrid_search`: its calls spent, and the index and both lists reloaded when it rebuilds. */
  function AfterSearch(env: Services, s: StoreState): StoreState {
    var spent := s.(budget := Spent(s.budget, SearchCalls(s.bm25Index)));
    if SearchReloads(env, s) then
      spent.(bm25Index := Some(TokenizeAll(StoredContents(s.embeddings))),
             bm25Documents := StoredContents(s.embeddings),
             bm25DocumentIds := StoredIds(s.embeddings))
    else spent
  }

  /** What `hybrid_search` returns from a store in state `s`: [] when a call raises. */
  function SearchOutcome(env: Services, s: StoreState, f: Filters, query: string, topK: int,
                         denseWeight: real, sparseWeight: real): seq<SearchResult> {
    if Allows(s.budget, SearchCalls(s.bm25Index)) then
      var t := AfterSearch(env, s);
      SearchResults(env, s.embeddings, f, t.bm25Index, t.bm25DocumentIds, query, topK, denseWeight, sparseWeight)
    else []
  }

  /** The store after a read of one query: one call spent, nothing else changed. */
  function AfterRead(s: StoreState): StoreState {
    s.(budget := Spent(s.budget, 1))
  }

  /** The store after `delete_chunks_by_file_id`: the deletes made before the first call that raised. */
  function AfterDelete(s: StoreState, fileId: string): StoreState {
    s.(budget := Spent(s.budget, DeleteCalls(s.chunks, s.embeddings, fileId)),
       chunks := ChunksAfterDelete(s.chunks, fileId, s.budget),
       embeddings := EmbeddingsAfterDelete(s.chunks, s.embeddings, fileId, s.budget))
  }

  /**
   * A search never changes the two collections and keeps the BM25 lists parallel; when the
   * index was already loaded it changes nothing but the answers left.
   */
  lemma AfterSearchFrame(env: Services, s: StoreState)
    requires |s.bm25Documents| == |s.bm25DocumentIds|
    ensures var t := AfterSearch(env, s);
      && t.chunks == s.chunks && t.embeddings == s.embeddings
      && |t.bm25Documents| == |t.bm25DocumentIds|
      && (s.bm25Index.Some? ==> t == s.(budget := Spent(s.budget, 1)))
  {
  }

  /**
   * A batch whose writes were all answered stores every chunk and keeps the BM25 lists
   * parallel; a batch that raised leaves the BM25 index and lists as they were.
   */
  lemma AfterStoreChunksSpec(env: Services, s: StoreState, cs: seq<DocumentChunk>)
    requires |s.bm25Documents| == |s.bm25DocumentIds|
    ensures var t := AfterStoreChunks(env, s, cs);
      && |t.bm25Documents| == |t.bm25DocumentIds|
      && (Allows(s.budget, 2 * |cs|) ==>
           t.chunks == StoredChunks(env, s.chunks, cs) && t.embeddings == StoredEmbeddings(env, s.embeddings, cs))
      && (!Allows(s.budget, 2 * |cs|) ==>
           t.bm25Index == s.bm25Index && t.bm25Documents == s.bm25Documents && t.bm25DocumentIds == s.bm25DocumentIds)
  {
    var t := AfterStoreChunks(env, s, cs);
    if Allows(s.budget, 2 * |cs|) {
      assert StoresCompleted(s.budget, |cs|) == |cs| == StoresStarted(s.budget, |cs|);
      assert cs[..|cs|] == cs;
      var (index, ok) := Bm25Update(env, s.bm25Index, TokenizeAll(ChunkContents(cs)));
      assert t.bm25Documents == s.bm25Documents + (if ok then ChunkContents(cs) else []);
      assert t.bm25DocumentIds == s.bm25DocumentIds + (if ok then ChunkIds(cs) else []);
    }
  }
}
