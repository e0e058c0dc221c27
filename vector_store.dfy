/**
 * `HybridVectorStore` (backend/rag/hybrid_vector_store.py): the two Firestore collections
 * as in-memory sequences of documents, and the BM25 index with its two parallel lists
 * updated in place.
 */
module VectorStore {
  import opened Wrappers
  import opened Models
  import opened Embeddings
  import opened Ranking
  import opened Retrieval

  class HybridVectorStore {
    /** The services the store calls but does not define. */
    const env: Services
    /** How many more calls the document store answers before each later read or write raises. */
    var budget: Budget
    /** The `chunks` collection; each document holds `to_dict()` of its chunk. */
    var chunks: seq<Doc<DocumentChunk>>
    /** The `embeddings` collection. */
    var embeddings: seq<Doc<EmbeddingDoc>>
    var bm25Index: Option<Corpus>
    var bm25Documents: seq<string>
    var bm25DocumentIds: seq<string>

    /** The two BM25 lists run in parallel, and document ids are unique in each collection. */
    ghost predicate Valid()
      reads this
    {
      |bm25Documents| == |bm25DocumentIds| && UniqueKeys(chunks) && UniqueKeys(embeddings)
    }

    /** The store's fields as one value. */
    ghost function State(): StoreState
      reads this
    {
      StoreState(budget, chunks, embeddings, bm25Index, bm25Documents, bm25DocumentIds)
    }

    /** A store over existing collections starts with no BM25 index and empty lists. */
    constructor(env: Services, budget: Budget, chunks: seq<Doc<DocumentChunk>>, embeddings: seq<Doc<EmbeddingDoc>>)
      requires UniqueKeys(chunks) && UniqueKeys(embeddings)
      ensures Valid()
      ensures this.env == env && this.budget == budget && this.chunks == chunks && this.embeddings == embeddings
      ensures bm25Index == None && bm25Documents == [] && bm25DocumentIds == []
    {
      this.env := env;
      this.budget := budget;
      this.chunks := chunks;
      this.embeddings := embeddings;
      bm25Index := None;
      bm25Documents := [];
      bm25DocumentIds := [];
    }

    /** `get_dense_embedding`: the provider's vector, or the md5 fallback when the provider raises. */
    method GetDenseEmbedding(text: string) returns (e: seq<real>)
      ensures env.embed(text).Some? ==> e == env.embed(text).value
      ensures env.embed(text).None? ==> e == FallbackEmbedding(env.md5(text)) && |e| == DenseDimensions
      ensures e == DenseEmbedding(env, text)
    {
      match env.embed(text)
      case Some(v) =>
        e := v;
      case None =>
        e := SimpleEmbedding(env.md5(text));
    }

    /** `get_sparse_embedding`, with Python's `hash` as the store's hash function. */
    method GetSparseEmbedding(text: string) returns (v: seq<real>)
      ensures v == SparseVector(text, env.pyHash)
      ensures |v| == SparseFeatures
    {
      v := SparseEmbedding(text, env.pyHash);
    }

    /**
     * `store_chunk`: compute both embeddings, then write the chunk and then its embedding
     * document under the chunk's id, two calls. A write that is not answered raises; a chunk
     * written before the embedding write raises stays written.
     */
    method StoreChunk(c: DocumentChunk) returns (r: Result<string>)
      requires Valid()
      modifies this
      ensures Valid()
      ensures budget == Spent(old(budget), 2) && bm25Index == old(bm25Index)
      ensures bm25Documents == old(bm25Documents) && bm25DocumentIds == old(bm25DocumentIds)
      ensures chunks == if Allows(old(budget), 1) then Upsert(old(chunks), c.id, WithEmbeddings(env, c)) else old(chunks)
      ensures embeddings == if Allows(old(budget), 2)
        then Upsert(old(embeddings), c.id, EmbeddingDocOf(WithEmbeddings(env, c))) else old(embeddings)
      ensures Allows(old(budget), 2) ==> r == Ok(c.id)
      ensures !Allows(old(budget), 2) ==> r.Err?
    {
      var dense := GetDenseEmbedding(c.content);
      var sparse := GetSparseEmbedding(c.content);
      var filled := c.(denseEmbedding := dense, sparseEmbedding := sparse);
      SpentAdd(budget, 1, 1);
      if !Allows(budget, 1) {
        return Err("error storing chunk");
      }
      UpsertUnique(chunks, c.id, filled);
      chunks := Upsert(chunks, c.id, filled);
      budget := Spent(budget, 1);
      if !Allows(budget, 1) {
        return Err("error storing chunk");
      }
      UpsertUnique(embeddings, c.id, EmbeddingDocOf(filled));
      embeddings := Upsert(embeddings, c.id, EmbeddingDocOf(filled));
      budget := Spent(budget, 1);
      r := Ok(c.id);
    }

    /**
     * `store_chunks`: store each chunk in order, then hand their contents and ids to the BM25
     * index. Returns the chunk ids in input order. The first write that is not answered raises:
     * the chunks stored before it stay stored, a chunk whose embedding write raised stays
     * without its embedding document, and the BM25 index is not updated.
     */
    method StoreChunks(cs: seq<DocumentChunk>) returns (r: Result<seq<string>>)
      requires Valid()
      modifies this
      ensures Valid()
      ensures State() == AfterStoreChunks(env, old(State()), cs)
      ensures budget == Spent(old(budget), 2 * |cs|)
      ensures chunks == StoredChunks(env, old(chunks), cs[..StoresStarted(old(budget), |cs|)])
      ensures embeddings == StoredEmbeddings(env, old(embeddings), cs[..StoresCompleted(old(budget), |cs|)])
      ensures Allows(old(budget), 2 * |cs|) ==>
        && r == Ok(ChunkIds(cs))
        && chunks == StoredChunks(env, old(chunks), cs)
        && embeddings == StoredEmbeddings(env, old(embeddings), cs)
        && var (index, ok) := Bm25Update(env, old(bm25Index), TokenizeAll(ChunkContents(cs)));
           && bm25Index == index
           && bm25Documents == old(bm25Documents) + (if ok then ChunkContents(cs) else [])
           && bm25DocumentIds == old(bm25DocumentIds) + (if ok then ChunkIds(cs) else [])
      ensures !Allows(old(budget), 2 * |cs|) ==>
        && r.Err?
        && bm25Index == old(bm25Index) && bm25Documents == old(bm25Documents) && bm25DocumentIds == old(bm25DocumentIds)
    {
      var chunkIds: seq<string> := [];
      var documents: seq<string> := [];
      var documentIds: seq<string> := [];
      for i := 0 to |cs|
        invariant Valid()
        invariant Allows(old(budget), 2 * i) && budget == Spent(old(budget), 2 * i)
        invariant chunks == StoredChunks(env, old(chunks), cs[..i])
        invariant embeddings == StoredEmbeddings(env, old(embeddings), cs[..i])
        invariant chunkIds == ChunkIds(cs[..i]) && documentIds == chunkIds && documents == ChunkContents(cs[..i])
        invariant bm25Index == old(bm25Index)
        invariant bm25Documents == old(bm25Documents) && bm25DocumentIds == old(bm25DocumentIds)
      {
        StoredStep(env, old(chunks), old(embeddings), cs, i);
        SpentAdd(old(budget), 2 * i, 1);
        SpentAdd(old(budget), 2 * i, 2);
        var chunkId := StoreChunk(cs[i]);
        if chunkId.Err? {
          StoreStopped(old(budget), i, |cs|);
          if Allows(old(budget), 2 * i + 1) {
            assert StoresStarted(old(budget), |cs|) == i + 1;
            assert chunks == StoredChunks(env, old(chunks), cs[..i + 1]);
          } else {
            assert StoresStarted(old(budget), |cs|) == i;
            assert chunks == StoredChunks(env, old(chunks), cs[..i]);
          }
          return Err(chunkId.error);
        }
        chunkIds := chunkIds + [chunkId.value];
        documents := documents + [cs[i].content];
        documentIds := documentIds + [cs[i].id];
      }
      assert cs[..|cs|] == cs;
      assert StoresStarted(old(budget), |cs|) == StoresCompleted(old(budget), |cs|) == |cs|;
      UpdateBm25Index(documents, documentIds);
      r := Ok(chunkIds);
    }

    /**
     * `_update_bm25_index`: build the index when there is none, otherwise `add_doc` each new
     * document. The two lists are extended only when nothing raised; a failing `add_doc`
     * leaves the documents added before it in the index.
     */
    method UpdateBm25Index(documents: seq<string>, documentIds: seq<string>)
      modifies this
      ensures budget == old(budget) && chunks == old(chunks) && embeddings == old(embeddings)
      ensures var (index, ok) := Bm25Update(env, old(bm25Index), TokenizeAll(documents));
        && bm25Index == index
        && bm25Documents == old(bm25Documents) + (if ok then documents else [])
        && bm25DocumentIds == old(bm25DocumentIds) + (if ok then documentIds else [])
    {
      var tokenizedDocs := TokenizeAll(documents);
      var ok := true;
      if bm25Index.None? {
        if env.bm25Builds(tokenizedDocs) {
          bm25Index := Some(tokenizedDocs);
        } else {
          ok := false;
        }
      } else {
        var corpus := bm25Index.value;
        var i := 0;
        while i < |tokenizedDocs|
          invariant 0 <= i <= |tokenizedDocs|
          invariant bm25Index == Some(corpus)
          invariant budget == old(budget) && chunks == old(chunks) && embeddings == old(embeddings)
          invariant bm25Documents == old(bm25Documents) && bm25DocumentIds == old(bm25DocumentIds)
          invariant AddDocs(env, corpus, tokenizedDocs[i..]) == AddDocs(env, old(bm25Index).value, tokenizedDocs)
          invariant ok
        {
          assert tokenizedDocs[i..][1..] == tokenizedDocs[i + 1..];
          if !env.addDocSucceeds(corpus, tokenizedDocs[i]) {
            ok := false;
            break;
          }
          corpus := corpus + [tokenizedDocs[i]];
          bm25Index := Some(corpus);
          i := i + 1;
        }
      }
      if ok {
        bm25Documents := bm25Documents + documents;
        bm25DocumentIds := bm25DocumentIds + documentIds;
      }
    }

    /**
     * `_load_bm25_index`: read every stored embedding document and rebuild the index and both
     * lists from them, but only when the read is answered, there are documents and the index builds.
     */
    method LoadBm25Index()
      requires Valid()
      modifies this
      ensures Valid()
      ensures budget == Spent(old(budget), 1) && chunks == old(chunks) && embeddings == old(embeddings)
      ensures Allows(old(budget), 1) && Reloads(env, embeddings) ==>
        && bm25Index == Some(TokenizeAll(StoredContents(embeddings)))
        && bm25Documents == StoredContents(embeddings)
        && bm25DocumentIds == StoredIds(embeddings)
      ensures !(Allows(old(budget), 1) && Reloads(env, embeddings)) ==>
        bm25Index == old(bm25Index) && bm25Documents == old(bm25Documents) && bm25DocumentIds == old(bm25DocumentIds)
    {
      if !Allows(budget, 1) {
        return;
      }
      budget := Spent(budget, 1);
      var embeddingsDocs := embeddings;
      var documents: seq<string> := [];
      var documentIds: seq<string> := [];
      for i := 0 to |embeddingsDocs|
        invariant documents == StoredContents(embeddingsDocs[..i])
        invariant documentIds == StoredIds(embeddingsDocs[..i])
      {
        assert embeddingsDocs[..i + 1][..i] == embeddingsDocs[..i];
        documents := documents + [embeddingsDocs[i].data.content];
        documentIds := documentIds + [embeddingsDocs[i].data.chunkId];
      }
      assert embeddingsDocs[..|embeddingsDocs|] == embeddingsDocs;
      if documents != [] {
        var tokenizedDocs := TokenizeAll(documents);
        if env.bm25Builds(tokenizedDocs) {
          bm25Index := Some(tokenizedDocs);
          bm25Documents := documents;
          bm25DocumentIds := documentIds;
        }
      }
    }

    /**
     * `hybrid_search`: load the index if there is none, score every stored embedding document
     * that passes the filters, sort by hybrid score (best first, stably) and keep `top_k`.
     * Two reads when the index is missing, else one; when either is not answered the search returns [].
     */
    method HybridSearch(query: string, filters: Filters, topK: int, denseWeight: real, sparseWeight: real)
      returns (results: seq<SearchResult>)
      requires Valid()
      modifies this
      ensures Valid()
      ensures State() == AfterSearch(env, old(State()))
      ensures results == SearchOutcome(env, old(State()), filters, query, topK, denseWeight, sparseWeight)
      ensures budget == Spent(old(budget), SearchCalls(old(bm25Index)))
      ensures chunks == old(chunks) && embeddings == old(embeddings)
      ensures old(bm25Index).Some? || !Reloads(env, embeddings) || !Allows(old(budget), 1) ==>
        bm25Index == old(bm25Index) && bm25Documents == old(bm25Documents) && bm25DocumentIds == old(bm25DocumentIds)
      ensures old(bm25Index).None? && Reloads(env, embeddings) && Allows(old(budget), 1) ==>
        && bm25Index == Some(TokenizeAll(StoredContents(embeddings)))
        && bm25Documents == StoredContents(embeddings)
        && bm25DocumentIds == StoredIds(embeddings)
      ensures !Allows(old(budget), SearchCalls(old(bm25Index))) ==> results == []
      ensures Allows(old(budget), SearchCalls(old(bm25Index))) ==>
        results == SearchResults(env, embeddings, filters, bm25Index, bm25DocumentIds, query, topK, denseWeight, sparseWeight)
    {
      var queryDenseEmbedding := GetDenseEmbedding(query);
      // Computed as in the source, where it is never used.
      var querySparseEmbedding := GetSparseEmbedding(query);
      SpentAdd(old(budget), 1, 1);
      if bm25Index.None? {
        LoadBm25Index();
      }
      if !Allows(budget, 1) {
        return [];
      }
      budget := Spent(budget, 1);
      var similarities := ScoreCandidates(env, embeddings, filters, queryDenseEmbedding, bm25Index, bm25DocumentIds,
                                          query, denseWeight, sparseWeight);
      results := Prefix(SortDesc(similarities, HybridKey), topK);
    }

    /**
     * `get_chunks_by_file_id`: the stored chunks of one file, each rebuilt from its stored
     * dictionary, in stored order; [] when the read is not answered.
     */
    method GetChunksByFileId(fileId: string) returns (documentChunks: seq<DocumentChunk>)
      modifies this
      ensures State() == AfterRead(old(State()))
      ensures budget == Spent(old(budget), 1) && chunks == old(chunks) && embeddings == old(embeddings)
      ensures bm25Index == old(bm25Index) && bm25Documents == old(bm25Documents) && bm25DocumentIds == old(bm25DocumentIds)
      ensures !Allows(old(budget), 1) ==> documentChunks == []
      ensures Allows(old(budget), 1) ==> documentChunks == ChunksOfFile(chunks, fileId)
    {
      if !Allows(budget, 1) {
        return [];
      }
      budget := Spent(budget, 1);
      documentChunks := RebuildChunks(chunks, fileId);
    }

    /** The loop of `get_chunks_by_file_id`: each streamed chunk of the file rebuilt from its dictionary. */
    static method RebuildChunks(stored: seq<Doc<DocumentChunk>>, fileId: string)
      returns (documentChunks: seq<DocumentChunk>)
      ensures documentChunks == ChunksOfFile(stored, fileId)
    {
      documentChunks := [];
      for i := 0 to |stored|
        invariant documentChunks == ChunksOfFile(stored[..i], fileId)
      {
        ChunksOfFileStep(stored, fileId, i);
        var c := stored[i].data;
        if InFile(c, fileId) {
          var rebuilt := Rebuild(c);
          documentChunks := documentChunks + [rebuilt];
        }
      }
      assert stored[..|stored|] == stored;
    }

    /** `DocumentChunk(...)` from a streamed chunk's `to_dict()`: the chunk that was stored. */
    static method Rebuild(c: DocumentChunk) returns (rebuilt: DocumentChunk)
      ensures rebuilt == c
    {
      var data := ChunkToDict(c);
      ChunkRoundTrip(c);
      rebuilt := ChunkFromDict(data).value;
    }

    /**
     * `delete_chunks_by_file_id`: query the file's chunks and delete each, then query its
     * embedding documents and delete each; `true` when every call was answered. The first call
     * that is not answered raises and the delete reports `false`, keeping the deletes made
     * before it. The BM25 index and lists are left as they are.
     */
    method DeleteChunksByFileId(fileId: string) returns (ok: bool)
      requires Valid()
      modifies this
      ensures Valid()
      ensures State() == AfterDelete(old(State()), fileId)
      ensures ok == Allows(old(budget), DeleteCalls(old(chunks), old(embeddings), fileId))
      ensures budget == Spent(old(budget), DeleteCalls(old(chunks), old(embeddings), fileId))
      ensures bm25Index == old(bm25Index) && bm25Documents == old(bm25Documents) && bm25DocumentIds == old(bm25DocumentIds)
      ensures chunks == ChunksAfterDelete(old(chunks), fileId, old(budget))
      ensures embeddings == EmbeddingsAfterDelete(old(chunks), old(embeddings), fileId, old(budget))
    {
      var keptChunks, keptEmbeddings, left;
      keptChunks, keptEmbeddings, left, ok := DeleteFileDocuments(chunks, embeddings, fileId, budget);
      DeleteUnique(chunks, embeddings, fileId, budget);
      chunks, embeddings, budget := keptChunks, keptEmbeddings, left;
    }

    /** The calls of `delete_chunks_by_file_id` in order, on the two collections as values. */
    static method DeleteFileDocuments(chunks: seq<Doc<DocumentChunk>>, embeddings: seq<Doc<EmbeddingDoc>>,
                                      fileId: string, b: Budget)
      returns (chunks': seq<Doc<DocumentChunk>>, embeddings': seq<Doc<EmbeddingDoc>>, b': Budget, ok: bool)
      ensures ok == Allows(b, DeleteCalls(chunks, embeddings, fileId))
      ensures b' == Spent(b, DeleteCalls(chunks, embeddings, fileId))
      ensures chunks' == ChunksAfterDelete(chunks, fileId, b)
      ensures embeddings' == EmbeddingsAfterDelete(chunks, embeddings, fileId, b)
    {
      var m, e := FileChunkCount(chunks, fileId), FileEmbeddingCount(embeddings, fileId);
      SpentAdd(b, 1, m);
      SpentAdd(b, m + 1, 1);
      SpentAdd(b, m + 2, e);
      chunks', embeddings', b', ok := chunks, embeddings, b, false;
      if !Allows(b', 1) {
        // The chunk query raises.
        DeleteUnanswered(chunks, embeddings, fileId);
        return;
      }
      var chunksDone;
      chunks', b', chunksDone := DeleteHits(chunks, ChunkOfFile(fileId), Spent(b', 1));
      RemoveFirstNone(embeddings, EmbeddingOfFile(fileId));
      if !chunksDone || !Allows(b', 1) {
        // A chunk delete or the embedding query raised.
        return;
      }
      embeddings', b', ok := DeleteHits(embeddings, EmbeddingOfFile(fileId), Spent(b', 1));
    }

    /** The scoring loop of `hybrid_search`: one scored entry per document the filtered query streams. */
    static method ScoreCandidates(env: Services, docs: seq<Doc<EmbeddingDoc>>, filters: Filters, queryDense: seq<real>,
                                  index: Option<Corpus>, ids: seq<string>, query: string,
                                  denseWeight: real, sparseWeight: real) returns (similarities: seq<SearchResult>)
      ensures similarities == Similarities(env, docs, filters, queryDense, index, ids, query, denseWeight, sparseWeight)
    {
      similarities := [];
      for i := 0 to |docs|
        invariant similarities == Similarities(env, docs[..i], filters, queryDense, index, ids, query, denseWeight, sparseWeight)
      {
        SimilaritiesStep(env, docs, i, filters, queryDense, index, ids, query, denseWeight, sparseWeight);
        var doc := docs[i].data;
        if Matches(filters, doc) {
          similarities := similarities + [Score(env, queryDense, index, ids, query, denseWeight, sparseWeight, doc)];
        }
      }
      assert docs[..|docs|] == docs;
    }

    /**
     * A delete loop of `delete_chunks_by_file_id`: `reference.delete()` on each streamed
     * document that satisfies `hit`, one call each. The first delete that is not answered
     * raises, and nothing after it runs. `ok` when every delete was answered.
     */
    static method DeleteHits<T(==)>(stored: seq<Doc<T>>, hit: T -> bool, b: Budget)
      returns (kept: seq<Doc<T>>, b': Budget, ok: bool)
      ensures kept == RemoveFirst(stored, hit, Granted(b, Hits(stored, hit)))
      ensures b' == Spent(b, Hits(stored, hit))
      ensures ok == Allows(b, Hits(stored, hit))
    {
      ghost var g := Granted(b, Hits(stored, hit));
      kept := [];
      b' := b;
      var i := 0;
      while i < |stored| && (!hit(stored[i].data) || Allows(b', 1))
        invariant 0 <= i <= |stored|
        invariant Allows(b, Hits(stored[..i], hit)) && b' == Spent(b, Hits(stored[..i], hit))
        invariant Hits(stored[..i], hit) <= g
        invariant kept == RemoveFirst(stored[..i], hit, g)
      {
        RemoveFirstStep(stored, hit, g, i);
        HitsPrefix(stored, hit, i + 1);
        SpentAdd(b, Hits(stored[..i], hit), 1);
        if hit(stored[i].data) {
          b' := Spent(b', 1);
        } else {
          kept := kept + [stored[i]];
        }
        i := i + 1;
      }
      ok := i == |stored|;
      if ok {
        assert stored[..i] == stored;
      } else {
        // The delete of `stored[i]` raised.
        RemoveFirstStep(stored, hit, g, i);
        HitsPrefix(stored, hit, i + 1);
        SpentAdd(b, Hits(stored[..i], hit), 1);
        RemoveFirstDone(stored, hit, g, i);
        kept := kept + stored[i..];
      }
    }
  }
}
