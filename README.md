# A verified model of the teaching-assistant backend and its list logic

The repository is a school teaching-assistant platform. Its backend is in Python. It turns
uploaded PDFs into overlapping text chunks and stores them in a hybrid store that keeps a
dense embedding and a BM25 corpus side by side. An agentic chat workflow decides per message
whether to search that store, builds a numbered context from the hits and hands it to a
language model. Around this core sit:

- a command-line ingestion pipeline with running counters;
- audio helpers that read a PCM MIME type and wrap raw samples in a WAVE header;
- a mock Express backend serving notebooks and a discover search;
- Next.js pages that filter, select and summarise lists.

This project models that core in Dafny and proves what the code promises about it. There is
one module per source file, plus shared helpers:

| file | module | models |
|---|---|---|
| `chunker.dfy` | `DocumentProcessor` | `create_chunks_with_overlap` (a `while` loop, kept as one) and the chunk numbering of `process_pdf_file` |
| `embeddings.dfy` | `Embeddings` | the md5 fallback embedding, the hashed term-frequency vector, the cosine zero guard, sparse-score normalisation and score fusion |
| `retrieval.dfy` | `Retrieval` | the store's state as values: collections, the BM25 corpus lists, candidate scoring, filters, order, `top_k` |
| `vector_store.dfy` | `VectorStore` | `HybridVectorStore` as a class whose methods update the collections and the two BM25 lists in place |
| `models.dfy` | `Models` | the dataclasses and their `to_dict`; the rebuilding of a chunk from its stored dictionary, with the ISO timestamp round trip |
| `workflow.dfy` | `Workflow` | `should_retrieve`, the context and prompt, `process_chat_request` and its metadata, upload/list/delete wrappers |
| `ingest.dfy` | `Ingest` | `PDFIngestionPipeline`: class/subject from the path, per-file results, counters and the summary grouping |
| `audio.dfy`, `bytes.dfy` | `Audio`, `Bytes` | `parse_audio_mime_type` with Python's `int()`, and the 44-byte RIFF/WAVE header of `convert_to_wav` |
| `express_api.dfy` | `ExpressApi` | the notebook listing, lookup by id, `PUT /api/notebooks/:id/sources`, and `/api/discover` with JavaScript's `parseInt` |
| `knowledge_base.dfy`, `discover_modal.dfy`, `dashboard.dfy`, `lesson_planner.dfy`, `ai_audit.dfy` | one module each | the list, set and statistics logic of those pages |
| `text.dfy`, `lists.dfy`, `ranking.dfy`, `wrappers.dfy` | shared | ASCII lower-casing, whitespace, strip, split, substring tests, decimal rendering; `filter`, sums and `Math.round`; stable descending sort and prefix; `Option`/`Result` |

The source's state changes stay state changes in the model:

- The store, the workflow, the ingestion pipeline and the mock backend are classes. Their
  methods modify fields.
- Each such method is proved against a function of the old state, in the `Retrieval`,
  `Embeddings` and `Ingest` modules.
- The properties are lemmas about those functions.

Loops in the source are loops here, with their invariants. This covers the chunk window
loop, the word counting and slot filling of `get_sparse_embedding`, the 768-slot fallback
vector, the per-file ingestion loop, the MIME parameter loop and the scoring and deletion
loops of the store.

Everything outside the program is a parameter:

- Firestore is a sequence of documents plus a budget of answered calls. Each `set`,
  `delete` and query stream is one call. Once the budget runs out, every later call raises,
  so a write sequence can fail part-way, as the client's can.
- The embedding provider, md5, Python `hash()`, BM25's `get_scores`, the language model and
  PDF text extraction are parameters.
- The clock is represented by fresh-identifier sources.

## Model

| member | source | states |
|---|---|---|
| DocumentProcessor.CreateChunksWithOverlap | backend/rag/document_processor.py:41-66 | for 0 <= overlap < chunk_size the loop ends and returns exactly the non-blank windows `text[start:start+size]`, starting at 0 and advancing by size - overlap, in order |
| DocumentProcessor.ChunkLoopStep | backend/rag/document_processor.py:52-64 | one pass of the loop body keeps the invariant "chunks so far + chunks of the remaining windows = all chunks", and the loop stops exactly when the window reaches the end |
| DocumentProcessor.SpansFromAt | backend/rag/document_processor.py:53-64 | the i-th window from `start` begins i*(chunk_size - overlap) later and is chunk_size long |
| DocumentProcessor.WindowAt | backend/rag/document_processor.py:52-64 | window i starts at i*(chunk_size - overlap), inside the text, and its text is `text[start:start+chunk_size]` clamped to the end of the text |
| DocumentProcessor.SpansFromStarts | backend/rag/document_processor.py:52-54 | every window starts inside the text and spans chunk_size positions |
| DocumentProcessor.SpansFromTile | backend/rag/document_processor.py:53-64 | there is a window iff the text is non-empty; the first starts at 0, only the last reaches the end of the text, and consecutive windows share exactly `overlap` characters |
| DocumentProcessor.SpansCover | backend/rag/document_processor.py:52-64 | every position of the text lies in some window |
| DocumentProcessor.SpansFromCover | backend/rag/document_processor.py:52-64 | every position from `start` on lies in some window from `start` |
| DocumentProcessor.NonBlankWindowsMembers | backend/rag/document_processor.py:56-58 | each kept chunk is the text of some window and is not whitespace-only |
| DocumentProcessor.ChunkBounds | backend/rag/document_processor.py:48-58 | an empty text gives no chunks; every chunk is non-empty, at most chunk_size long and not whitespace-only |
| DocumentProcessor.ShortTextIsOneChunk | backend/rag/document_processor.py:52-61 | a non-blank text no longer than chunk_size gives exactly [text] |
| DocumentProcessor.SevenThousandCharacters | backend/rag/document_processor.py:85 | with 3000/300 a 7000-character text is cut at 0, 2700 and 5400 |
| DocumentProcessor.SevenThousandCharacterWindows | backend/rag/document_processor.py:85 | on a 7000-character text the windows are text[0:3000], text[2700:5700] and text[5400:7000] |
| DocumentProcessor.ProcessPdfFile | backend/rag/document_processor.py:68-119 | chunk i has chunk_index i, the i-th text chunk and the i-th fresh id and timestamp; all chunks share the file_id, document_id, class, subject and title; each chunk's metadata has total_chunks = n; total_chunks = len(chunks) and total_text_length = len(full_text); so the chunk list is determined by the text, the labels and the fresh identifiers |
| Embeddings.HexDigest | backend/rag/hybrid_vector_store.py:74 | `hexdigest()` writes two hex digits per digest byte |
| Embeddings.HexDigitValue | backend/rag/hybrid_vector_store.py:79 | `int(c, 16)` reads back each hex digit `hexdigest()` writes |
| Embeddings.HexDigestPair | backend/rag/hybrid_vector_store.py:76-79 | the k-th pair of hex digits read with `int(..., 16)` is the k-th digest byte |
| Embeddings.FallbackEmbedding | backend/rag/hybrid_vector_store.py:70-82 | the fallback vector has exactly 768 entries, all in [0, 1], and every entry from index 16 on is 0.0 |
| Embeddings.SimpleEmbedding | backend/rag/hybrid_vector_store.py:70-82 | the loop returns the fallback vector: entry i < 16 is digest byte i / 255, the rest zero padding; equal text (equal digest) gives an equal vector |
| Embeddings.TermsMeaningful | backend/rag/hybrid_vector_store.py:52-54 | only alphanumeric words longer than 2 characters are counted |
| Embeddings.DistinctSpec | backend/rag/hybrid_vector_store.py:51-54 | the dict's keys are every counted word once, in order of first occurrence |
| Embeddings.SparseVector | backend/rag/hybrid_vector_store.py:46-68 | the sparse vector always has 1000 entries |
| Embeddings.SparseEmbedding | backend/rag/hybrid_vector_store.py:46-68 | the two loops of `get_sparse_embedding` compute the sparse vector of the text |
| Embeddings.CountTerms | backend/rag/hybrid_vector_store.py:50-54 | the counting loop yields each meaningful lower-cased word's number of occurrences, keys in first-occurrence order |
| Embeddings.TermsStep | backend/rag/hybrid_vector_store.py:52-54 | one word either leaves the dict as it is or adds one to that word's count, appending a new key |
| Embeddings.FrequenciesAppend | backend/rag/hybrid_vector_store.py:54 | `word_freq.get(word, 0) + 1` after one more occurrence |
| Embeddings.FillSlots | backend/rag/hybrid_vector_store.py:57-63 | the slot loop leaves 1000 entries, slot j holding what the assignments in key order put there |
| Embeddings.CountNotIn | backend/rag/hybrid_vector_store.py:54 | a word that does not occur has count 0 |
| Embeddings.SlotUnhit | backend/rag/hybrid_vector_store.py:58-63 | a slot no key hashes to stays 0.0 |
| Embeddings.SlotLastWriter | backend/rag/hybrid_vector_store.py:61-63 | a slot holds the count of the last key hashed to it (assignment, not sum) |
| Embeddings.SparseVectorSlots | backend/rag/hybrid_vector_store.py:46-68 | a slot no meaningful word hashes to is 0; a non-zero slot holds the frequency of some meaningful lower-cased word hashed to it |
| Embeddings.SlotNonZero | backend/rag/hybrid_vector_store.py:61-63 | a non-zero slot was written by some key hashed to it, with that key's count |
| Embeddings.CosineSimilarity | backend/rag/hybrid_vector_store.py:291-309 | 0.0 when either vector has zero norm or the lengths differ (the handler), otherwise the quotient |
| Embeddings.NormalizeSparseIsMin | backend/rag/hybrid_vector_store.py:244-246 | a positive raw score s becomes min(s, 1), in (0, 1]; anything else is kept |
| Embeddings.NormalizeSparseIdempotent | backend/rag/hybrid_vector_store.py:244-246 | normalising a normalised score changes nothing |
| Embeddings.HybridScoreBounds | backend/rag/hybrid_vector_store.py:196-197 | with the default weights 0.7/0.3 and similarities in [0, 1] the hybrid score is in [0, 1] |
| Embeddings.HybridScoreMonotone | backend/rag/hybrid_vector_store.py:248-249 | with non-negative weights the hybrid score grows with each similarity |
| Ranking.InsertDescPerm | backend/rag/hybrid_vector_store.py:265 | inserting one element into the sorted list adds exactly that element |
| Ranking.InsertDescBound | backend/rag/hybrid_vector_store.py:265 | insertion keeps an upper bound on the scores |
| Ranking.InsertDescSorted | backend/rag/hybrid_vector_store.py:265 | insertion keeps the list non-increasing by score |
| Ranking.InsertDescWithKey | backend/rag/hybrid_vector_store.py:265 | the inserted element goes after the elements of equal score, and other scores are unaffected |
| Ranking.WithKeyAppend | backend/rag/hybrid_vector_store.py:265 | the elements of one score in a concatenation are those of each part, in order |
| Ranking.WithKeyBelow | backend/rag/hybrid_vector_store.py:265 | a sorted list whose first score is below k has no element of score k |
| Ranking.SortDescSpec | backend/rag/hybrid_vector_store.py:265 | `sort(key=..., reverse=True)` returns a permutation of its input, non-increasing by key, and stable: equal keys keep their input order |
| Ranking.PrefixSpec | backend/rag/hybrid_vector_store.py:266 | `xs[:k]` is the first k elements when 0 <= k <= len, everything when k >= len; for -len <= k < 0 it is the list without its last -k elements (prefix + those elements = xs), and empty for k <= -len |
| Retrieval.TokenizeAll | backend/rag/hybrid_vector_store.py:149 | one token list per document |
| Retrieval.UpsertLookup | backend/rag/hybrid_vector_store.py:92-93 | after `document(id).set(data)` the id reads back `data` and every other id is unchanged |
| Retrieval.UpsertKeys | backend/rag/hybrid_vector_store.py:92-93 | a write adds its id to the collection's ids and no other |
| Retrieval.UpsertUnique | backend/rag/hybrid_vector_store.py:92-93 | writes keep document ids unique |
| Retrieval.UpsertSpec | backend/rag/hybrid_vector_store.py:111-112 | the three facts about a write together |
| Retrieval.Where | backend/rag/hybrid_vector_store.py:314 | a `where` query returns no more documents than the collection holds |
| Retrieval.WhereSpec | backend/rag/hybrid_vector_store.py:314-315 | a `where` query streams exactly the documents whose field matches |
| Retrieval.Contents | backend/rag/hybrid_vector_store.py:318-319 | one `to_dict()` per streamed document |
| Retrieval.WhereUnique | backend/rag/hybrid_vector_store.py:344-353 | deleting documents keeps ids unique and adds none |
| Retrieval.WithEmbeddings | backend/rag/hybrid_vector_store.py:88-89 | `store_chunk` changes only the two embeddings of the chunk, and the sparse one has 1000 entries |
| Retrieval.EmbeddingDocOf | backend/rag/hybrid_vector_store.py:96-109 | the embedding record carries the chunk's id, content and file id, and its user id as above |
| Retrieval.DeletedChunksGone | backend/rag/hybrid_vector_store.py:340-356 | after a file's chunks are deleted none of them is found by file id |
| Retrieval.StoredStep | backend/rag/hybrid_vector_store.py:128-134 | one pass of the `store_chunks` loop writes the chunk and its embedding record and appends its id and content |
| Retrieval.ChunksOfFileStep | backend/rag/hybrid_vector_store.py:318-333 | one more streamed document extends the result by its chunk when it is in the file |
| Retrieval.StoredChunkReadable | backend/rag/hybrid_vector_store.py:84-115 | after a batch, each chunk not overwritten later in the batch reads back with its embeddings |
| Retrieval.StoredChunksUnique | backend/rag/hybrid_vector_store.py:92-93 | the `chunks` collection keeps unique ids through a batch |
| Retrieval.StoredEmbeddingsUnique | backend/rag/hybrid_vector_store.py:111-112 | the `embeddings` collection keeps unique ids through a batch |
| Retrieval.AddDocsAll | backend/rag/hybrid_vector_store.py:155-157 | when every `add_doc` succeeds the index holds the old corpus followed by the new documents; a failure needs a document |
| Retrieval.StoredContents | backend/rag/hybrid_vector_store.py:174-176 | one content per stored embedding record |
| Retrieval.StoredIds | backend/rag/hybrid_vector_store.py:174-177 | one chunk id per stored embedding record |
| Retrieval.FirstIndex | backend/rag/hybrid_vector_store.py:239 | `list.index` gives the first position holding the id |
| Retrieval.ScoreSpec | backend/rag/hybrid_vector_store.py:226-262 | identity fields are copied; dense is 0 for an empty stored embedding or a zero norm; sparse is 0 unless the id is indexed; a positive raw score becomes min(s, 1); hybrid = dense_weight*dense + sparse_weight*sparse |
| Retrieval.Similarities | backend/rag/hybrid_vector_store.py:225-262 | one scored entry per candidate |
| Retrieval.SimilaritiesStep | backend/rag/hybrid_vector_store.py:226-262 | one more streamed record appends its score when it passes the filters |
| Retrieval.CandidatesMatch | backend/rag/hybrid_vector_store.py:213-222 | every candidate is a stored record satisfying each supplied filter |
| Retrieval.CandidatesComplete | backend/rag/hybrid_vector_store.py:213-222 | every stored record satisfying the filters is a candidate |
| Retrieval.TopKSpec | backend/rag/hybrid_vector_store.py:265-266 | the sorted prefix is non-increasing, at most top_k long, drawn from the input, and everything when top_k covers the input |
| Retrieval.SearchResultsSpec | backend/rag/hybrid_vector_store.py:264-285 | results are non-increasing by hybrid score, at most top_k, each a scored candidate, all of them when top_k covers them |
| Retrieval.SearchResultsFiltered | backend/rag/hybrid_vector_store.py:213-220 | every result is the score of a stored record that passes each filter: class_name and subject_name by equality, file_id in allowed_file_ids |
| Retrieval.DeletedFileNotFound | backend/rag/hybrid_vector_store.py:349-353 | after a file's embeddings are deleted no search returns a chunk of that file |
| VectorStore.HybridVectorStore.constructor | backend/rag/hybrid_vector_store.py:16-30 | a new store has no BM25 index and two empty parallel lists |
| VectorStore.HybridVectorStore.GetDenseEmbedding | backend/rag/hybrid_vector_store.py:32-44 | the provider's vector, or the 768-entry md5 fallback when the provider raises |
| VectorStore.HybridVectorStore.GetSparseEmbedding | backend/rag/hybrid_vector_store.py:46-68 | the 1000-entry hashed term-frequency vector of the text |
| VectorStore.HybridVectorStore.StoreChunk | backend/rag/hybrid_vector_store.py:84-119 | fills both embeddings, writes the chunk and then its embedding record under the chunk id, and returns the id; when the chunk write raises nothing is written, and when only the embedding write raises the chunk stays written without its record; the BM25 lists are untouched |
| VectorStore.HybridVectorStore.StoreChunks | backend/rag/hybrid_vector_store.py:121-143 | returns the input chunks' ids in input order; writes every chunk in order; the two BM25 lists are extended together by the contents and ids in input order, or not at all when the index update raises; the lists keep equal length; when a write raises part-way, the chunks stored before it stay stored (the failing one too when its chunk write was answered), the batch raises and the BM25 index and lists are unchanged |
| VectorStore.HybridVectorStore.UpdateBm25Index | backend/rag/hybrid_vector_store.py:145-163 | builds the index when there is none, else adds each document; both lists are extended in input order only when nothing raised |
| VectorStore.HybridVectorStore.LoadBm25Index | backend/rag/hybrid_vector_store.py:165-186 | replaces the index and both lists with the stored contents and ids only when stored documents exist and the index builds; otherwise nothing changes |
| VectorStore.HybridVectorStore.HybridSearch | backend/rag/hybrid_vector_store.py:188-289 | loads the index when missing, then returns the filtered candidates scored, sorted best first and cut to top_k; [] when the store raises; the collections are unchanged; after a reload the index is built from the stored contents and the BM25 lists are the stored contents and ids; the new store state and the results are functions of the old state alone |
| VectorStore.HybridVectorStore.ScoreCandidates | backend/rag/hybrid_vector_store.py:224-262 | the scoring loop yields one scored entry per streamed record that passes the filters, in stored order |
| VectorStore.HybridVectorStore.GetChunksByFileId | backend/rag/hybrid_vector_store.py:311-338 | the stored chunks of that file, each rebuilt equal to what was stored, in stored order; [] when the store raises |
| VectorStore.HybridVectorStore.DeleteChunksByFileId | backend/rag/hybrid_vector_store.py:340-359 | deletes the file's chunks in stored order and then its embedding records, leaving the BM25 index and lists as they are; True exactly when every call was answered, and then both collections are without the file; the first call that raises makes it return False, keeping the deletes made before it |
| VectorStore.HybridVectorStore.DeleteFileDocuments | backend/rag/hybrid_vector_store.py:340-359 | the two query-and-delete loops in order: the embedding query runs only after the chunk query and every chunk delete were answered |
| VectorStore.HybridVectorStore.DeleteHits | backend/rag/hybrid_vector_store.py:344-347 | a delete loop over a query's stream removes the hits in stored order until a delete raises, one call each, and reports whether all were answered |
| VectorStore.HybridVectorStore.RebuildChunks | backend/rag/hybrid_vector_store.py:317-335 | the streaming loop collects the file's chunks in stored order, each rebuilt from its dictionary |
| VectorStore.HybridVectorStore.Rebuild | backend/rag/hybrid_vector_store.py:320-332 | the chunk rebuilt from a stored dictionary equals the chunk that was stored |
| Retrieval.StoreStopped | backend/rag/hybrid_vector_store.py:127-134 | a batch of two-call stores that raises in store i has completed exactly i stores, and store i's chunk is written only when its first call was answered |
| Retrieval.DeleteAnswered | backend/rag/hybrid_vector_store.py:340-356 | when every call of a delete is answered, exactly the file's chunks and embedding records are gone from the two collections |
| Retrieval.DeleteKeepsOtherFiles | backend/rag/hybrid_vector_store.py:340-359 | however early a delete stops, no chunk or embedding record of another file is lost |
| Retrieval.DeleteUnanswered | backend/rag/hybrid_vector_store.py:342-343 | when the first query raises, the delete reports False and changes nothing |
| Retrieval.DeleteStopsBeforeEmbeddings | backend/rag/hybrid_vector_store.py:349-359 | when the embedding query raises after every chunk delete, the delete reports False with all the file's chunks gone and all its embedding records still stored |
| Retrieval.AfterStoreChunksSpec | backend/rag/hybrid_vector_store.py:121-143 | after `store_chunks` the BM25 lists stay parallel; when every write is answered both collections hold the whole batch; when a write raises the BM25 index and lists are untouched |
| Retrieval.AfterSearchFrame | backend/rag/hybrid_vector_store.py:188-209 | a search never changes the two collections, keeps the BM25 lists parallel, and with an index already built changes nothing but the call count |
| Models.PadValue | backend/rag/models.py:37 | the zero-padded decimal fields `isoformat()` writes read back as the number written, when it fits the width |
| Models.ParseIso | backend/rag/hybrid_vector_store.py:331 | `datetime.fromisoformat` only succeeds on a valid date and time |
| Models.ParseTripleOfPads | backend/rag/models.py:37 | the `YYYY-MM-DD` and `HH:MM:SS` groups written by `isoformat()` parse back to the three numbers |
| Models.IsoRoundTrip | backend/rag/models.py:37 | `fromisoformat(t.isoformat())` gives back `t`, with or without microseconds |
| Models.NewChunkDefaults | backend/rag/models.py:20-23 | a new `DocumentChunk` has empty dense and sparse embeddings and empty metadata |
| Models.RealsRoundTrip | backend/rag/models.py:34-35 | an embedding list stored as a list of floats reads back unchanged |
| Models.ChunkToDict | backend/rag/models.py:25-38 | `to_dict` has exactly the eleven field keys |
| Models.ChunkFromDict | backend/rag/hybrid_vector_store.py:320-332 | a rebuilt chunk keeps the stored `file_id` |
| Models.ChunkRoundTrip | backend/rag/hybrid_vector_store.py:320-332 | rebuilding a chunk from its `to_dict` gives an equal chunk: all eleven fields are copied verbatim and `created_at` survives the ISO string |
| Models.SearchResultToDict | backend/rag/models.py:54-66 | `SearchResult.to_dict` has exactly the ten field keys |
| Models.SearchResultToDictInjective | backend/rag/models.py:54-66 | equal dictionaries come from equal results: the three scores and the identity fields are exposed unchanged |
| Models.ChatRequestDefaults | backend/rag/models.py:75-77 | a new `ChatRequest` has allowed_file_ids None, max_tokens 1000 and temperature 0.7 |
| Models.ChatRequestToDict | backend/rag/models.py:79-88 | the seven keys; allowed_file_ids is null exactly when it is None |
| Models.ChatResponseToDict | backend/rag/models.py:97-102 | `retrieved_chunks` is mapped element-wise by `SearchResult.to_dict`, keeping length and order |
| Models.ChatResponseToDictInjective | backend/rag/models.py:97-102 | equal dictionaries come from responses with the same text, chunks in the same order and metadata |
| Models.PDFUploadRequestToDict | backend/rag/models.py:113-119 | the dictionary holds title, class_name, subject_name and user_id and never `file_content` |
| Models.PDFUploadRequestToDictIgnoresContent | backend/rag/models.py:113-119 | two requests have equal dictionaries iff their four descriptive fields agree, whatever the file's bytes |
| Workflow.ShouldRetrieveSpec | backend/rag/agentic_workflow.py:31-49 | retrieval is chosen iff the lower-cased query contains one of the 15 keywords or the query has more than 2 whitespace-separated words |
| Workflow.ShortQueryNotRetrieved | backend/rag/agentic_workflow.py:35-49 | a query of fewer than 3 characters never retrieves |
| Workflow.GreetingNotRetrieved | backend/rag/agentic_workflow.py:35-49 | "hi" does not retrieve |
| Workflow.KeywordRetrieved | backend/rag/agentic_workflow.py:41-44 | a lower-cased query containing any keyword retrieves |
| Workflow.KeywordInsideWordRetrieved | backend/rag/agentic_workflow.py:44 | "somewhat" retrieves, because "what" is matched as a substring |
| Workflow.LowerIdempotent | backend/rag/agentic_workflow.py:41 | lower-casing twice is lower-casing once |
| Workflow.LowerSlice | backend/rag/agentic_workflow.py:41 | lower-casing commutes with taking a suffix |
| Workflow.WordLengthLower | backend/rag/agentic_workflow.py:47 | lower-casing does not change where the first word ends |
| Workflow.WordCountLower | backend/rag/agentic_workflow.py:47 | lower-casing keeps the number of words |
| Workflow.ShouldRetrieveIgnoresCase | backend/rag/agentic_workflow.py:41-49 | the decision is the same for a query and its lower-cased form |
| Workflow.ContextPartsSpec | backend/rag/agentic_workflow.py:92-97 | the context holds the header, then for the i-th result its number i+1 with its content preview, then its score line |
| Workflow.ContentPreviewSpec | backend/rag/agentic_workflow.py:95 | the preview is a prefix of the content of at most 500 characters, the whole content when shorter |
| Workflow.PromptAroundCarries | backend/rag/agentic_workflow.py:102-108 | text around the context and the query keeps both verbatim |
| Workflow.PromptCarries | backend/rag/agentic_workflow.py:102-108 | the prompt contains the context and the user's query verbatim |
| Workflow.ErrorResponse | backend/rag/agentic_workflow.py:187-193 | the error response has no retrieved chunks, metadata holding only "error", and the apology text |
| Workflow.ChatMetadata | backend/rag/agentic_workflow.py:174-182 | the seven keys; retrieval_used is the decision and chunks_retrieved the count; the request's fields are copied |
| Workflow.ChatMetadataNotError | backend/rag/agentic_workflow.py:174-193 | a successful response's metadata never equals the error metadata |
| Workflow.UploadResult | backend/rag/agentic_workflow.py:221-230 | the upload result has exactly the eight keys |
| Workflow.ProcessedIds | backend/rag/agentic_workflow.py:217 | the ids stored for a processed file are its chunk ids in chunk order |
| Workflow.DictsReadBack | backend/rag/agentic_workflow.py:240 | every chunk's dictionary reads back as that chunk |
| Workflow.AgenticWorkflow.constructor | backend/rag/agentic_workflow.py:13-19 | the workflow holds the given store, model and score formatting |
| Workflow.AgenticWorkflow.SearchKnowledgeBase | backend/rag/agentic_workflow.py:55-78 | the store's search with the request's class, subject and files and the default weights: the results and the store afterwards are those of that search from the store before the call; results sorted, at most top_k, matching each given filter; [] on failure |
| Workflow.AgenticWorkflow.GenerateResponseWithContext | backend/rag/agentic_workflow.py:80-123 | the loop builds the context parts; the model's answer to the prompt, or the apology with the error |
| Workflow.AgenticWorkflow.ProcessChatRequest | backend/rag/agentic_workflow.py:125-185 | without retrieval no chunks and no store change; with retrieval the retrieved chunks and the store afterwards are those of the top-5 search from the store before the call; metadata reports the decision and len(retrieved_chunks); [] when the search fails |
| Workflow.AgenticWorkflow.ProcessPdfUpload | backend/rag/agentic_workflow.py:195-234 | a failed extraction raises and changes nothing; otherwise the store afterwards is `store_chunks` of the processor's chunks from the store before, a failed write raises, and a success reports the file's identity, total_chunks from the processor and the stored chunk ids in order |
| Workflow.AgenticWorkflow.GetFileChunks | backend/rag/agentic_workflow.py:236-243 | the file's chunks as dictionaries in stored order, each reading back as its chunk; [] on failure; the store spends one call and is otherwise unchanged, BM25 index and lists included |
| Workflow.AgenticWorkflow.DeleteFile | backend/rag/agentic_workflow.py:245-252 | the store afterwards is the store's delete applied to the store before (call count, both collections, BM25 untouched); True exactly when every call is answered, and then no chunk or embedding record of the file is left; whatever the outcome, the documents of other files are unchanged |
| Ingest.Components | backend/rag/ingest_pdfs.py:48 | `Path(p).parts` keeps only non-empty components other than "." |
| Ingest.LastIndexOf | backend/rag/ingest_pdfs.py:89 | the last position of a character, or none when it does not occur |
| Ingest.StemSpec | backend/rag/ingest_pdfs.py:89 | the title is the file name with its last suffix removed: name = stem + suffix; the suffix is empty or a dot and more characters with no other dot |
| Ingest.FirstWithSpec | backend/rag/ingest_pdfs.py:58-67 | the scan finds the first part whose lower-cased form contains a keyword, or reports that none does |
| Ingest.MetadataToDict | backend/rag/ingest_pdfs.py:69-72 | the dictionary has exactly class_name and subject_name |
| Ingest.MetadataSpec | backend/rag/ingest_pdfs.py:46-72 | fewer than 3 parts gives "Unknown"/"Unknown"; otherwise each is "Unknown" or the first path part whose lower-cased form holds one of its keywords |
| Ingest.FirstMatchingPart | backend/rag/ingest_pdfs.py:58-67 | the loop with `break` returns the first matching part |
| Ingest.ExtractMetadataFromPath | backend/rag/ingest_pdfs.py:46-72 | the method computes the class and subject described above |
| Ingest.ResultToDict | backend/rag/ingest_pdfs.py:107-124 | success True with the eight keys, or success False with file_path and error |
| Ingest.Successes | backend/rag/ingest_pdfs.py:150-151 | there are no more successes than results |
| Ingest.CountsStep | backend/rag/ingest_pdfs.py:150-154 | one more result adds one success and its chunks, or nothing |
| Ingest.FailuresSpec | backend/rag/ingest_pdfs.py:193 | the failed list holds exactly the unsuccessful results, and their number is the results minus the successes |
| Ingest.GroupedSpec | backend/rag/ingest_pdfs.py:178-185 | a "class - subject" group exists iff some success has that key; files counts those successes and chunks sums their chunks_count |
| Ingest.GroupedIgnoresFailures | backend/rag/ingest_pdfs.py:180 | a failed result changes no group |
| Ingest.PrintSummary | backend/rag/ingest_pdfs.py:163-197 | the loop builds the grouping above and lists the failed results |
| Ingest.AfterIngestAllBudget | backend/rag/ingest_pdfs.py:144-154 | a run makes two store calls per chunk of each readable file and none for an unreadable one |
| Ingest.IngestStep | backend/rag/ingest_pdfs.py:144-148 | processing one more file extends the store's history and the results by that file's |
| Ingest.PDFIngestionPipeline.constructor | backend/rag/ingest_pdfs.py:25-38 | a new pipeline starts with all counters at 0 |
| Ingest.PDFIngestionPipeline.Stats | backend/rag/ingest_pdfs.py:31-38 | the stats dictionary holds the four counters |
| Ingest.PDFIngestionPipeline.ProcessSinglePdf | backend/rag/ingest_pdfs.py:74-124 | an unreadable file gives a failure with its error and stores nothing; a readable one stores the chunks made from its text with the stem as title and the path's class and subject, leaving the store as `store_chunks` of them leaves it; success iff the store accepts the chunks, with title = the file stem, the path's class and subject, and the chunk and text counts |
| Ingest.PDFIngestionPipeline.Record | backend/rag/ingest_pdfs.py:150-154 | a success adds 1 to processed_files and its chunks to total_chunks; a failure adds 1 to failed_files |
| Ingest.PDFIngestionPipeline.IngestDirectory | backend/rag/ingest_pdfs.py:126-161 | total_files is the number of files; no files means no processing; otherwise the loop below: one result per file in order, each what `process_single_pdf` gives from the store left by the files before it, and the store is what the files leave in order; processed + failed = total for a fresh pipeline; total_chunks sums chunks over successes |
| Audio.RemoveUnderscores | backend/ai/llmasssist.py:174 | `int()` drops the underscores between digit groups, leaving digits |
| Audio.RemoveUnderscoresOfDigits | backend/ai/llmasssist.py:174 | a string of plain digits is read as it is |
| Audio.DecimalDigits | backend/ai/llmasssist.py:174 | a rendered number is one digit group worth that number |
| Audio.PyIntOfDecimal | backend/ai/llmasssist.py:174 | `int()` reads a decimal numeral as its value |
| Audio.PyIntOfNegative | backend/ai/llmasssist.py:180 | `int()` reads a leading minus sign as negation |
| Audio.PyIntRejectsBlank | backend/ai/llmasssist.py:175-177 | an empty or blank value (as in "rate=") raises, so the default is kept |
| Audio.ParamsStep | backend/ai/llmasssist.py:169-182 | one pass of the loop applies one part to the parameters so far |
| Audio.ParseAudioMimeType | backend/ai/llmasssist.py:152-184 | the loop over the parts returns the parameters the parts determine |
| Audio.RateAfterSpec | backend/ai/llmasssist.py:164-177 | the rate is 24000 unless some part, stripped and starting with "rate=" in any case, holds a valid integer; then it is the integer of the last such part; invalid values leave it unchanged |
| Audio.BitsAfterSpec | backend/ai/llmasssist.py:164-182 | the sample size is 16 unless some part starting with exactly "audio/L" holds a valid integer after its first "L"; then it is that of the last such part |
| Audio.BareTypeDefaults | backend/ai/llmasssist.py:164-165 | a MIME type with no usable parameter gives bits_per_sample 16 and rate 24000 |
| Audio.RiffDescriptor | backend/ai/llmasssist.py:136-138 | the RIFF descriptor is 12 bytes |
| Audio.FmtChunk | backend/ai/llmasssist.py:139-146 | the fmt sub-chunk is 24 bytes |
| Audio.DataHeader | backend/ai/llmasssist.py:147-148 | the data sub-chunk header is 8 bytes |
| Audio.WavHeader | backend/ai/llmasssist.py:134-149 | the header is 44 bytes |
| Audio.ConvertToWav | backend/ai/llmasssist.py:112-150 | the WAV file for the parameters parsed from the MIME type, or the packing error |
| Audio.WavFileSpec | backend/ai/llmasssist.py:134-150 | packing succeeds exactly when every field fits its width; the file is 44 + len(audio_data) bytes and ends with audio_data unchanged |
| Audio.RiffFields | backend/ai/llmasssist.py:136-138 | "RIFF", little-endian u32 36 + data_size, "WAVE" |
| Audio.FmtFields | backend/ai/llmasssist.py:139-146 | "fmt ", 16, PCM 1, one channel, rate, byte_rate, block_align, bits |
| Audio.DataFields | backend/ai/llmasssist.py:147-148 | "data", then data_size |
| Audio.WavHeaderFields | backend/ai/llmasssist.py:125-149 | reading the header back gives the canonical layout, with block_align = bits // 8 and byte_rate = rate * block_align |
| Bytes.U16LE | backend/ai/llmasssist.py:135 | a little-endian u16 is 2 bytes |
| Bytes.U32LE | backend/ai/llmasssist.py:135 | a little-endian u32 is 4 bytes |
| Bytes.U16RoundTrip | backend/ai/llmasssist.py:135 | reading a packed u16 back gives the value |
| Bytes.U32RoundTrip | backend/ai/llmasssist.py:135 | reading a packed u32 back gives the value |
| Bytes.ReadInConcat | backend/ai/llmasssist.py:134-150 | a field read inside one part of a concatenation is unaffected by the other part |
| ExpressApi.LeadingDigits | backend/index.js:168 | `parseInt` reads the longest prefix of digits valid in the radix |
| ExpressApi.RadixValueDecimal | backend/index.js:168 | on decimal digits the base-10 reading is the decimal value |
| ExpressApi.JsParseIntOfDecimal | backend/index.js:168 | a rendered number, optionally followed by text that does not start with a letter or digit, parses back to the number |
| ExpressApi.LeadingDigitsOfDigits | backend/index.js:305 | the digit run of digits followed by a non-alphanumeric character is exactly those digits |
| ExpressApi.JsParseIntWithoutDigits | backend/index.js:305-306 | a string with no decimal digit parses to NaN, so no limit applies |
| ExpressApi.FindIndex | backend/index.js:172-194 | the first notebook whose id equals the parsed id; none when no id equals it or the id is NaN |
| ExpressApi.GetNotebook | backend/index.js:167-183 | 404 exactly when no notebook has the parsed id; otherwise a stored notebook with that id |
| ExpressApi.NewImportedSpec | backend/index.js:205-210 | a sent source counts as newly imported iff its id starts with "imported_" and no previous source has its id |
| ExpressApi.ResendImportsNothing | backend/index.js:207-210 | re-sending the current sources imports nothing |
| ExpressApi.ListingAfterUpdate | backend/index.js:213-224 | an update changes the listing only in the updated notebook's lastModified |
| ExpressApi.FindIndexByIds | backend/index.js:194 | the lookup depends only on the ids |
| ExpressApi.GetAfterUpdate | backend/index.js:172-224 | after a successful update the same id finds the notebook with the new sources and 'Just now' |
| ExpressApi.Relevance | backend/index.js:292-302 | the score is 0 to 3; at least 2 iff the title contains the term; odd iff the description does |
| ExpressApi.MatchingSpec | backend/index.js:277-289 | a catalogue entry passes iff its lower-cased title, description or subject contains the term and the type filter (if given and not 'all') equals its type |
| ExpressApi.DiscoverResultsMatch | backend/index.js:274-308 | every result matches term and type and comes from the catalogue; results are non-increasing by 2*[title] + [description]; the count is the limit when 0 < limit < count, otherwise all |
| ExpressApi.DiscoverResultsComplete | backend/index.js:292-308 | when nothing is cut every match is returned, and results of equal relevance keep catalogue order |
| ExpressApi.PrefixFacts | backend/index.js:307 | the sliced prefix stays sorted and is drawn from the sorted list |
| ExpressApi.MockBackend.constructor | backend/index.js:144-148 | the server starts with the given notebooks and catalogue |
| ExpressApi.MockBackend.UpdateSources | backend/index.js:186-236 | 404 for an unknown id before the body is checked; 400 when sources is not an array; otherwise only that notebook changes: its sources are replaced and lastModified becomes 'Just now'; importedCount and totalSources are reported |
| ExpressApi.MockBackend.Discover | backend/index.js:264-320 | 400 iff the query is missing or blank; otherwise the results above for lower(trim(q)), the limit defaulting to 20; total equals the returned length; the catalogue is not changed |
| KnowledgeBase.FilteredNotebooksSpec | frontend/src/app/knowledge-base/page.tsx:59-72 | a notebook is shown iff it is listed and matches both the search and the tag filters; the result is drawn from `notebooks` (an order-preserving filter) |
| KnowledgeBase.ShownCardsMatch | frontend/src/app/knowledge-base/page.tsx:61-69 | every shown card has every active filter tag by exact match; with a non-empty search its title, class, section or some tag contains the term, ignoring case |
| KnowledgeBase.EmptyViewShowsAll | frontend/src/app/knowledge-base/page.tsx:59-72 | an empty search with no active filters shows every notebook, in order |
| KnowledgeBase.ToggleFilterSpec | frontend/src/app/knowledge-base/page.tsx:75-81 | toggling flips whether the tag is active and leaves every other tag as it was |
| KnowledgeBase.ToggleTwiceRestores | frontend/src/app/knowledge-base/page.tsx:75-81 | toggling an inactive tag twice restores the list |
| KnowledgeBase.ClearFilters | frontend/src/app/knowledge-base/page.tsx:84-87 | no active filters and an empty search term |
| KnowledgeBase.ClearShowsAll | frontend/src/app/knowledge-base/page.tsx:84-87 | after clearing every notebook is shown again |
| DiscoverModal.OnOpenChange | frontend/src/components/notebook/DiscoverModal.tsx:32-41 | opening resets the query, the type filter to 'all', the results, the selection, the error and hasSearched; a close changes nothing |
| DiscoverModal.OpenedDialogStartsFresh | frontend/src/components/notebook/DiscoverModal.tsx:32-62 | right after opening, a search only reports the blank query and an import passes nothing; the first successful search shows its results with none selected |
| DiscoverModal.BlankSearchChangesOnlyError | frontend/src/components/notebook/DiscoverModal.tsx:43-47 | a blank or whitespace query only sets the error message: no search, results unchanged |
| DiscoverModal.SearchKeepsSelection | frontend/src/components/notebook/DiscoverModal.tsx:49-68 | a search never changes the selection; a successful one shows exactly the returned resources and clears the error; a failed one keeps the results |
| DiscoverModal.RequestAccepted | frontend/src/lib/api.js:127-146 | the request of a non-blank query sends a trimmed query that the backend accepts (not blank) |
| DiscoverModal.ToggleResourceSelection | frontend/src/components/notebook/DiscoverModal.tsx:77-85 | toggling flips membership of exactly that id and leaves every other id unchanged |
| DiscoverModal.SelectAllAsWrittenMisfires | frontend/src/components/notebook/DiscoverModal.tsx:87-93 | the size test clears the selection although none of the shown results is selected, when stale ids from an earlier search fill it |
| DiscoverModal.SelectAll | frontend/src/components/notebook/DiscoverModal.tsx:87-93 | select-all as intended: clear when every shown result is selected, otherwise select exactly the shown results |
| DiscoverModal.SelectAllAgreesWithoutStaleIds | frontend/src/components/notebook/DiscoverModal.tsx:87-93 | without stale ids and with distinct result ids the size test and the intended test agree |
| DiscoverModal.ImportedSpec | frontend/src/components/notebook/DiscoverModal.tsx:95-100 | a resource is imported iff it is a shown result whose id is selected |
| DiscoverModal.SelectAllThenImport | frontend/src/components/notebook/DiscoverModal.tsx:87-100 | after a select-all that selects, the import passes every shown result, in result order |
| DiscoverModal.SelectAllTwiceClears | frontend/src/components/notebook/DiscoverModal.tsx:87-93 | a second select-all right after one that selected clears the selection |
| Dashboard.NoClassesAllZero | frontend/src/app/dashboard/page.tsx:132-137 | with no classes every statistic is 0: both divisions are guarded |
| Dashboard.RatioBounds | frontend/src/app/dashboard/page.tsx:137 | a part of a positive whole gives a ratio in [0, 1] |
| Dashboard.PercentageBounds | frontend/src/app/dashboard/page.tsx:137 | round(100 * part / whole) lies in [0, 100] and is 100 when part = whole > 0; 0 when whole is 0 |
| Dashboard.OverviewBounds | frontend/src/app/dashboard/page.tsx:132-137 | totalPresent <= totalStudents (the sums of the per-class fields), overall attendance and average performance in [0, 100] when each class's figures are |
| Dashboard.FilteredClassesSpec | frontend/src/app/dashboard/page.tsx:140-143 | a class is shown iff its name or subject contains the term ignoring case; an empty term keeps all, in order |
| Dashboard.PerformanceColor | frontend/src/app/dashboard/page.tsx:12-17 | one of four colours: green iff >= 85, red iff < 65 (blue from 75, yellow from 65) |
| Dashboard.PerformanceColorMonotone | frontend/src/app/dashboard/page.tsx:12-17 | a higher performance never gets a worse colour band |
| Dashboard.TrendIcon | frontend/src/app/dashboard/page.tsx:19-25 | 'up' gives the rising chart, 'down' the falling chart, anything else the arrow, each iff |
| LessonPlanner.FilteredLessonPlansSpec | frontend/src/app/lesson-planner/page.tsx:37-41 | a plan is shown iff its subject, some class or its description contains the term ignoring case; an empty term keeps every plan, in order |
| LessonPlanner.StatsSpec | frontend/src/app/lesson-planner/page.tsx:44-50 | totalSubjects is the number of plans, totalClasses is never negative, no plans give all zeros (the averaging division is guarded), progress values in [0, 100] give an average in [0, 100] |
| LessonPlanner.TotalClassesAppend | frontend/src/app/lesson-planner/page.tsx:46 | totalClasses sums `classes.length`: one more plan adds its classes |
| AiAudit.FilteredSessionsSpec | frontend/src/app/ai-audit/page.tsx:107-113 | a session is kept iff the search matches its title, subject or className ignoring case and the status filter is 'all' or its status; empty search with 'all' keeps all |
| AiAudit.StatusCountsPartition | frontend/src/app/ai-audit/page.tsx:168-178 | the status counts (filter by status, then length) of the three statuses add up to the number of sessions |
| AiAudit.AverageEngagementSpec | frontend/src/app/ai-audit/page.tsx:189 | unscored sessions do not change the average (it equals the average over the scored ones); no scored session gives 0 (the NaN quotient falls back to 0); scores up to 100 give an average in [0, 100] |
| AiAudit.EngagementColor | frontend/src/app/ai-audit/page.tsx:124-129 | one of four colours: green iff >= 90, red iff < 60 (blue from 75, yellow from 60) |
| AiAudit.EngagementColorMonotone | frontend/src/app/ai-audit/page.tsx:124-129 | a higher engagement never gets a worse colour band |
| Lists.FilterKeeps | frontend/src/app/knowledge-base/page.tsx:59 | `filter` keeps exactly the elements satisfying the predicate |
| Lists.FilterAll | frontend/src/app/knowledge-base/page.tsx:59-72 | a filter every element passes returns the array unchanged |
| Lists.Round | frontend/src/app/dashboard/page.tsx:134-137 | `Math.round` gives an integer within one half of its argument, halves rounded up |
| Lists.RoundWithin | frontend/src/app/dashboard/page.tsx:137 | rounding a value between two integers stays between them |
| Lists.RoundedMeanWithin | frontend/src/app/lesson-planner/page.tsx:47-49 | the rounded mean of terms between two integers lies between them |
| Audio.PyIntOfNegativeGroup | backend/ai/llmasssist.py:180 | `int()` reads a minus sign before any digit group as the negated value of the group |
| Audio.ApplyPart | backend/ai/llmasssist.py:170-182 | one iteration on a raw part sets the rate, sets the sample size or leaves both, exactly as that part's classification says |
| Audio.ClassifyAsBits | backend/ai/llmasssist.py:178-180 | a stripped part beginning "audio/L" sets the sample size to `int()` of what follows the prefix |
| Audio.ClassifyAsRate | backend/ai/llmasssist.py:171-174 | a stripped part beginning "rate=" sets the rate to `int()` of what follows the "=" |
| Audio.SampleSizePart | backend/ai/llmasssist.py:178-180 | the part "audio/L" followed by a rendered number sets the sample size to that number |
| Audio.RatePart | backend/ai/llmasssist.py:171-174 | the part "rate=" followed by a rendered number sets the rate to that number |
| Audio.SampleSizeAndRate | backend/ai/llmasssist.py:164-182 | "audio/L<b>;rate=<r>" parses to sample size b and rate r, for every b and r |
| Audio.LastRateWins | backend/ai/llmasssist.py:168-177 | of two rate parts the later one wins and the sample size stays 16 |
| Audio.L16At24000 | backend/ai/llmasssist.py:152-184 | the documented example "audio/L16;rate=24000" gives 16 bits at 24000 Hz |
| Models.SearchResultDictFields | backend/rag/models.py:54-66 | each of the ten keys of `SearchResult.to_dict` holds the field of the same name |
| Embeddings.CountWord | backend/rag/hybrid_vector_store.py:52-54 | one word adds one to its count and, when new, appends its key; a stop word or short word changes nothing |
| Ingest.PDFIngestionPipeline.IngestOne | backend/rag/ingest_pdfs.py:146-154 | one file is processed and recorded: its result and the store afterwards are those of `process_single_pdf` from the store before; a success adds one processed file and its chunk count, a failure one failed file |
| Ingest.PDFIngestionPipeline.IngestAll | backend/rag/ingest_pdfs.py:144-154 | the loop processes the files in order: result i is what `process_single_pdf` gives for file i from the store the first i files left, the store ends as the files leave it, and the counters add the successes, failures and their chunks |

## Left out

- Text is modelled on ASCII only. This covers lower-casing (`str.lower`, `toLowerCase`), `str.isalnum`, and the digits `int()` and `parseInt` accept. It also covers the ASCII whitespace of each runtime: Python's `split()`, `strip()` and `int()` count the separators U+001C to U+001F as whitespace, JavaScript's `trim()` does not, and the model keeps the two apart. Unicode case mapping, non-ASCII whitespace and non-ASCII digits are not modelled.
- Floating point is modelled as `real`. Python and JavaScript round their floats; the model's arithmetic is exact. The non-degenerate branch of `_cosine_similarity` (dot product over norms) is a parameter of `Embeddings.CosineSimilarity`; only its zero-norm guard is modelled.
- md5, Python's `hash()`, `BM25Okapi` (construction, `add_doc`, `get_scores`), the embedding provider, the language model and PDF text extraction are parameters. Their internals are not part of this model. Each may fail, and the model keeps the source's handling of that failure.
- `hybrid_search` computes a query sparse embedding and never uses it (backend/rag/hybrid_vector_store.py:203). The model computes it too and likewise leaves it unused.
- Firestore is an in-memory sequence of documents. The service's result order, its limit on the number of values in an `in` query, and stored documents that lack fields are not modelled. Client exceptions are modelled by the store's budget of answered calls: the first call that raises is a parameter, every later call raises too, and the model keeps the writes made before the first. A failure that clears up, so that a later call is answered again, is not modelled; the two lines below name the recovery paths this leaves out.
- `process_chat_request` has an outer `except` (backend/rag/agentic_workflow.py:187-193). Every modelled step already catches its own errors, so that branch cannot be reached in the model. `Workflow.ErrorResponse` gives the shape it would return.
- The `start_time`/`end_time` clock fields of the ingestion statistics are not modelled, nor is the console output of `print_summary` and the other progress messages. `Ingest.PrintSummary` computes only the grouping and the failure list that it prints.
- The directory glob of `get_pdf_files` is given as the sorted list of files it found. Path joining is modelled on "/"-separated strings, so pathlib's handling of "//" and "." is not.
- The mock Express backend's seed data are constructor parameters. Query values that Express would parse as arrays, the 500 error paths, `GET /api/documents` (a fixed payload) and `POST /api/notebooks/:id/chat` (a canned reply) are not modelled.
- The class card's `attendancePercentage` divides without a guard (frontend/src/app/dashboard/page.tsx:27). For a class with no students JavaScript gives `NaN`, which `real` cannot express, so that card figure is not modelled. The page-level statistics, which are guarded, are.
- React state is a value passed in and returned. The outcome of each `fetch` is a parameter. Loading flags and their timing, and the `onClose` call after `handleImport`, are not modelled.
- JavaScript's in-place `Array.prototype.sort` is modelled as reassignment by a stable sort. Emoji are modelled as their code points.
- DocumentProcessor.CreateChunksWithOverlap: requires `overlap < chunk_size`. The source has no such guard. With `overlap >= chunk_size` a text of at most `chunk_size` characters still leaves the loop after one pass (backend/rag/document_processor.py:60-61), giving `[text]` or `[]`, but a longer text never advances its window, so the loop does not end. The fixed 3000/300 parameters of `process_pdf_file` meet the requirement.
- Dashboard.OverviewBounds: the totals are stated through `OverviewOf`, whose sums are the page's `reduce` calls written as definitions. Its lemmas bound the averages rather than re-deriving each sum.
- External AI services are not modelled. These are the Gemini, Imagen and text-to-speech calls in `backend/ai/`, `image_generate`, `audio_generate`, `/llm_assist`, the HTTP and command-line wrappers around the workflow, and the `retrieve_generate` stub. They hold no logic of their own beyond forwarding to those services.
- Frontend components that only render are not modelled.
- VectorStore.HybridVectorStore.HybridSearch: when `_load_bm25_index` fails at its own stream the source catches that (backend/rag/hybrid_vector_store.py:184-186) and, if the search stream at line 222 is then answered, returns dense-only scored results. Because a failure in the model is permanent, the model returns [] there, and `Workflow.AgenticWorkflow.SearchKnowledgeBase` inherits this.
- Ingest.PDFIngestionPipeline.IngestAll: `ingest_directory` goes on after a file fails (backend/rag/ingest_pdfs.py:144-154), so after a transient store failure later files can succeed. In the model the failure is permanent, so every later file with at least one chunk fails as well.
- Audio.PyInt: CPython's limit on the number of digits `int()` converts from a decimal string (4300 by default since 3.10.7) is not modelled. Beyond it the source raises ValueError, which `parse_audio_mime_type` catches (backend/ai/llmasssist.py:175-177), keeping the default rate or sample size. The model reads the whole number instead, so for such a part `Audio.RateAfterSpec` and `Audio.BitsAfterSpec` give the huge value, and `Audio.ConvertToWav` then reports a packing error where the source returns a valid WAV.
- Ingest.PDFIngestionPipeline.ProcessSinglePdf: the error text of a failure caused by a store write is not stated. The model raises a fixed message where the source reports whatever the Firestore client raised.

## Findings

| source | as written | input that shows it | evidently intended | confidence | as-written member | corrected member |
|---|---|---|---|---|---|---|
| frontend/src/components/notebook/DiscoverModal.tsx:87-93 | select-all clears the selection when the selection's size equals the number of results | a selection {"a", "b"} kept from an earlier search, with the new results "c" and "d": the click clears the selection although no shown result was selected | clear only when every shown result is already selected, otherwise select exactly the shown results | medium, not executed | DiscoverModal.SelectAllAsWrittenMisfires | DiscoverModal.SelectAll |
