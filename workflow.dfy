/**
 * `AgenticWorkflow` (backend/rag/agentic_workflow.py): decide whether a chat message needs
 * retrieval, search the store, build the context handed to the language model, and wrap
 * the store's upload, listing and deletion for the HTTP layer.
 */
module Workflow {
  import opened Wrappers
  import opened Text
  import opened Models
  import opened Embeddings
  import opened Ranking
  import opened Retrieval
  import opened VectorStore
  import opened DocumentProcessor

  /** The substrings that make `should_retrieve` choose retrieval. */
  const RetrievalKeywords: seq<string> := [
    "what", "how", "explain", "describe", "tell me about",
    "information", "details", "facts", "definition", "meaning",
    "compare", "difference", "similar", "example", "instance"
  ]

  /**
   * `should_retrieve`: retrieve when the lower-cased query contains a keyword or the query
   * has more than two whitespace-separated words.
   */
  predicate ShouldRetrieve(query: string) {
    ContainsAny(Lower(query), RetrievalKeywords) || |Words(query)| > 2
  }

  /** The decision, stated with both directions: a keyword occurs in the lower-cased query, or there are more than two words. */
  lemma ShouldRetrieveSpec(query: string)
    ensures ShouldRetrieve(query) <==>
      (exists k :: k in RetrievalKeywords && Contains(Lower(query), k)) || |Words(query)| > 2
  {
    ContainsAnySpec(Lower(query), RetrievalKeywords);
    if exists k :: k in RetrievalKeywords && Contains(Lower(query), k) {
      var k :| k in RetrievalKeywords && Contains(Lower(query), k);
      var i :| 0 <= i < |RetrievalKeywords| && RetrievalKeywords[i] == k;
    }
  }

  /** A query shorter than every keyword, such as "hi", is not retrieved for. */
  lemma ShortQueryNotRetrieved(query: string)
    requires |query| < 3
    ensures !ShouldRetrieve(query)
  {
    WordCountBound(query);
    ContainsAnySpec(Lower(query), RetrievalKeywords);
    forall i | 0 <= i < |RetrievalKeywords| ensures !Contains(Lower(query), RetrievalKeywords[i]) {
      ContainsOnlyShorter(Lower(query), RetrievalKeywords[i]);
    }
  }

  /** A greeting is answered without retrieval. */
  lemma GreetingNotRetrieved()
    ensures !ShouldRetrieve("hi")
  {
    ShortQueryNotRetrieved("hi");
  }

  /** A query whose lower-cased form contains one of the keywords is retrieved for. */
  lemma KeywordRetrieved(query: string, i: nat)
    requires i < |RetrievalKeywords| && Contains(Lower(query), RetrievalKeywords[i])
    ensures ShouldRetrieve(query)
  {
    ContainsAnySpec(Lower(query), RetrievalKeywords);
  }

  /** A keyword matched inside a longer word still counts. */
  lemma KeywordInsideWordRetrieved()
    ensures ShouldRetrieve("somewhat")
  {
    var q := "somewhat";
    assert Lower(q) == q by {
      LowerKeepsLowercase(q);
    }
    assert Contains(q, "what") by {
      ContainsAt(q, "what", 4);
    }
    KeywordRetrieved(q, 0);
  }

  lemma {:induction false} LowerIdempotent(s: string)
    ensures Lower(Lower(s)) == Lower(s)
  {
  }

  lemma {:induction false} LowerSlice(s: string, i: nat)
    requires i <= |s|
    ensures Lower(s)[i..] == Lower(s[i..])
  {
  }

  lemma {:induction false} WordLengthLower(s: string)
    ensures WordLength(Lower(s)) == WordLength(s)
    decreases |s|
  {
    if s != [] {
      LowerSlice(s, 1);
      WordLengthLower(s[1..]);
    }
  }

  /** Lower-casing keeps the whitespace, so it keeps the words' count. */
  lemma {:induction false} WordCountLower(s: string)
    ensures |Words(Lower(s))| == |Words(s)|
    decreases |s|
  {
    if s != [] {
      if IsSpace(s[0], Python) {
        LowerSlice(s, 1);
        WordCountLower(s[1..]);
      } else {
        var n := WordLength(s);
        WordLengthLower(s);
        LowerSlice(s, n);
        WordCountLower(s[n..]);
      }
    }
  }

  /** The decision ignores case: a query and its lower-cased form are treated alike. */
  lemma ShouldRetrieveIgnoresCase(query: string)
    ensures ShouldRetrieve(Lower(query)) == ShouldRetrieve(query)
  {
    LowerIdempotent(query);
    WordCountLower(query);
  }

  /** The context text when the search found nothing, or retrieval was not chosen. */
  const NoContext: string := "No relevant information found in the knowledge base."

  /** How many characters of each result's content the context shows. */
  const ContentPreview: nat := 500

  /** `f"{x:.3f}"`: the rendering of a float is left to the caller. */
  type ScoreFormat = real -> string

  function ContextHeader(className: string, subjectName: string): string {
    "Context from " + className + " - " + subjectName + ":"
  }

  /** The line for the `n`-th result (counting from 1): its number and the start of its content. */
  function ContentLine(n: nat, r: SearchResult): string {
    "\n" + NatToString(n) + ". Content: " + PySlice(r.content, 0, ContentPreview) + "..."
  }

  function ScoreLine(r: SearchResult, fmt: ScoreFormat): string {
    "   Hybrid Score: " + fmt(r.hybridScore)
  }

  /** `context_parts` after the loop has seen `results`: the header, then two lines per result. */
  function ContextParts(className: string, subjectName: string, results: seq<SearchResult>, fmt: ScoreFormat): seq<string> {
    if results == [] then [ContextHeader(className, subjectName)]
    else
      var last := results[|results| - 1];
      ContextParts(className, subjectName, results[..|results| - 1], fmt)
        + [ContentLine(|results|, last), ScoreLine(last, fmt)]
  }

  /** The context handed to the model. */
  function Context(className: string, subjectName: string, results: seq<SearchResult>, fmt: ScoreFormat): string {
    if results == [] then NoContext else Join(ContextParts(className, subjectName, results, fmt), "\n")
  }

  /**
   * The parts list holds the header and, for the `i`-th result, its number `i + 1`, at most
   * the first 500 characters of its content followed by "...", and its score line.
   */
  lemma {:induction false} ContextPartsSpec(className: string, subjectName: string, results: seq<SearchResult>,
                                            fmt: ScoreFormat)
    ensures var parts := ContextParts(className, subjectName, results, fmt);
      && |parts| == 1 + 2 * |results|
      && parts[0] == ContextHeader(className, subjectName)
      && forall i :: 0 <= i < |results| ==>
           parts[1 + 2 * i] == ContentLine(i + 1, results[i]) && parts[2 + 2 * i] == ScoreLine(results[i], fmt)
  {
    if results != [] {
      var init := results[..|results| - 1];
      ContextPartsSpec(className, subjectName, init, fmt);
      var parts := ContextParts(className, subjectName, results, fmt);
      forall i | 0 <= i < |results|
        ensures parts[1 + 2 * i] == ContentLine(i + 1, results[i]) && parts[2 + 2 * i] == ScoreLine(results[i], fmt)
      {
        if i < |init| {
          assert results[i] == init[i];
        }
      }
    }
  }

  /** The preview shown for a result is a prefix of its content of at most 500 characters, the whole content when it is shorter. */
  lemma ContentPreviewSpec(r: SearchResult)
    ensures var p := PySlice(r.content, 0, ContentPreview);
      && |p| <= ContentPreview && StartsWith(r.content, p)
      && (|r.content| <= ContentPreview ==> p == r.content)
  {
  }

  const SystemPrompt: string :=
    "You are an intelligent AI assistant with access to a knowledge base. \n"
    + "        Your task is to:\n"
    + "        1. Analyze the user's query\n"
    + "        2. Decide whether to retrieve information from the knowledge base\n"
    + "        3. If retrieval is needed, use the search tool to find relevant information\n"
    + "        4. Generate a comprehensive response using the retrieved context\n"
    + "        \n"
    + "        Always be helpful, accurate, and cite your sources when possible."

  const PromptClosing: string :=
    "Please provide a comprehensive response based on the context provided. "
    + "If the context doesn't contain relevant information, say so and provide general guidance."

  /** The prompt: the system prompt, then the context, then the user's query, then the closing request. */
  function Prompt(context: string, query: string): string {
    PromptAround("System: " + SystemPrompt + "\n\nContext: ", context, "\n\nUser Query: ", query, "\n\n" + PromptClosing)
  }

  function PromptAround(head: string, context: string, middle: string, query: string, tail: string): string {
    head + context + middle + query + tail
  }

  lemma PromptAroundCarries(head: string, context: string, middle: string, query: string, tail: string)
    ensures Contains(PromptAround(head, context, middle, query, tail), context)
    ensures Contains(PromptAround(head, context, middle, query, tail), query)
  {
    var p := PromptAround(head, context, middle, query, tail);
    assert p == head + context + (middle + query + tail);
    ContainsInfix(head, context, middle + query + tail);
    ContainsInfix(head + context + middle, query, tail);
  }

  /** The prompt carries the context and the query verbatim. */
  lemma PromptCarries(context: string, query: string)
    ensures Contains(Prompt(context, query), context)
    ensures Contains(Prompt(context, query), query)
  {
    PromptAroundCarries("System: " + SystemPrompt + "\n\nContext: ", context, "\n\nUser Query: ", query, "\n\n" + PromptClosing);
  }

  /** The language model: the prompt, the temperature and the token limit give a text, or an error message when it raises. */
  type Model = (string, real, int) -> Result<string>

  const GenerationApology: string :=
    "I apologize, but I encountered an error while generating a response. Please try again. Error: "

  /** The answer `generate_response_with_context` returns. */
  function ResponseText(model: Model, fmt: ScoreFormat, query: string, results: seq<SearchResult>,
                        className: string, subjectName: string, maxTokens: int, temperature: real): string
  {
    match model(Prompt(Context(className, subjectName, results, fmt), query), temperature, maxTokens)
    case Ok(text) => text
    case Err(e) => GenerationApology + e
  }

  /** The response `process_chat_request` gives when a step raises. */
  function ErrorResponse(e: string): (r: ChatResponse)
    ensures r.retrievedChunks == [] && r.metadata.Keys == {"error"} && r.metadata["error"] == Str(e)
    ensures StartsWith(r.response, "I apologize, but I encountered an error.")
  {
    ChatResponse("I apologize, but I encountered an error. Please try again. Error: " + e, [], map["error" := Str(e)])
  }

  /** The filters `search_knowledge_base` hands to the store: no user filter. */
  function KnowledgeBaseFilters(className: string, subjectName: string, allowedFileIds: Option<seq<string>>): Filters {
    Filters(Some(className), Some(subjectName), allowedFileIds, None)
  }

  /** How many chunks a chat request retrieves. */
  const ChatTopK: int := 5

  /** The metadata of a successful chat response. */
  function ChatMetadata(request: ChatRequest, retrieved: bool, count: nat): (m: map<string, Value>)
    ensures m.Keys == {"retrieval_used", "chunks_retrieved", "class_name", "subject_name", "allowed_files",
                       "temperature", "max_tokens"}
    ensures m["retrieval_used"] == Bool(retrieved) && m["chunks_retrieved"] == Int(count)
    ensures m["class_name"] == Str(request.className) && m["subject_name"] == Str(request.subjectName)
    ensures m["allowed_files"] == OptionalStringsToValue(request.allowedFileIds)
    ensures m["temperature"] == Real(request.temperature) && m["max_tokens"] == Int(request.maxTokens)
  {
    map[
      "retrieval_used" := Bool(retrieved),
      "chunks_retrieved" := Int(count),
      "class_name" := Str(request.className),
      "subject_name" := Str(request.subjectName),
      "allowed_files" := OptionalStringsToValue(request.allowedFileIds),
      "temperature" := Real(request.temperature),
      "max_tokens" := Int(request.maxTokens)
    ]
  }

  /** A successful chat response is never taken for the error response: only the latter lacks `retrieval_used`. */
  lemma ChatMetadataNotError(request: ChatRequest, retrieved: bool, count: nat, e: string)
    ensures ChatMetadata(request, retrieved, count) != ErrorResponse(e).metadata
  {
    assert "retrieval_used" in ChatMetadata(request, retrieved, count);
  }

  const UploadMessage: string := "PDF processed and stored successfully"

  /** What `process_pdf_upload` returns. */
  function UploadResult(fileId: string, documentId: string, title: string, className: string, subjectName: string,
                        totalChunks: nat, chunkIds: seq<string>): (d: map<string, Value>)
    ensures d.Keys == {"file_id", "document_id", "title", "class_name", "subject_name", "total_chunks", "chunk_ids", "message"}
  {
    map[
      "file_id" := Str(fileId),
      "document_id" := Str(documentId),
      "title" := Str(title),
      "class_name" := Str(className),
      "subject_name" := Str(subjectName),
      "total_chunks" := Int(totalChunks),
      "chunk_ids" := StringsToValue(chunkIds),
      "message" := Str(UploadMessage)
    ]
  }

  /** The first `n` fresh chunk ids, in order. */
  function FreshIds(src: Fresh, n: nat): (ids: seq<string>)
    ensures |ids| == n && forall i :: 0 <= i < n ==> ids[i] == src.chunkId(i)
  {
    seq(n, i requires 0 <= i < n => src.chunkId(i))
  }

  /** The ids of a processed file's chunks are the fresh chunk ids, in chunk order. */
  lemma ProcessedIds(p: ProcessedFile, src: Fresh)
    requires p.totalChunks == |p.chunks|
    requires forall i :: 0 <= i < |p.chunks| ==> p.chunks[i].id == src.chunkId(i)
    ensures ChunkIds(p.chunks) == FreshIds(src, p.totalChunks)
  {
  }

  /** Each chunk's dictionary reads back as the chunk. */
  lemma DictsReadBack(cs: seq<DocumentChunk>)
    ensures forall i :: 0 <= i < |cs| ==> ChunkFromDict(ChunkToDict(cs[i])) == Some(cs[i])
  {
    forall i | 0 <= i < |cs| ensures ChunkFromDict(ChunkToDict(cs[i])) == Some(cs[i]) {
      ChunkRoundTrip(cs[i]);
    }
  }

  class AgenticWorkflow {
    const vectorStore: HybridVectorStore
    /** The generative model. */
    const model: Model
    /** The `:.3f` rendering of a score. */
    const formatScore: ScoreFormat

    constructor(vectorStore: HybridVectorStore, model: Model, formatScore: ScoreFormat)
      ensures this.vectorStore == vectorStore && this.model == model && this.formatScore == formatScore
    {
      this.vectorStore := vectorStore;
      this.model := model;
      this.formatScore := formatScore;
    }

    /**
     * `search_knowledge_base`: the store's hybrid search with the request's tags and default
     * weights. Every result carries the requested class and subject (when given) and an
     * allowed file; at most `top_k` are returned, best first.
     */
    method SearchKnowledgeBase(query: string, className: string, subjectName: string,
                               allowedFileIds: Option<seq<string>>, topK: int)
      returns (results: seq<SearchResult>)
      requires vectorStore.Valid()
      modifies vectorStore
      ensures vectorStore.Valid()
      ensures vectorStore.State() == AfterSearch(vectorStore.env, old(vectorStore.State()))
      ensures results == SearchOutcome(vectorStore.env, old(vectorStore.State()),
                                       KnowledgeBaseFilters(className, subjectName, allowedFileIds), query, topK,
                                       DefaultDenseWeight, DefaultSparseWeight)
      ensures vectorStore.budget == Spent(old(vectorStore.budget), SearchCalls(old(vectorStore.bm25Index)))
      ensures vectorStore.chunks == old(vectorStore.chunks) && vectorStore.embeddings == old(vectorStore.embeddings)
      ensures !Allows(old(vectorStore.budget), SearchCalls(old(vectorStore.bm25Index))) ==> results == []
      ensures Allows(old(vectorStore.budget), SearchCalls(old(vectorStore.bm25Index))) ==>
        results == SearchResults(vectorStore.env, vectorStore.embeddings,
                                 KnowledgeBaseFilters(className, subjectName, allowedFileIds),
                                 vectorStore.bm25Index, vectorStore.bm25DocumentIds, query, topK,
                                 DefaultDenseWeight, DefaultSparseWeight)
      ensures SortedDesc(results, HybridKey)
      ensures topK >= 0 ==> |results| <= topK
      ensures forall r :: r in results ==>
        && (className != "" ==> r.className == className)
        && (subjectName != "" ==> r.subjectName == subjectName)
        && (GivenIds(allowedFileIds) ==> r.fileId in allowedFileIds.value)
    {
      var filters := KnowledgeBaseFilters(className, subjectName, allowedFileIds);
      results := vectorStore.HybridSearch(query, filters, topK, DefaultDenseWeight, DefaultSparseWeight);
      if Allows(old(vectorStore.budget), SearchCalls(old(vectorStore.bm25Index))) {
        var env, docs, index, ids := vectorStore.env, vectorStore.embeddings, vectorStore.bm25Index, vectorStore.bm25DocumentIds;
        SearchResultsSpec(env, docs, filters, index, ids, query, topK, DefaultDenseWeight, DefaultSparseWeight);
        forall r | r in results
          ensures && (className != "" ==> r.className == className)
                  && (subjectName != "" ==> r.subjectName == subjectName)
                  && (GivenIds(allowedFileIds) ==> r.fileId in allowedFileIds.value)
        {
          SearchResultsFiltered(env, docs, filters, index, ids, query, topK, DefaultDenseWeight, DefaultSparseWeight, r);
        }
      }
    }

    /** `generate_response_with_context`: build the context in a loop, then ask the model. */
    method GenerateResponseWithContext(query: string, searchResults: seq<SearchResult>, className: string,
                                       subjectName: string, maxTokens: int, temperature: real)
      returns (text: string)
      ensures text == ResponseText(model, formatScore, query, searchResults, className, subjectName, maxTokens, temperature)
    {
      var context := NoContext;
      if searchResults != [] {
        var contextParts := [ContextHeader(className, subjectName)];
        for i := 0 to |searchResults|
          invariant contextParts == ContextParts(className, subjectName, searchResults[..i], formatScore)
        {
          assert searchResults[..i + 1][..i] == searchResults[..i];
          contextParts := contextParts + [ContentLine(i + 1, searchResults[i]), ScoreLine(searchResults[i], formatScore)];
        }
        assert searchResults[..|searchResults|] == searchResults;
        context := Join(contextParts, "\n");
      }
      var prompt := Prompt(context, query);
      var answer := model(prompt, temperature, maxTokens);
      if answer.Ok? {
        text := answer.value;
      } else {
        text := GenerationApology + answer.error;
      }
    }

    /**
     * `process_chat_request`: retrieve (top 5) only when the message calls for it, generate
     * from what was retrieved, and report the decision and the number of chunks in the metadata.
     */
    method ProcessChatRequest(request: ChatRequest) returns (response: ChatResponse)
      requires vectorStore.Valid()
      modifies vectorStore
      ensures vectorStore.Valid()
      ensures vectorStore.chunks == old(vectorStore.chunks) && vectorStore.embeddings == old(vectorStore.embeddings)
      ensures response.metadata == ChatMetadata(request, ShouldRetrieve(request.message), |response.retrievedChunks|)
      ensures response.response == ResponseText(model, formatScore, request.message, response.retrievedChunks,
                                                request.className, request.subjectName, request.maxTokens,
                                                request.temperature)
      ensures !ShouldRetrieve(request.message) ==> response.retrievedChunks == [] && unchanged(vectorStore)
      ensures |response.retrievedChunks| <= ChatTopK
      ensures ShouldRetrieve(request.message) ==>
        && vectorStore.State() == AfterSearch(vectorStore.env, old(vectorStore.State()))
        && response.retrievedChunks
           == SearchOutcome(vectorStore.env, old(vectorStore.State()),
                            KnowledgeBaseFilters(request.className, request.subjectName, request.allowedFileIds),
                            request.message, ChatTopK, DefaultDenseWeight, DefaultSparseWeight)
      ensures ShouldRetrieve(request.message) ==>
        vectorStore.budget == Spent(old(vectorStore.budget), SearchCalls(old(vectorStore.bm25Index)))
      ensures ShouldRetrieve(request.message) && Allows(old(vectorStore.budget), SearchCalls(old(vectorStore.bm25Index))) ==>
        response.retrievedChunks ==
          SearchResults(vectorStore.env, vectorStore.embeddings,
                        KnowledgeBaseFilters(request.className, request.subjectName, request.allowedFileIds),
                        vectorStore.bm25Index, vectorStore.bm25DocumentIds, request.message, ChatTopK,
                        DefaultDenseWeight, DefaultSparseWeight)
      ensures !Allows(old(vectorStore.budget), SearchCalls(old(vectorStore.bm25Index))) ==> response.retrievedChunks == []
    {
      var shouldRetrieve := ShouldRetrieve(request.message);
      var retrievedChunks: seq<SearchResult> := [];
      var responseText := "";
      if shouldRetrieve {
        retrievedChunks := SearchKnowledgeBase(request.message, request.className, request.subjectName,
                                               request.allowedFileIds, ChatTopK);
        responseText := GenerateResponseWithContext(request.message, retrievedChunks, request.className,
                                                    request.subjectName, request.maxTokens, request.temperature);
      } else {
        responseText := GenerateResponseWithContext(request.message, [], request.className,
                                                    request.subjectName, request.maxTokens, request.temperature);
      }
      response := ChatResponse(responseText, retrievedChunks,
                               ChatMetadata(request, shouldRetrieve, |retrievedChunks|));
    }

    /**
     * `process_pdf_upload`: chunk the extracted text, store the chunks, and report the file's
     * identity, the processor's chunk count and the stored chunk ids in order. A failed
     * extraction or store write propagates.
     */
    method ProcessPdfUpload(extracted: Result<string>, title: string, className: string, subjectName: string,
                            userId: string, src: Fresh)
      returns (r: Result<map<string, Value>>)
      requires vectorStore.Valid()
      modifies vectorStore
      ensures vectorStore.Valid()
      ensures extracted.Err? ==> r.Err? && unchanged(vectorStore)
      ensures extracted.Ok? ==>
        vectorStore.State() == AfterStoreChunks(vectorStore.env, old(vectorStore.State()),
                                                NumberedChunks(extracted.value, title, className, subjectName, userId, src))
      ensures extracted.Ok? ==>
        var n := |Chunks(extracted.value, ChunkSize, Overlap)|;
        && (r.Ok? <==> Allows(old(vectorStore.budget), 2 * n))
        && (r.Ok? ==>
             r.value == UploadResult(src.fileId, src.documentId, title, className, subjectName, n, FreshIds(src, n)))
    {
      if extracted.Err? {
        return Err(extracted.error);
      }
      var processingResult := ProcessPdfFile(extracted.value, title, className, subjectName, userId, src);
      var chunkIds := vectorStore.StoreChunks(processingResult.chunks);
      if chunkIds.Err? {
        return Err(chunkIds.error);
      }
      ProcessedIds(processingResult, src);
      var p := processingResult;
      r := Ok(UploadResult(p.fileId, p.documentId, p.title, p.className, p.subjectName, p.totalChunks, chunkIds.value));
    }

    /**
     * `get_file_chunks`: the file's chunks as dictionaries, in stored order; each dictionary
     * reads back as the stored chunk.
     */
    method GetFileChunks(fileId: string) returns (dicts: seq<map<string, Value>>)
      modifies vectorStore
      ensures vectorStore.State() == AfterRead(old(vectorStore.State()))
      ensures vectorStore.budget == Spent(old(vectorStore.budget), 1)
      ensures vectorStore.chunks == old(vectorStore.chunks) && vectorStore.embeddings == old(vectorStore.embeddings)
      ensures !Allows(old(vectorStore.budget), 1) ==> dicts == []
      ensures Allows(old(vectorStore.budget), 1) ==>
        var cs := ChunksOfFile(vectorStore.chunks, fileId);
        && |dicts| == |cs|
        && forall i :: 0 <= i < |cs| ==> dicts[i] == ChunkToDict(cs[i]) && ChunkFromDict(dicts[i]) == Some(cs[i])
    {
      var chunks := vectorStore.GetChunksByFileId(fileId);
      dicts := seq(|chunks|, i requires 0 <= i < |chunks| => ChunkToDict(chunks[i]));
      DictsReadBack(chunks);
    }

    /**
     * `delete_file`: `true` exactly when every call of the store's delete was answered, and then
     * the file has no chunk left to list and no embedding record. Whatever the outcome, no
     * document of another file is lost.
     */
    method DeleteFile(fileId: string) returns (ok: bool)
      requires vectorStore.Valid()
      modifies vectorStore
      ensures vectorStore.Valid()
      ensures vectorStore.State() == AfterDelete(old(vectorStore.State()), fileId)
      ensures ok == Allows(old(vectorStore.budget), DeleteCalls(old(vectorStore.chunks), old(vectorStore.embeddings), fileId))
      ensures ok ==> ChunksOfFile(vectorStore.chunks, fileId) == []
      ensures ok ==> forall d :: d in vectorStore.embeddings ==> d.data.fileId != fileId
      ensures Where(vectorStore.chunks, (c: DocumentChunk) => !InFile(c, fileId))
           == Where(old(vectorStore.chunks), (c: DocumentChunk) => !InFile(c, fileId))
      ensures Where(vectorStore.embeddings, (e: EmbeddingDoc) => e.fileId != fileId)
           == Where(old(vectorStore.embeddings), (e: EmbeddingDoc) => e.fileId != fileId)
    {
      ok := vectorStore.DeleteChunksByFileId(fileId);
      DeleteKeepsOtherFiles(old(vectorStore.chunks), old(vectorStore.embeddings), fileId, old(vectorStore.budget));
      if ok {
        DeleteAnswered(old(vectorStore.chunks), old(vectorStore.embeddings), fileId, old(vectorStore.budget));
        DeletedChunksGone(old(vectorStore.chunks), fileId);
        WhereSpec(old(vectorStore.embeddings), (e: EmbeddingDoc) => e.fileId != fileId);
      }
    }
  }
}
