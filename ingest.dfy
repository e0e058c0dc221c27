/**
 * `PDFIngestionPipeline` (backend/rag/ingest_pdfs.py): read class and subject from a PDF's
 * path, process and store each file, keep running counters, and group the successes by
 * class and subject for the summary.
 */
module Ingest {
  import opened Wrappers
  import opened Text
  import opened Models
  import opened Retrieval
  import opened VectorStore
  import opened DocumentProcessor

  // ---------------------------------------------------------------- paths

  /** The non-empty components of a path other than ".", in order. */
  function Components(pieces: seq<string>): (cs: seq<string>)
    ensures forall i :: 0 <= i < |cs| ==> cs[i] != "" && cs[i] != "." && cs[i] in pieces
  {
    if pieces == [] then []
    else (if pieces[0] == "" || pieces[0] == "." then [] else [pieces[0]]) + Components(pieces[1..])
  }

  /** `Path(p).parts` for a POSIX path: the root "/" when the path is absolute, then its components. */
  function PathParts(path: string): seq<string> {
    (if path != [] && path[0] == '/' then ["/"] else []) + Components(SplitOn(path, '/'))
  }

  /** `Path(p).name`: the last component, "" when there is none. */
  function FileName(path: string): string {
    var cs := Components(SplitOn(path, '/'));
    if cs == [] then "" else cs[|cs| - 1]
  }

  /** Index of the last `c` in `s` (Python's `rfind`, with None for -1). */
  function LastIndexOf(s: string, c: char): (r: Option<nat>)
    ensures r.Some? ==> r.value < |s| && s[r.value] == c && c !in s[r.value + 1..]
    ensures r.None? ==> c !in s
  {
    if s == [] then None
    else if s[|s| - 1] == c then Some(|s| - 1)
    else
      var r := LastIndexOf(s[..|s| - 1], c);
      assert s == s[..|s| - 1] + [s[|s| - 1]];
      r
  }

  /** Where `Path.stem` cuts the name: a last dot that is neither the first nor the last character. */
  function SuffixStart(name: string): Option<nat> {
    match LastIndexOf(name, '.')
    case Some(i) => if 0 < i < |name| - 1 then Some(i) else None
    case None => None
  }

  /** `Path(p).stem`: the file name without its last suffix. */
  function Stem(path: string): string {
    var name := FileName(path);
    match SuffixStart(name)
    case Some(i) => name[..i]
    case None => name
  }

  /** `Path(p).suffix`. */
  function Suffix(path: string): string {
    var name := FileName(path);
    match SuffixStart(name)
    case Some(i) => name[i..]
    case None => ""
  }

  /**
   * The title is the file name with its suffix taken off: the name is the stem followed by
   * the suffix, and the suffix is empty or a dot, at least one more character and no other dot.
   */
  lemma StemSpec(path: string)
    ensures FileName(path) == Stem(path) + Suffix(path)
    ensures Suffix(path) == "" || (|Suffix(path)| >= 2 && Suffix(path)[0] == '.' && '.' !in Suffix(path)[1..])
    ensures Suffix(path) != "" ==> Stem(path) != ""
    ensures '.' !in FileName(path) ==> Stem(path) == FileName(path)
  {
    var name := FileName(path);
    match SuffixStart(name)
    case Some(i) =>
      assert name == name[..i] + name[i..];
      assert name[i..][1..] == name[i + 1..];
    case None =>
  }

  // ---------------------------------------------------------------- class and subject

  const Unknown: string := "Unknown"
  const ClassKeywords: seq<string> := ["grade", "class", "year"]
  const SubjectKeywords: seq<string> :=
    ["math", "science", "physics", "chemistry", "biology", "english", "history", "geography"]

  /** The first part whose lower-cased form contains a keyword. */
  function FirstWith(parts: seq<string>, keywords: seq<string>): Option<string> {
    if parts == [] then None
    else if ContainsAny(Lower(parts[0]), keywords) then Some(parts[0])
    else FirstWith(parts[1..], keywords)
  }

  /** `FirstWith` finds a matching part with no matching part before it, or reports that none matches. */
  lemma {:induction false} FirstWithSpec(parts: seq<string>, keywords: seq<string>)
    ensures var r := FirstWith(parts, keywords);
      && (r.Some? ==> exists i :: 0 <= i < |parts| && parts[i] == r.value && ContainsAny(Lower(parts[i]), keywords)
                                   && forall j :: 0 <= j < i ==> !ContainsAny(Lower(parts[j]), keywords))
      && (r.None? ==> forall j :: 0 <= j < |parts| ==> !ContainsAny(Lower(parts[j]), keywords))
  {
    if parts != [] && !ContainsAny(Lower(parts[0]), keywords) {
      FirstWithSpec(parts[1..], keywords);
      var r := FirstWith(parts, keywords);
      if r.Some? {
        var i :| 0 <= i < |parts[1..]| && parts[1..][i] == r.value && ContainsAny(Lower(parts[1..][i]), keywords)
                 && forall j :: 0 <= j < i ==> !ContainsAny(Lower(parts[1..][j]), keywords);
        assert forall j :: 0 <= j < i + 1 ==> !ContainsAny(Lower(parts[j]), keywords) by {
          forall j | 0 <= j < i + 1 ensures !ContainsAny(Lower(parts[j]), keywords) {
            if j > 0 {
              assert parts[j] == parts[1..][j - 1];
            }
          }
        }
      } else {
        forall j | 0 <= j < |parts| ensures !ContainsAny(Lower(parts[j]), keywords) {
          if j > 0 {
            assert parts[j] == parts[1..][j - 1];
          }
        }
      }
    }
  }

  datatype PathMetadata = PathMetadata(className: string, subjectName: string)

  /** What `extract_metadata_from_path` finds: nothing unless the path has at least three parts. */
  function MetadataOf(path: string): PathMetadata {
    var parts := PathParts(path);
    if |parts| < 3 then PathMetadata(Unknown, Unknown)
    else
      PathMetadata(
        match FirstWith(parts, ClassKeywords) case Some(p) => p case None => Unknown,
        match FirstWith(parts, SubjectKeywords) case Some(p) => p case None => Unknown)
  }

  /** `extract_metadata_from_path` as a dictionary. */
  function MetadataToDict(m: PathMetadata): (d: map<string, Value>)
    ensures d.Keys == {"class_name", "subject_name"}
  {
    map["class_name" := Str(m.className), "subject_name" := Str(m.subjectName)]
  }

  /**
   * A short path has no class or subject; otherwise each is "Unknown" or the first path part
   * whose lower-cased form holds one of its keywords.
   */
  lemma MetadataSpec(path: string)
    ensures var m := MetadataOf(path);
      var parts := PathParts(path);
      && (|parts| < 3 ==> m == PathMetadata(Unknown, Unknown))
      && (m.className == Unknown || (m.className in parts && ContainsAny(Lower(m.className), ClassKeywords)))
      && (m.subjectName == Unknown || (m.subjectName in parts && ContainsAny(Lower(m.subjectName), SubjectKeywords)))
      && (|parts| >= 3 && (exists i :: 0 <= i < |parts| && ContainsAny(Lower(parts[i]), ClassKeywords)) ==>
           exists i :: 0 <= i < |parts| && parts[i] == m.className && ContainsAny(Lower(parts[i]), ClassKeywords)
                       && forall j :: 0 <= j < i ==> !ContainsAny(Lower(parts[j]), ClassKeywords))
      && (|parts| >= 3 && (exists i :: 0 <= i < |parts| && ContainsAny(Lower(parts[i]), SubjectKeywords)) ==>
           exists i :: 0 <= i < |parts| && parts[i] == m.subjectName && ContainsAny(Lower(parts[i]), SubjectKeywords)
                       && forall j :: 0 <= j < i ==> !ContainsAny(Lower(parts[j]), SubjectKeywords))
  {
    FirstWithSpec(PathParts(path), ClassKeywords);
    FirstWithSpec(PathParts(path), SubjectKeywords);
  }

  /** The loop of `extract_metadata_from_path`: scan the parts in order and stop at the first match. */
  method FirstMatchingPart(parts: seq<string>, keywords: seq<string>) returns (found: Option<string>)
    ensures found == FirstWith(parts, keywords)
  {
    found := None;
    var i := 0;
    while i < |parts|
      invariant 0 <= i <= |parts|
      invariant FirstWith(parts, keywords) == FirstWith(parts[i..], keywords)
      decreases |parts| - i
    {
      assert parts[i..][1..] == parts[i + 1..];
      if ContainsAny(Lower(parts[i]), keywords) {
        found := Some(parts[i]);
        return;
      }
      i := i + 1;
    }
  }

  method ExtractMetadataFromPath(filePath: string) returns (m: PathMetadata)
    ensures m == MetadataOf(filePath)
  {
    var pathParts := PathParts(filePath);
    var className := Unknown;
    var subjectName := Unknown;
    if |pathParts| >= 3 {
      var c := FirstMatchingPart(pathParts, ClassKeywords);
      if c.Some? {
        className := c.value;
      }
      var s := FirstMatchingPart(pathParts, SubjectKeywords);
      if s.Some? {
        subjectName := s.value;
      }
    }
    m := PathMetadata(className, subjectName);
  }

  // ---------------------------------------------------------------- per-file results

  /** A file to ingest: its path, its extracted text (or why reading or extraction raised), and the identifiers it will get. */
  datatype PdfInput = PdfInput(path: string, content: Result<string>, src: Fresh)

  /** The result dictionary of `process_single_pdf`, success or failure. */
  datatype PdfResult =
    | Success(filePath: string, fileId: string, title: string, className: string, subjectName: string,
              chunksCount: nat, totalTextLength: nat)
    | Failure(filePath: string, error: string)

  function ResultToDict(r: PdfResult): (d: map<string, Value>)
    ensures "success" in d && d["success"] == Bool(r.Success?)
    ensures "file_path" in d && d["file_path"] == Str(r.filePath)
    ensures r.Success? ==> d.Keys == {"success", "file_path", "file_id", "title", "class_name", "subject_name",
                                      "chunks_count", "total_text_length"}
    ensures r.Failure? ==> d.Keys == {"success", "file_path", "error"}
  {
    match r
    case Success(filePath, fileId, title, className, subjectName, chunksCount, totalTextLength) =>
      map["success" := Bool(true), "file_path" := Str(filePath), "file_id" := Str(fileId), "title" := Str(title),
          "class_name" := Str(className), "subject_name" := Str(subjectName), "chunks_count" := Int(chunksCount),
          "total_text_length" := Int(totalTextLength)]
    case Failure(filePath, error) =>
      map["success" := Bool(false), "file_path" := Str(filePath), "error" := Str(error)]
  }

  /** The number of successful results. */
  function Successes(rs: seq<PdfResult>): (n: nat)
    ensures n <= |rs|
  {
    if rs == [] then 0 else Successes(rs[..|rs| - 1]) + (if rs[|rs| - 1].Success? then 1 else 0)
  }

  /** The chunks stored by the successful results. */
  function ChunkTotal(rs: seq<PdfResult>): nat {
    if rs == [] then 0
    else ChunkTotal(rs[..|rs| - 1]) + (if rs[|rs| - 1].Success? then rs[|rs| - 1].chunksCount else 0)
  }

  lemma CountsStep(rs: seq<PdfResult>, r: PdfResult)
    ensures Successes(rs + [r]) == Successes(rs) + (if r.Success? then 1 else 0)
    ensures ChunkTotal(rs + [r]) == ChunkTotal(rs) + (if r.Success? then r.chunksCount else 0)
  {
    assert (rs + [r])[..|rs|] == rs;
  }

  /** The failed results, in order. */
  function Failures(rs: seq<PdfResult>): seq<PdfResult> {
    if rs == [] then []
    else Failures(rs[..|rs| - 1]) + (if rs[|rs| - 1].Failure? then [rs[|rs| - 1]] else [])
  }

  /** The failures are the results that are not successes, and exactly those. */
  lemma {:induction false} FailuresSpec(rs: seq<PdfResult>)
    ensures |Failures(rs)| == |rs| - Successes(rs)
    ensures forall r :: r in Failures(rs) <==> r in rs && r.Failure?
  {
    if rs != [] {
      var init := rs[..|rs| - 1];
      FailuresSpec(init);
      assert rs == init + [rs[|rs| - 1]];
    }
  }

  // ---------------------------------------------------------------- what ingestion does to the store

  /** The chunks `process_single_pdf` hands to the store for a readable file: titled by the stem, labelled from the path. */
  function ChunksOf(input: PdfInput, userId: string): seq<DocumentChunk>
    requires input.content.Ok?
  {
    var m := MetadataOf(input.path);
    NumberedChunks(input.content.value, Stem(input.path), m.className, m.subjectName, userId, input.src)
  }

  /** The store after `process_single_pdf`: an unreadable file leaves it as it was, a readable one stores its chunks. */
  function AfterIngest(env: Services, s: StoreState, input: PdfInput, userId: string): StoreState {
    if input.content.Err? then s else AfterStoreChunks(env, s, ChunksOf(input, userId))
  }

  /** The store after the files have been processed in order. */
  function AfterIngestAll(env: Services, s: StoreState, inputs: seq<PdfInput>, userId: string): StoreState {
    if inputs == [] then s
    else AfterIngest(env, AfterIngestAll(env, s, inputs[..|inputs| - 1], userId), inputs[|inputs| - 1], userId)
  }

  /**
   * The result `process_single_pdf` gives for `input` when the store starts in `s`: an
   * unreadable file fails with its error; a readable one succeeds exactly when every write of
   * its chunks is answered, and then reports its stem as title, its class and subject from the
   * path, its number of chunks and its text length.
   */
  predicate ResultFor(s: StoreState, input: PdfInput, r: PdfResult) {
    && r.filePath == input.path
    && (input.content.Err? ==> r == Failure(input.path, input.content.error))
    && (input.content.Ok? ==>
         var text := input.content.value;
         var n := |Chunks(text, ChunkSize, Overlap)|;
         var m := MetadataOf(input.path);
         && (r.Success? <==> Allows(s.budget, 2 * n))
         && (r.Success? ==> r == Success(input.path, input.src.fileId, Stem(input.path), m.className, m.subjectName, n, |text|)))
  }

  /** The store calls a run makes: two per chunk of every readable file. */
  function IngestCalls(inputs: seq<PdfInput>): nat {
    if inputs == [] then 0
    else
      var input := inputs[|inputs| - 1];
      IngestCalls(inputs[..|inputs| - 1]) + (if input.content.Ok? then 2 * |Chunks(input.content.value, ChunkSize, Overlap)| else 0)
  }

  /** A run spends two store calls per chunk of each readable file and none for unreadable ones. */
  lemma {:induction false} AfterIngestAllBudget(env: Services, s: StoreState, inputs: seq<PdfInput>, userId: string)
    ensures AfterIngestAll(env, s, inputs, userId).budget == Spent(s.budget, IngestCalls(inputs))
  {
    if inputs != [] {
      var init := inputs[..|inputs| - 1];
      AfterIngestAllBudget(env, s, init, userId);
      var input := inputs[|inputs| - 1];
      if input.content.Ok? {
        SpentAdd(s.budget, IngestCalls(init), 2 * |ChunksOf(input, userId)|);
      } else {
        SpentAdd(s.budget, IngestCalls(init), 0);
      }
    }
  }

  /** One more file processed: the run's store and its results extend by that file's. */
  lemma IngestStep(env: Services, s0: StoreState, inputs: seq<PdfInput>, userId: string, results: seq<PdfResult>,
                   r: PdfResult)
    requires |results| < |inputs|
    requires forall j :: 0 <= j < |results| ==>
      ResultFor(AfterIngestAll(env, s0, inputs[..j], userId), inputs[j], results[j])
    requires ResultFor(AfterIngestAll(env, s0, inputs[..|results|], userId), inputs[|results|], r)
    ensures forall j :: 0 <= j < |results| + 1 ==>
      ResultFor(AfterIngestAll(env, s0, inputs[..j], userId), inputs[j], (results + [r])[j])
    ensures AfterIngestAll(env, s0, inputs[..|results| + 1], userId)
      == AfterIngest(env, AfterIngestAll(env, s0, inputs[..|results|], userId), inputs[|results|], userId)
  {
    assert inputs[..|results| + 1][..|results|] == inputs[..|results|];
  }

  // ---------------------------------------------------------------- summary grouping

  datatype GroupCount = GroupCount(files: nat, chunks: nat)

  /** The summary key of a successful result. */
  function GroupKey(r: PdfResult): string
    requires r.Success?
  {
    r.className + " - " + r.subjectName
  }

  /** `class_subject_stats` after the loop of `print_summary` has seen `rs`. */
  function Grouped(rs: seq<PdfResult>): map<string, GroupCount> {
    if rs == [] then map[]
    else
      var m := Grouped(rs[..|rs| - 1]);
      var r := rs[|rs| - 1];
      if r.Success? then
        var g := if GroupKey(r) in m then m[GroupKey(r)] else GroupCount(0, 0);
        m[GroupKey(r) := GroupCount(g.files + 1, g.chunks + r.chunksCount)]
      else m
  }

  /** The successes with key `k`. */
  function FilesWithKey(rs: seq<PdfResult>, k: string): nat {
    if rs == [] then 0
    else
      var r := rs[|rs| - 1];
      FilesWithKey(rs[..|rs| - 1], k) + (if r.Success? && GroupKey(r) == k then 1 else 0)
  }

  /** The chunks of the successes with key `k`. */
  function ChunksWithKey(rs: seq<PdfResult>, k: string): nat {
    if rs == [] then 0
    else
      var r := rs[|rs| - 1];
      ChunksWithKey(rs[..|rs| - 1], k) + (if r.Success? && GroupKey(r) == k then r.chunksCount else 0)
  }

  /**
   * The summary has a group for exactly the keys of the successes; each group counts the
   * successes with its key and sums their chunks.
   */
  lemma {:induction false} GroupedSpec(rs: seq<PdfResult>, k: string)
    ensures k in Grouped(rs) <==> FilesWithKey(rs, k) > 0
    ensures k in Grouped(rs) ==> Grouped(rs)[k] == GroupCount(FilesWithKey(rs, k), ChunksWithKey(rs, k))
    ensures k !in Grouped(rs) ==> ChunksWithKey(rs, k) == 0
  {
    if rs != [] {
      GroupedSpec(rs[..|rs| - 1], k);
    }
  }

  /** Failures never appear in the summary's counts. */
  lemma {:induction false} GroupedIgnoresFailures(rs: seq<PdfResult>, path: string, error: string)
    ensures Grouped(rs + [Failure(path, error)]) == Grouped(rs)
  {
    assert (rs + [Failure(path, error)])[..|rs|] == rs;
  }

  /** The grouping loop of `print_summary`, and the failed results it lists. */
  method PrintSummary(results: seq<PdfResult>) returns (classSubjectStats: map<string, GroupCount>, failedFiles: seq<PdfResult>)
    ensures classSubjectStats == Grouped(results)
    ensures failedFiles == Failures(results)
  {
    classSubjectStats := map[];
    for i := 0 to |results|
      invariant classSubjectStats == Grouped(results[..i])
    {
      assert results[..i + 1][..i] == results[..i];
      var result := results[i];
      if result.Success? {
        var key := result.className + " - " + result.subjectName;
        if key !in classSubjectStats {
          classSubjectStats := classSubjectStats[key := GroupCount(0, 0)];
        }
        var g := classSubjectStats[key];
        classSubjectStats := classSubjectStats[key := GroupCount(g.files + 1, g.chunks + result.chunksCount)];
      }
    }
    assert results[..|results|] == results;
    failedFiles := Failures(results);
  }

  // ---------------------------------------------------------------- the pipeline

  class PDFIngestionPipeline {
    const vectorStore: HybridVectorStore
    var totalFiles: nat
    var processedFiles: nat
    var failedFiles: nat
    var totalChunks: nat

    constructor(vectorStore: HybridVectorStore)
      ensures this.vectorStore == vectorStore
      ensures totalFiles == 0 && processedFiles == 0 && failedFiles == 0 && totalChunks == 0
    {
      this.vectorStore := vectorStore;
      totalFiles := 0;
      processedFiles := 0;
      failedFiles := 0;
      totalChunks := 0;
    }

    /** The counters of `self.stats`. */
    function Stats(): (d: map<string, Value>)
      reads this
      ensures d.Keys == {"total_files", "processed_files", "failed_files", "total_chunks"}
    {
      map["total_files" := Int(totalFiles), "processed_files" := Int(processedFiles),
          "failed_files" := Int(failedFiles), "total_chunks" := Int(totalChunks)]
    }

    /**
     * `process_single_pdf`: class and subject from the path, the file-name stem as title,
     * then process and store. Any failure becomes a failure result for the same path.
     */
    method ProcessSinglePdf(input: PdfInput, userId: string) returns (r: PdfResult)
      requires vectorStore.Valid()
      modifies vectorStore
      ensures vectorStore.Valid()
      ensures r.filePath == input.path
      ensures input.content.Err? ==> r == Failure(input.path, input.content.error) && unchanged(vectorStore)
      ensures input.content.Ok? ==>
        var text := input.content.value;
        var n := |Chunks(text, ChunkSize, Overlap)|;
        var m := MetadataOf(input.path);
        && (r.Success? <==> Allows(old(vectorStore.budget), 2 * n))
        && (r.Success? ==>
             r == Success(input.path, input.src.fileId, Stem(input.path), m.className, m.subjectName, n, |text|))
      ensures vectorStore.State() == AfterIngest(vectorStore.env, old(vectorStore.State()), input, userId)
    {
      if input.content.Err? {
        return Failure(input.path, input.content.error);
      }
      var metadata := ExtractMetadataFromPath(input.path);
      var title := Stem(input.path);
      var result := ProcessPdfFile(input.content.value, title, metadata.className, metadata.subjectName, userId,
                                   input.src);
      var chunkIds := vectorStore.StoreChunks(result.chunks);
      if chunkIds.Err? {
        return Failure(input.path, chunkIds.error);
      }
      r := Success(input.path, result.fileId, title, metadata.className, metadata.subjectName, |chunkIds.value|,
                   result.totalTextLength);
    }

    /** The counter updates `ingest_directory` makes for one result. */
    method Record(result: PdfResult)
      modifies this
      ensures totalFiles == old(totalFiles)
      ensures processedFiles == old(processedFiles) + (if result.Success? then 1 else 0)
      ensures failedFiles == old(failedFiles) + (if result.Success? then 0 else 1)
      ensures totalChunks == old(totalChunks) + (if result.Success? then result.chunksCount else 0)
    {
      if result.Success? {
        processedFiles := processedFiles + 1;
        totalChunks := totalChunks + result.chunksCount;
      } else {
        failedFiles := failedFiles + 1;
      }
    }

    /** One pass of the ingestion loop: process the file, then count its result. */
    method IngestOne(input: PdfInput, userId: string) returns (result: PdfResult)
      requires vectorStore.Valid()
      modifies this, vectorStore
      ensures vectorStore.Valid()
      ensures result.filePath == input.path
      ensures totalFiles == old(totalFiles)
      ensures processedFiles == old(processedFiles) + (if result.Success? then 1 else 0)
      ensures failedFiles == old(failedFiles) + (if result.Success? then 0 else 1)
      ensures totalChunks == old(totalChunks) + (if result.Success? then result.chunksCount else 0)
      ensures ResultFor(old(vectorStore.State()), input, result)
      ensures vectorStore.State() == AfterIngest(vectorStore.env, old(vectorStore.State()), input, userId)
    {
      result := ProcessSinglePdf(input, userId);
      Record(result);
    }

    /**
     * `ingest_directory` over the sorted PDF files found: process each in order and count
     * successes, failures and stored chunks. With no files it returns at once. The counters
     * add to what earlier runs left, so only a fresh pipeline ends with processed + failed
     * equal to the number of files.
     */
    /** The loop of `ingest_directory`: process each file in order and count its result. */
    method IngestAll(pdfFiles: seq<PdfInput>, userId: string) returns (results: seq<PdfResult>)
      requires vectorStore.Valid()
      modifies this, vectorStore
      ensures vectorStore.Valid()
      ensures totalFiles == old(totalFiles)
      ensures |results| == |pdfFiles|
      ensures processedFiles == old(processedFiles) + Successes(results)
      ensures failedFiles == old(failedFiles) + (|results| - Successes(results))
      ensures totalChunks == old(totalChunks) + ChunkTotal(results)
      ensures vectorStore.State() == AfterIngestAll(vectorStore.env, old(vectorStore.State()), pdfFiles, userId)
      ensures forall i :: 0 <= i < |results| ==>
        ResultFor(AfterIngestAll(vectorStore.env, old(vectorStore.State()), pdfFiles[..i], userId), pdfFiles[i], results[i])
    {
      ghost var s0 := vectorStore.State();
      results := [];
      for i := 0 to |pdfFiles|
        invariant vectorStore.Valid()
        invariant totalFiles == old(totalFiles)
        invariant |results| == i
        invariant processedFiles == old(processedFiles) + Successes(results)
        invariant failedFiles == old(failedFiles) + (|results| - Successes(results))
        invariant totalChunks == old(totalChunks) + ChunkTotal(results)
        invariant vectorStore.State() == AfterIngestAll(vectorStore.env, s0, pdfFiles[..i], userId)
        invariant forall j :: 0 <= j < i ==>
          ResultFor(AfterIngestAll(vectorStore.env, s0, pdfFiles[..j], userId), pdfFiles[j], results[j])
      {
        var result := IngestOne(pdfFiles[i], userId);
        CountsStep(results, result);
        IngestStep(vectorStore.env, s0, pdfFiles, userId, results, result);
        results := results + [result];
      }
      assert pdfFiles[..|pdfFiles|] == pdfFiles;
    }

    /**
     * `ingest_directory` over the sorted PDF files found: process each in order and count
     * successes, failures and stored chunks. With no files it returns at once. The counters
     * add to what earlier runs left, so only a fresh pipeline ends with processed + failed
     * equal to the number of files.
     */
    method IngestDirectory(pdfFiles: seq<PdfInput>, userId: string)
      returns (stats: map<string, Value>, results: seq<PdfResult>)
      requires vectorStore.Valid()
      modifies this, vectorStore
      ensures vectorStore.Valid()
      ensures totalFiles == |pdfFiles|
      ensures |results| == |pdfFiles| && forall i :: 0 <= i < |results| ==> results[i].filePath == pdfFiles[i].path
      ensures processedFiles == old(processedFiles) + Successes(results)
      ensures failedFiles == old(failedFiles) + (|results| - Successes(results))
      ensures totalChunks == old(totalChunks) + ChunkTotal(results)
      ensures pdfFiles == [] ==> unchanged(vectorStore)
      ensures old(processedFiles) == 0 && old(failedFiles) == 0 ==> processedFiles + failedFiles == totalFiles
      ensures stats == Stats()
      ensures vectorStore.State() == AfterIngestAll(vectorStore.env, old(vectorStore.State()), pdfFiles, userId)
      ensures forall i :: 0 <= i < |results| ==>
        ResultFor(AfterIngestAll(vectorStore.env, old(vectorStore.State()), pdfFiles[..i], userId), pdfFiles[i], results[i])
    {
      totalFiles := |pdfFiles|;
      results := [];
      if pdfFiles == [] {
        return Stats(), results;
      }
      results := IngestAll(pdfFiles, userId);
      var _, _ := PrintSummary(results);
      stats := Stats();
    }
  }
}
