/**
 * The records of the retrieval backend (backend/rag/models.py) and their `to_dict`
 * serialisers, with the rebuilding of a chunk from its stored dictionary.
 */
module Models {
  import opened Wrappers
  import opened Text

  /** A JSON-like value: what `to_dict` produces and the document store keeps. */
  datatype Value =
    | Null
    | Bool(b: bool)
    | Int(i: int)
    | Real(r: real)
    | Str(s: string)
    | List(items: seq<Value>)
    | Dict(entries: map<string, Value>)

  // ---------------------------------------------------------------------------
  // Timestamps: `datetime` with `isoformat()` and `datetime.fromisoformat()`
  // ---------------------------------------------------------------------------

  datatype DateTime = DateTime(year: int, month: int, day: int,
                               hour: int, minute: int, second: int, microsecond: int)

  predicate IsLeapYear(y: int) {
    y % 4 == 0 && (y % 100 != 0 || y % 400 == 0)
  }

  function DaysInMonth(y: int, m: int): int
    requires 1 <= m <= 12
  {
    if m == 2 then (if IsLeapYear(y) then 29 else 28)
    else if m == 4 || m == 6 || m == 9 || m == 11 then 30
    else 31
  }

  /** The values a Python `datetime` can hold. */
  predicate ValidDateTime(t: DateTime) {
    && 1 <= t.year <= 9999 && 1 <= t.month <= 12 && 1 <= t.day <= DaysInMonth(t.year, t.month)
    && 0 <= t.hour < 24 && 0 <= t.minute < 60 && 0 <= t.second < 60
    && 0 <= t.microsecond < 1000000
  }

  /** A timestamp a Python `datetime` can hold. */
  type Timestamp = t: DateTime | ValidDateTime(t) witness DateTime(1970, 1, 1, 0, 0, 0, 0)

  function Pow10(n: nat): (r: nat)
    ensures r >= 1
  {
    if n == 0 then 1 else 10 * Pow10(n - 1)
  }

  /** The last `width` decimal digits of `n`, zero-padded. */
  function Pad(n: nat, width: nat): (r: string)
    ensures |r| == width && AllDigits(r)
  {
    if width == 0 then "" else Pad(n / 10, width - 1) + [DigitChar(n % 10)]
  }

  /** Zero-padding is undone by reading the digits back, when the number fits the width. */
  lemma {:induction false} PadValue(n: nat, width: nat)
    requires n < Pow10(width)
    ensures DigitsValue(Pad(n, width)) == n
  {
    if width > 0 {
      var r := Pad(n, width);
      assert r[..|r| - 1] == Pad(n / 10, width - 1);
      assert n / 10 < Pow10(width - 1);
      PadValue(n / 10, width - 1);
    }
  }

  function DatePart(t: DateTime): (s: string)
    requires ValidDateTime(t)
    ensures |s| == 10
  {
    Pad(t.year, 4) + "-" + Pad(t.month, 2) + "-" + Pad(t.day, 2)
  }

  function TimePart(t: DateTime): (s: string)
    requires ValidDateTime(t)
    ensures |s| == 8
  {
    Pad(t.hour, 2) + ":" + Pad(t.minute, 2) + ":" + Pad(t.second, 2)
  }

  function FractionPart(t: DateTime): (s: string)
    requires ValidDateTime(t)
  {
    if t.microsecond != 0 then "." + Pad(t.microsecond, 6) else ""
  }

  /** `datetime.isoformat()`: the fractional part is written only when the microseconds are not zero. */
  function IsoFormat(t: DateTime): (s: string)
    requires ValidDateTime(t)
  {
    DatePart(t) + "T" + TimePart(t) + FractionPart(t)
  }

  function Field(s: string, lo: nat, hi: nat): Option<nat>
    requires lo <= hi <= |s|
  {
    if AllDigits(s[lo..hi]) then Some(DigitsValue(s[lo..hi])) else None
  }

  /** Three digit fields of the given widths separated by `sep`, as in `YYYY-MM-DD` and `HH:MM:SS`. */
  function ParseTriple(s: string, widths: (nat, nat, nat), sep: char): Option<(nat, nat, nat)> {
    var (a, b, c) := widths;
    if |s| != a + 1 + b + 1 + c || s[a] != sep || s[a + 1 + b] != sep then None
    else
      var x, y, z := Field(s, 0, a), Field(s, a + 1, a + 1 + b), Field(s, a + 2 + b, |s|);
      if x.None? || y.None? || z.None? then None else Some((x.value, y.value, z.value))
  }

  function ParseFraction(f: string): Option<nat> {
    if f == "" then Some(0)
    else if |f| == 7 && f[0] == '.' then Field(f, 1, 7)
    else None
  }

  /** `datetime.fromisoformat()` on the two shapes `isoformat()` writes; `None` stands for the ValueError. */
  function ParseIso(s: string): (r: Option<DateTime>)
    ensures r.Some? ==> ValidDateTime(r.value)
  {
    if |s| < 19 || s[10] != 'T' then None
    else
      var date, time, micro := ParseTriple(s[..10], (4, 2, 2), '-'), ParseTriple(s[11..19], (2, 2, 2), ':'), ParseFraction(s[19..]);
      if date.None? || time.None? || micro.None? then None
      else
        var t := DateTime(date.value.0, date.value.1, date.value.2, time.value.0, time.value.1, time.value.2, micro.value);
        if ValidDateTime(t) then Some(t) else None
  }

  /** A digit field holding the digit string `p` reads as its value. */
  lemma FieldOf(s: string, lo: nat, hi: nat, p: string)
    requires lo <= hi <= |s| && s[lo..hi] == p && AllDigits(p)
    ensures Field(s, lo, hi) == Some(DigitsValue(p))
  {
  }

  /** Two separators in place and three readable fields make a parsed triple. */
  lemma ParseTripleOfSlices(s: string, a: nat, b: nat, c: nat, sep: char, x: nat, y: nat, z: nat)
    requires |s| == a + 1 + b + 1 + c && s[a] == sep && s[a + 1 + b] == sep
    requires Field(s, 0, a) == Some(x) && Field(s, a + 1, a + 1 + b) == Some(y) && Field(s, a + 2 + b, |s|) == Some(z)
    ensures ParseTriple(s, (a, b, c), sep) == Some((x, y, z))
  {
  }

  /** Where the three pieces and the two separators sit in `px + [sep] + py + [sep] + pz`. */
  lemma JoinedLayout(px: string, py: string, pz: string, sep: char)
    ensures var s, a, b := px + [sep] + py + [sep] + pz, |px|, |py|;
      && |s| == a + 1 + b + 1 + |pz| && s[a] == sep && s[a + 1 + b] == sep
      && s[0..a] == px && s[a + 1..a + 1 + b] == py && s[a + 2 + b..|s|] == pz
  {
    var s, a, b := px + [sep] + py + [sep] + pz, |px|, |py|;
    assert s[0..a] == px;
    assert s[a + 1..a + 1 + b] == py;
    assert s[a + 2 + b..|s|] == pz;
  }

  /** Three digit strings joined by `sep` read back as their values. */
  lemma ParseTripleOfFields(px: string, py: string, pz: string, sep: char)
    requires AllDigits(px) && AllDigits(py) && AllDigits(pz)
    ensures ParseTriple(px + [sep] + py + [sep] + pz, (|px|, |py|, |pz|), sep)
      == Some((DigitsValue(px), DigitsValue(py), DigitsValue(pz)))
  {
    var s, a, b := px + [sep] + py + [sep] + pz, |px|, |py|;
    JoinedLayout(px, py, pz, sep);
    FieldOf(s, 0, a, px);
    FieldOf(s, a + 1, a + 1 + b, py);
    FieldOf(s, a + 2 + b, |s|, pz);
    ParseTripleOfSlices(s, a, b, |pz|, sep, DigitsValue(px), DigitsValue(py), DigitsValue(pz));
  }

  lemma ParseTripleOfPads(x: nat, y: nat, z: nat, widths: (nat, nat, nat), sep: char)
    requires x < Pow10(widths.0) && y < Pow10(widths.1) && z < Pow10(widths.2)
    ensures ParseTriple(Pad(x, widths.0) + [sep] + Pad(y, widths.1) + [sep] + Pad(z, widths.2), widths, sep) == Some((x, y, z))
  {
    ParseTripleOfFields(Pad(x, widths.0), Pad(y, widths.1), Pad(z, widths.2), sep);
    PadValue(x, widths.0);
    PadValue(y, widths.1);
    PadValue(z, widths.2);
  }

  /** Reading back what `isoformat()` wrote gives the same timestamp. */
  lemma IsoRoundTrip(t: DateTime)
    requires ValidDateTime(t)
    ensures ParseIso(IsoFormat(t)) == Some(t)
  {
    var s := IsoFormat(t);
    assert |s| >= 19 && s[10] == 'T';
    assert ParseTriple(s[..10], (4, 2, 2), '-') == Some((t.year, t.month, t.day)) by {
      assert s[..10] == DatePart(t);
      assert DatePart(t) == Pad(t.year, 4) + ['-'] + Pad(t.month, 2) + ['-'] + Pad(t.day, 2);
      ParseTripleOfPads(t.year, t.month, t.day, (4, 2, 2), '-');
    }
    assert ParseTriple(s[11..19], (2, 2, 2), ':') == Some((t.hour, t.minute, t.second)) by {
      assert s[11..19] == TimePart(t);
      assert TimePart(t) == Pad(t.hour, 2) + [':'] + Pad(t.minute, 2) + [':'] + Pad(t.second, 2);
      ParseTripleOfPads(t.hour, t.minute, t.second, (2, 2, 2), ':');
    }
    assert ParseFraction(s[19..]) == Some(t.microsecond) by {
      assert s[19..] == FractionPart(t);
      if t.microsecond != 0 {
        var f := FractionPart(t);
        assert f[1..7] == Pad(t.microsecond, 6);
        PadValue(t.microsecond, 6);
      }
    }
  }

  // ---------------------------------------------------------------------------
  // DocumentChunk
  // ---------------------------------------------------------------------------

  /** One chunk of a document. The embeddings and the metadata default to empty. */
  datatype DocumentChunk = DocumentChunk(
    id: string,
    documentId: string,
    content: string,
    chunkIndex: int,
    className: string,
    subjectName: string,
    fileId: string,
    denseEmbedding: seq<real> := [],
    sparseEmbedding: seq<real> := [],
    metadata: map<string, Value> := map[],
    createdAt: Timestamp)

  /** A chunk built with only its required fields has empty embeddings and empty metadata. */
  lemma NewChunkDefaults(id: string, documentId: string, content: string, chunkIndex: int,
                         className: string, subjectName: string, fileId: string, now: Timestamp)
    ensures var c := DocumentChunk(id, documentId, content, chunkIndex, className, subjectName, fileId, createdAt := now);
      c.denseEmbedding == [] && c.sparseEmbedding == [] && c.metadata == map[] && c.createdAt == now
  {
  }

  function RealsToValue(v: seq<real>): (r: Value)
    ensures r.List? && |r.items| == |v|
  {
    List(seq(|v|, i requires 0 <= i < |v| => Real(v[i])))
  }

  /** A stored list of floats; `None` when some element is not a float. */
  function ValueToReals(x: Value): Option<seq<real>> {
    if x.List? && forall i :: 0 <= i < |x.items| ==> x.items[i].Real? then
      Some(seq(|x.items|, i requires 0 <= i < |x.items| && x.items[i].Real? => x.items[i].r))
    else None
  }

  lemma {:induction false} RealsRoundTrip(v: seq<real>)
    ensures ValueToReals(RealsToValue(v)) == Some(v)
  {
    var x := RealsToValue(v);
    assert forall i :: 0 <= i < |x.items| ==> x.items[i] == Real(v[i]);
    var back := seq(|x.items|, i requires 0 <= i < |x.items| && x.items[i].Real? => x.items[i].r);
    assert back == v;
  }

  /** `DocumentChunk.to_dict`. */
  function ChunkToDict(c: DocumentChunk): (d: map<string, Value>)
    ensures d.Keys == {"id", "document_id", "content", "chunk_index", "class_name", "subject_name",
                       "file_id", "dense_embedding", "sparse_embedding", "metadata", "created_at"}
  {
    map[
      "id" := Str(c.id),
      "document_id" := Str(c.documentId),
      "content" := Str(c.content),
      "chunk_index" := Int(c.chunkIndex),
      "class_name" := Str(c.className),
      "subject_name" := Str(c.subjectName),
      "file_id" := Str(c.fileId),
      "dense_embedding" := RealsToValue(c.denseEmbedding),
      "sparse_embedding" := RealsToValue(c.sparseEmbedding),
      "metadata" := Dict(c.metadata),
      "created_at" := Str(IsoFormat(c.createdAt))
    ]
  }

  function GetStr(d: map<string, Value>, k: string): Option<string> {
    if k in d && d[k].Str? then Some(d[k].s) else None
  }

  /** `data.get(k, [])` for a list of floats. */
  function GetReals(d: map<string, Value>, k: string): Option<seq<real>> {
    if k in d then ValueToReals(d[k]) else Some([])
  }

  /**
   * The rebuilding of a chunk from its stored dictionary in `get_chunks_by_file_id`:
   * required keys are looked up directly (a missing one raises), the embeddings and the
   * metadata default to empty, and `created_at` is parsed. `None` stands for any exception.
   */
  function ChunkFromDict(d: map<string, Value>): (r: Option<DocumentChunk>)
    ensures r.Some? ==> GetStr(d, "file_id") == Some(r.value.fileId)
  {
    var id, documentId, content := GetStr(d, "id"), GetStr(d, "document_id"), GetStr(d, "content");
    var className, subjectName, fileId := GetStr(d, "class_name"), GetStr(d, "subject_name"), GetStr(d, "file_id");
    var dense, sparse := GetReals(d, "dense_embedding"), GetReals(d, "sparse_embedding");
    var created := GetStr(d, "created_at");
    if id.None? || documentId.None? || content.None? || className.None? || subjectName.None? || fileId.None? then None
    else if !("chunk_index" in d && d["chunk_index"].Int?) then None
    else if dense.None? || sparse.None? || created.None? then None
    else if "metadata" in d && !d["metadata"].Dict? then None
    else
      var metadata := if "metadata" in d then d["metadata"].entries else map[];
      match ParseIso(created.value)
      case None => None
      case Some(t) =>
        Some(DocumentChunk(id.value, documentId.value, content.value, d["chunk_index"].i,
                           className.value, subjectName.value, fileId.value,
                           dense.value, sparse.value, metadata, t))
  }

  /** Storing a chunk's dictionary and rebuilding it gives back an equal chunk. */
  lemma ChunkRoundTrip(c: DocumentChunk)
    ensures ChunkFromDict(ChunkToDict(c)) == Some(c)
  {
    var d := ChunkToDict(c);
    assert GetStr(d, "id") == Some(c.id) && GetStr(d, "document_id") == Some(c.documentId);
    assert GetStr(d, "content") == Some(c.content) && GetStr(d, "class_name") == Some(c.className);
    assert GetStr(d, "subject_name") == Some(c.subjectName) && GetStr(d, "file_id") == Some(c.fileId);
    assert GetStr(d, "created_at") == Some(IsoFormat(c.createdAt));
    assert d["chunk_index"] == Int(c.chunkIndex) && d["metadata"] == Dict(c.metadata);
    RealsRoundTrip(c.denseEmbedding);
    RealsRoundTrip(c.sparseEmbedding);
    IsoRoundTrip(c.createdAt);
  }

  // ---------------------------------------------------------------------------
  // SearchResult, ChatRequest, ChatResponse, PDFUploadRequest
  // ---------------------------------------------------------------------------

  /** A chunk as returned by a search, with its three scores. */
  datatype SearchResult = SearchResult(
    chunkId: string,
    documentId: string,
    content: string,
    className: string,
    subjectName: string,
    fileId: string,
    denseScore: real,
    sparseScore: real,
    hybridScore: real,
    metadata: map<string, Value> := map[])

  /** `SearchResult.to_dict`. */
  function SearchResultToDict(r: SearchResult): (d: map<string, Value>)
    ensures d.Keys == {"chunk_id", "document_id", "content", "class_name", "subject_name", "file_id",
                       "dense_score", "sparse_score", "hybrid_score", "metadata"}
  {
    map[
      "chunk_id" := Str(r.chunkId),
      "document_id" := Str(r.documentId),
      "content" := Str(r.content),
      "class_name" := Str(r.className),
      "subject_name" := Str(r.subjectName),
      "file_id" := Str(r.fileId),
      "dense_score" := Real(r.denseScore),
      "sparse_score" := Real(r.sparseScore),
      "hybrid_score" := Real(r.hybridScore),
      "metadata" := Dict(r.metadata)
    ]
  }

  /** Each key of `SearchResult.to_dict` holds its field unchanged. */
  lemma SearchResultDictFields(r: SearchResult)
    ensures var d := SearchResultToDict(r);
      && d["chunk_id"] == Str(r.chunkId) && d["document_id"] == Str(r.documentId)
      && d["content"] == Str(r.content) && d["class_name"] == Str(r.className)
      && d["subject_name"] == Str(r.subjectName) && d["file_id"] == Str(r.fileId)
      && d["dense_score"] == Real(r.denseScore) && d["sparse_score"] == Real(r.sparseScore)
      && d["hybrid_score"] == Real(r.hybridScore) && d["metadata"] == Dict(r.metadata)
  {
  }

  /** `SearchResult.to_dict` loses nothing: the scores and identity fields can be read back unchanged. */
  lemma SearchResultToDictInjective(a: SearchResult, b: SearchResult)
    requires SearchResultToDict(a) == SearchResultToDict(b)
    ensures a == b
  {
    SearchResultDictFields(a);
    SearchResultDictFields(b);
  }

  /** A chat request; `allowed_file_ids` defaults to None, `max_tokens` to 1000 and `temperature` to 0.7. */
  datatype ChatRequest = ChatRequest(
    message: string,
    userId: string,
    className: string,
    subjectName: string,
    allowedFileIds: Option<seq<string>> := None,
    maxTokens: int := 1000,
    temperature: real := 0.7)

  lemma ChatRequestDefaults(message: string, userId: string, className: string, subjectName: string)
    ensures var r := ChatRequest(message, userId, className, subjectName);
      r.allowedFileIds == None && r.maxTokens == 1000 && r.temperature == 0.7
  {
  }

  function StringsToValue(xs: seq<string>): Value {
    List(seq(|xs|, i requires 0 <= i < |xs| => Str(xs[i])))
  }

  function OptionalStringsToValue(o: Option<seq<string>>): Value {
    match o
    case None => Null
    case Some(xs) => StringsToValue(xs)
  }

  /** `ChatRequest.to_dict`. */
  function ChatRequestToDict(r: ChatRequest): (d: map<string, Value>)
    ensures d.Keys == {"message", "user_id", "class_name", "subject_name", "allowed_file_ids", "max_tokens", "temperature"}
    ensures r.allowedFileIds.None? <==> d["allowed_file_ids"] == Null
  {
    map[
      "message" := Str(r.message),
      "user_id" := Str(r.userId),
      "class_name" := Str(r.className),
      "subject_name" := Str(r.subjectName),
      "allowed_file_ids" := OptionalStringsToValue(r.allowedFileIds),
      "max_tokens" := Int(r.maxTokens),
      "temperature" := Real(r.temperature)
    ]
  }

  /** The reply to a chat request; the retrieved chunks and the metadata default to empty. */
  datatype ChatResponse = ChatResponse(
    response: string,
    retrievedChunks: seq<SearchResult> := [],
    metadata: map<string, Value> := map[])

  /** `ChatResponse.to_dict`: the retrieved chunks are serialised one by one, in order. */
  function ChatResponseToDict(r: ChatResponse): (d: map<string, Value>)
    ensures d.Keys == {"response", "retrieved_chunks", "metadata"}
    ensures d["retrieved_chunks"].List? && |d["retrieved_chunks"].items| == |r.retrievedChunks|
    ensures forall i :: 0 <= i < |r.retrievedChunks| ==>
      d["retrieved_chunks"].items[i] == Dict(SearchResultToDict(r.retrievedChunks[i]))
  {
    var rs := r.retrievedChunks;
    map[
      "response" := Str(r.response),
      "retrieved_chunks" := List(seq(|rs|, i requires 0 <= i < |rs| => Dict(SearchResultToDict(rs[i])))),
      "metadata" := Dict(r.metadata)
    ]
  }

  /** Two responses with the same dictionary retrieved the same chunks in the same order. */
  lemma {:induction false} ChatResponseToDictInjective(a: ChatResponse, b: ChatResponse)
    requires ChatResponseToDict(a) == ChatResponseToDict(b)
    ensures a == b
  {
    var da, db := ChatResponseToDict(a), ChatResponseToDict(b);
    assert da["retrieved_chunks"] == db["retrieved_chunks"];
    assert |a.retrievedChunks| == |b.retrievedChunks|;
    forall i | 0 <= i < |a.retrievedChunks| ensures a.retrievedChunks[i] == b.retrievedChunks[i] {
      assert da["retrieved_chunks"].items[i] == db["retrieved_chunks"].items[i];
      SearchResultToDictInjective(a.retrievedChunks[i], b.retrievedChunks[i]);
    }
    assert da["response"] == db["response"] && da["metadata"] == db["metadata"];
  }

  /** An upload request; `user_id` defaults to "default". */
  datatype PDFUploadRequest = PDFUploadRequest(
    fileContent: seq<int>,
    title: string,
    className: string,
    subjectName: string,
    userId: string := "default")

  /** `PDFUploadRequest.to_dict`: the four descriptive fields, never the file's bytes. */
  function PDFUploadRequestToDict(r: PDFUploadRequest): (d: map<string, Value>)
    ensures d.Keys == {"title", "class_name", "subject_name", "user_id"}
    ensures "file_content" !in d
  {
    map[
      "title" := Str(r.title),
      "class_name" := Str(r.className),
      "subject_name" := Str(r.subjectName),
      "user_id" := Str(r.userId)
    ]
  }

  /** The upload dictionary is the same whatever the file's bytes are, and differs when a descriptive field does. */
  lemma PDFUploadRequestToDictIgnoresContent(a: PDFUploadRequest, b: PDFUploadRequest)
    ensures PDFUploadRequestToDict(a) == PDFUploadRequestToDict(b) <==>
      (a.title, a.className, a.subjectName, a.userId) == (b.title, b.className, b.subjectName, b.userId)
  {
    if PDFUploadRequestToDict(a) == PDFUploadRequestToDict(b) {
      var da, db := PDFUploadRequestToDict(a), PDFUploadRequestToDict(b);
      assert da["title"] == db["title"] && da["class_name"] == db["class_name"];
      assert da["subject_name"] == db["subject_name"] && da["user_id"] == db["user_id"];
    }
  }
}
