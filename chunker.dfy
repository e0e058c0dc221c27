/**
 * The chunker of backend/rag/document_processor.py: overlapping fixed-size windows over
 * the extracted text, blank windows dropped, and the numbering of the surviving chunks.
 */
module DocumentProcessor {
  import opened Text
  import opened Models

  function Min(a: int, b: int): int {
    if a <= b then a else b
  }

  /** A window `text[start:end]` the chunking loop visits; `end` may run past the text. */
  datatype Span = Span(start: nat, end: nat)

  /**
   * The windows the chunking loop visits from offset `start` on, over a text of length `n`:
   * each window is `chunk_size` long, the loop stops after the first one reaching the end of
   * the text, and the next one starts `overlap` characters before the previous one ended.
   */
  function SpansFrom(n: nat, start: nat, size: nat, overlap: nat): seq<Span>
    requires overlap < size
    decreases n - start
  {
    if start >= n then []
    else [Span(start, start + size)] + SpansAfter(n, start, size, overlap)
  }

  /** The windows after the one at `start`. */
  function SpansAfter(n: nat, start: nat, size: nat, overlap: nat): seq<Span>
    requires overlap < size
    decreases n - start, 0
  {
    if start + size >= n then [] else SpansFrom(n, start + size - overlap, size, overlap)
  }

  function Spans(n: nat, size: nat, overlap: nat): seq<Span>
    requires overlap < size
  {
    SpansFrom(n, 0, size, overlap)
  }

  /** The text of a window: Python's `text[start:end]`. */
  function Window(text: string): Span -> string {
    (w: Span) => PySlice(text, w.start, w.end)
  }

  /** The texts `f(w)` of the windows `w` that are not all whitespace (that do not strip to nothing), in order. */
  function NonBlankWindows(f: Span -> string, spans: seq<Span>): seq<string> {
    if spans == [] then []
    else (if !IsBlank(f(spans[0]), Python) then [f(spans[0])] else []) + NonBlankWindows(f, spans[1..])
  }

  /** The chunks of the windows from offset `start` on: what the loop has still to add. */
  function ChunksFrom(text: string, start: nat, size: nat, overlap: nat): seq<string>
    requires overlap < size
  {
    NonBlankWindows(Window(text), SpansFrom(|text|, start, size, overlap))
  }

  /** What `create_chunks_with_overlap(text, size, overlap)` returns. */
  function Chunks(text: string, size: nat, overlap: nat): seq<string>
    requires overlap < size
  {
    NonBlankWindows(Window(text), Spans(|text|, size, overlap))
  }

  /** `DocumentProcessor.create_chunks_with_overlap`. */
  method CreateChunksWithOverlap(text: string, chunkSize: nat, overlap: nat) returns (chunks: seq<string>)
    requires overlap < chunkSize
    ensures chunks == Chunks(text, chunkSize, overlap)
  {
    chunks := [];
    var start := 0;
    var textLen := |text|;
    while start < textLen
      invariant chunks + ChunksFrom(text, start, chunkSize, overlap) == Chunks(text, chunkSize, overlap)
      decreases textLen - start
    {
      var end := start + chunkSize;
      var chunk := PySlice(text, start, end);
      // Only add non-empty chunks
      var keep := StripIsTruthy(chunk);
      ghost var before := chunks;
      if keep {
        chunks := chunks + [chunk];
      }
      ChunkLoopStep(text, start, chunkSize, overlap, before, keep, chunks);
      if end >= textLen {
        break;
      }
      // Move start position with overlap
      start := end - overlap;
    }
    assert chunks == Chunks(text, chunkSize, overlap) by {
      if start >= textLen {
        assert ChunksFrom(text, start, chunkSize, overlap) == [];
        assert chunks + [] == chunks;
      }
    }
  }

  /** What one pass of the loop body of `create_chunks_with_overlap` does to the invariant. */
  lemma ChunkLoopStep(text: string, start: nat, size: nat, overlap: nat, chunks: seq<string>, keep: bool, next: seq<string>)
    requires overlap < size && start < |text|
    requires chunks + ChunksFrom(text, start, size, overlap) == Chunks(text, size, overlap)
    requires keep == !IsBlank(PySlice(text, start, start + size), Python)
    requires next == if keep then chunks + [PySlice(text, start, start + size)] else chunks
    ensures start + size >= |text| ==> next == Chunks(text, size, overlap)
    ensures start + size < |text| ==>
      next + ChunksFrom(text, start + size - overlap, size, overlap) == Chunks(text, size, overlap)
  {
    var chunk := PySlice(text, start, start + size);
    var rest := NonBlankWindows(Window(text), SpansAfter(|text|, start, size, overlap));
    var kept := if keep then [chunk] else [];
    assert ChunksFrom(text, start, size, overlap) == kept + rest by {
      NonBlankWindowsStep(Window(text), |text|, start, size, overlap);
      assert Window(text)(Span(start, start + size)) == chunk;
    }
    AppendAssoc(chunks, kept, rest);
    assert next == chunks + kept;
    if start + size >= |text| {
      assert rest == [];
      assert next + [] == next;
    } else {
      assert rest == ChunksFrom(text, start + size - overlap, size, overlap);
    }
  }

  lemma AppendAssoc(a: seq<string>, b: seq<string>, c: seq<string>)
    ensures a + (b + c) == (a + b) + c
  {
  }

  // ---------------------------------------------------------------------------
  // Properties of the windows and the chunks
  // ---------------------------------------------------------------------------

  /** One step of the loop: the window at `start` if it is not blank, then the windows after it. */
  lemma NonBlankWindowsStep(f: Span -> string, n: nat, start: nat, size: nat, overlap: nat)
    requires overlap < size && start < n
    ensures NonBlankWindows(f, SpansFrom(n, start, size, overlap))
      == (if !IsBlank(f(Span(start, start + size)), Python) then [f(Span(start, start + size))] else [])
         + NonBlankWindows(f, SpansAfter(n, start, size, overlap))
  {
    var tail := SpansAfter(n, start, size, overlap);
    assert SpansFrom(n, start, size, overlap) == [Span(start, start + size)] + tail;
    assert ([Span(start, start + size)] + tail)[1..] == tail;
  }

  /** The i-th window from `start` begins `i` steps of `size - overlap` later and is `size` long. */
  lemma {:induction false} SpansFromAt(n: nat, start: nat, size: nat, overlap: nat, i: nat)
    requires overlap < size && i < |SpansFrom(n, start, size, overlap)|
    ensures SpansFrom(n, start, size, overlap)[i] == Span(start + i * (size - overlap), start + i * (size - overlap) + size)
    decreases n - start
  {
    if i > 0 {
      var step := size - overlap;
      var next := start + step;
      SpansFromAt(n, next, size, overlap, i - 1);
      assert SpansFrom(n, start, size, overlap)[i] == SpansFrom(n, next, size, overlap)[i - 1];
      assert next + (i - 1) * step == start + i * step by {
        assert (i - 1) * step == i * step - step;
      }
    }
  }

  /** Window i starts at `i*(size-overlap)`, inside the text, and its text runs from there for `size` characters or to the end. */
  lemma WindowAt(text: string, size: nat, overlap: nat, i: nat)
    requires overlap < size && i < |Spans(|text|, size, overlap)|
    ensures Spans(|text|, size, overlap)[i].start == i * (size - overlap) < |text|
    ensures var s := Spans(|text|, size, overlap)[i].start;
      Window(text)(Spans(|text|, size, overlap)[i]) == text[s..Min(s + size, |text|)]
  {
    var spans := Spans(|text|, size, overlap);
    SpansFromAt(|text|, 0, size, overlap, i);
    SpansFromStarts(|text|, 0, size, overlap);
    assert spans[i] in spans;
  }

  /** Every window starts inside the text and is `size` long. */
  lemma {:induction false} SpansFromStarts(n: nat, start: nat, size: nat, overlap: nat)
    requires overlap < size
    ensures forall w :: w in SpansFrom(n, start, size, overlap) ==> start <= w.start < n && w.end == w.start + size
    decreases n - start
  {
    if start < n && start + size < n {
      SpansFromStarts(n, start + size - overlap, size, overlap);
    }
  }

  /**
   * The windows tile the text: the first starts at `start`, only the last reaches the end of
   * the text, and each earlier one overlaps the next by exactly `overlap` characters.
   */
  lemma {:induction false} SpansFromTile(n: nat, start: nat, size: nat, overlap: nat)
    requires overlap < size
    ensures var spans := SpansFrom(n, start, size, overlap);
      && (start < n <==> spans != [])
      && (spans != [] ==> spans[0].start == start && spans[|spans| - 1].end >= n)
      && (forall i :: 0 <= i < |spans| - 1 ==> spans[i].end < n && spans[i].end - spans[i + 1].start == overlap)
    decreases n - start
  {
    if start < n && start + size < n {
      var next := start + size - overlap;
      var spans := SpansFrom(n, start, size, overlap);
      var rest := SpansFrom(n, next, size, overlap);
      SpansFromTile(n, next, size, overlap);
      assert spans == [Span(start, start + size)] + rest;
      forall i | 0 <= i < |spans| - 1
        ensures spans[i].end < n && spans[i].end - spans[i + 1].start == overlap
      {
        assert spans[i + 1] == rest[i];
        if i > 0 {
          assert spans[i] == rest[i - 1];
        }
      }
      assert spans[|spans| - 1] == rest[|rest| - 1];
    }
  }

  /** Position `j` lies in one of the windows. */
  predicate Covers(spans: seq<Span>, j: nat) {
    exists i :: 0 <= i < |spans| && spans[i].start <= j < spans[i].end
  }

  /** The windows cover the whole text: every position lies in some window. */
  lemma SpansCover(n: nat, size: nat, overlap: nat, j: nat)
    requires overlap < size && j < n
    ensures Covers(Spans(n, size, overlap), j)
  {
    SpansFromCover(n, 0, size, overlap, j);
  }

  lemma {:induction false} SpansFromCover(n: nat, start: nat, size: nat, overlap: nat, j: nat)
    requires overlap < size && start <= j < n
    ensures Covers(SpansFrom(n, start, size, overlap), j)
    decreases n - start
  {
    var spans := SpansFrom(n, start, size, overlap);
    if j < start + size {
      assert spans[0] == Span(start, start + size);
      assert spans[0].start <= j < spans[0].end;
    } else {
      var next := start + size - overlap;
      SpansFromCover(n, next, size, overlap, j);
      var rest := SpansFrom(n, next, size, overlap);
      assert SpansAfter(n, start, size, overlap) == rest;
      assert spans == [Span(start, start + size)] + rest;
      var k :| 0 <= k < |rest| && rest[k].start <= j < rest[k].end;
      assert spans[k + 1] == rest[k];
      assert spans[k + 1].start <= j < spans[k + 1].end;
    }
  }

  /** Blank windows are dropped and nothing else is invented. */
  lemma {:induction false} NonBlankWindowsMembers(f: Span -> string, spans: seq<Span>)
    ensures forall x :: x in NonBlankWindows(f, spans) ==> !IsBlank(x, Python) && exists w :: w in spans && x == f(w)
  {
    if spans != [] {
      NonBlankWindowsMembers(f, spans[1..]);
      forall x | x in NonBlankWindows(f, spans) ensures !IsBlank(x, Python) && exists w :: w in spans && x == f(w) {
        if x in NonBlankWindows(f, spans[1..]) {
          var w :| w in spans[1..] && x == f(w);
          assert w in spans;
        } else {
          assert x == f(spans[0]);
        }
      }
    }
  }

  /** Every chunk is a non-blank window of at most `size` characters; an empty text has no chunks. */
  lemma ChunkBounds(text: string, size: nat, overlap: nat)
    requires overlap < size
    ensures text == [] ==> Chunks(text, size, overlap) == []
    ensures forall c :: c in Chunks(text, size, overlap) ==> 0 < |c| <= size && !IsBlank(c, Python)
  {
    var spans := Spans(|text|, size, overlap);
    NonBlankWindowsMembers(Window(text), spans);
    SpansFromStarts(|text|, 0, size, overlap);
    forall c | c in Chunks(text, size, overlap) ensures 0 < |c| <= size && !IsBlank(c, Python) {
      var w :| w in spans && c == Window(text)(w);
      PySliceBounds(text, w.start, w.end);
    }
  }

  /** A non-blank text no longer than one window is a single chunk, the text itself. */
  lemma ShortTextIsOneChunk(text: string, size: nat, overlap: nat)
    requires overlap < size && |text| <= size && !IsBlank(text, Python)
    ensures Chunks(text, size, overlap) == [text]
  {
    assert text != [];
    NonBlankWindowsStep(Window(text), |text|, 0, size, overlap);
    assert SpansAfter(|text|, 0, size, overlap) == [];
    assert text[0..|text|] == text;
  }

  /** With the fixed 3000/300 parameters a 7000-character text is cut at 0, 2700 and 5400, the last window running past the end. */
  lemma SevenThousandCharacters()
    ensures Spans(7000, 3000, 300) == [Span(0, 3000), Span(2700, 5700), Span(5400, 8400)]
  {
    assert SpansFrom(7000, 5400, 3000, 300) == [Span(5400, 8400)];
    assert SpansFrom(7000, 2700, 3000, 300) == [Span(2700, 5700), Span(5400, 8400)];
  }

  /** On such a text the three windows hold `text[0:3000]`, `text[2700:5700]` and the clamped `text[5400:7000]`. */
  lemma SevenThousandCharacterWindows(text: string)
    requires |text| == 7000
    ensures var spans := Spans(|text|, 3000, 300);
      && Window(text)(spans[0]) == text[0..3000]
      && Window(text)(spans[1]) == text[2700..5700]
      && Window(text)(spans[2]) == text[5400..7000]
  {
    SevenThousandCharacters();
    WindowAt(text, 3000, 300, 0);
    WindowAt(text, 3000, 300, 1);
    WindowAt(text, 3000, 300, 2);
  }

  // ---------------------------------------------------------------------------
  // process_pdf_file: numbering the chunks
  // ---------------------------------------------------------------------------

  /** Values the source draws from `uuid.uuid4()` and the clock, given here as inputs. */
  datatype Fresh = Fresh(fileId: string, documentId: string, chunkId: nat -> string, createdAt: nat -> Timestamp)

  /** What `process_pdf_file` returns. */
  datatype ProcessedFile = ProcessedFile(
    fileId: string,
    documentId: string,
    title: string,
    className: string,
    subjectName: string,
    chunks: seq<DocumentChunk>,
    totalChunks: nat,
    totalTextLength: nat)

  const ChunkSize: nat := 3000
  const Overlap: nat := 300

  /** The provenance recorded on every chunk of a file. */
  function ChunkMetadata(title: string, userId: string, totalChunks: nat): map<string, Value> {
    map[
      "title" := Str(title),
      "user_id" := Str(userId),
      "total_chunks" := Int(totalChunks),
      "chunk_size" := Int(ChunkSize),
      "overlap" := Int(Overlap),
      "processor" := Str("unstructured"),
      "mime_type" := Str("application/pdf")
    ]
  }

  /** The chunk records `process_pdf_file` builds: the i-th text chunk numbered i, with the file's ids and provenance. */
  function NumberedChunks(fullText: string, title: string, className: string, subjectName: string,
                          userId: string, src: Fresh): seq<DocumentChunk>
  {
    var textChunks := Chunks(fullText, ChunkSize, Overlap);
    seq(|textChunks|, i requires 0 <= i < |textChunks| =>
      DocumentChunk(src.chunkId(i), src.documentId, textChunks[i], i, className, subjectName, src.fileId,
                    metadata := ChunkMetadata(title, userId, |textChunks|), createdAt := src.createdAt(i)))
  }

  /**
   * `DocumentProcessor.process_pdf_file` from the extracted text on: chunk i has index i,
   * the i-th text chunk as content, the file's and the document's ids, and metadata saying
   * how many chunks the file has.
   */
  method ProcessPdfFile(fullText: string, title: string, className: string, subjectName: string,
                        userId: string, src: Fresh) returns (r: ProcessedFile)
    ensures r.fileId == src.fileId && r.documentId == src.documentId && r.title == title
    ensures r.className == className && r.subjectName == subjectName
    ensures |r.chunks| == |Chunks(fullText, ChunkSize, Overlap)| == r.totalChunks
    ensures r.totalTextLength == |fullText|
    ensures r.chunks == NumberedChunks(fullText, title, className, subjectName, userId, src)
    ensures forall i :: 0 <= i < |r.chunks| ==>
      var c := r.chunks[i];
      && c.chunkIndex == i
      && c.content == Chunks(fullText, ChunkSize, Overlap)[i]
      && c.id == src.chunkId(i)
      && c.fileId == src.fileId && c.documentId == src.documentId
      && c.className == className && c.subjectName == subjectName
      && c.metadata == ChunkMetadata(title, userId, r.totalChunks)
      && c.denseEmbedding == [] && c.sparseEmbedding == []
      && c.createdAt == src.createdAt(i)
  {
    var textChunks := CreateChunksWithOverlap(fullText, ChunkSize, Overlap);
    var chunks: seq<DocumentChunk> := [];
    for i := 0 to |textChunks|
      invariant |chunks| == i
      invariant forall k :: 0 <= k < i ==>
        chunks[k] == DocumentChunk(src.chunkId(k), src.documentId, textChunks[k], k, className, subjectName,
                                   src.fileId, metadata := ChunkMetadata(title, userId, |textChunks|),
                                   createdAt := src.createdAt(k))
    {
      var chunk := DocumentChunk(src.chunkId(i), src.documentId, textChunks[i], i, className, subjectName,
                                 src.fileId, metadata := ChunkMetadata(title, userId, |textChunks|),
                                 createdAt := src.createdAt(i));
      chunks := chunks + [chunk];
    }
    r := ProcessedFile(src.fileId, src.documentId, title, className, subjectName,
                       chunks, |chunks|, |fullText|);
  }
}
