/**
 * The vector arithmetic of backend/rag/hybrid_vector_store.py: the md5-based fallback
 * embedding, the hashed term-frequency vector, the cosine zero guard and the score fusion.
 */
module Embeddings {
  import opened Text
  import opened Bytes

  // ---------------------------------------------------------------------------
  // The fallback dense embedding (`_simple_embedding`)
  // ---------------------------------------------------------------------------

  /** The 16 bytes of an md5 digest. */
  type Md5Digest = d: seq<Byte> | |d| == 16 witness [0, 0, 0, 0, 0, 0, 0, 0, 0, 0, 0, 0, 0, 0, 0, 0]

  const DenseDimensions: nat := 768
  const SparseFeatures: nat := 1000

  function HexDigit(n: nat): char
    requires n < 16
  {
    if n < 10 then ('0' as int + n) as char else ('a' as int + n - 10) as char
  }

  /** `hexdigest()`: two lower-case hex digits per byte, high nibble first. */
  function HexDigest(d: seq<Byte>): (h: string)
    ensures |h| == 2 * |d|
  {
    if d == [] then [] else [HexDigit(d[0] / 16), HexDigit(d[0] % 16)] + HexDigest(d[1..])
  }

  /** The value of one hex digit, as `int(c, 16)` reads it (upper or lower case); -1 for anything else. */
  function HexValue(c: char): int {
    if '0' <= c <= '9' then c as int - '0' as int
    else if 'a' <= c <= 'f' then c as int - 'a' as int + 10
    else if 'A' <= c <= 'F' then c as int - 'A' as int + 10
    else -1
  }

  /** `int(s, 16)` for a two-digit string of hex digits. */
  function ParseHexPair(s: string): int
    requires |s| == 2
  {
    16 * HexValue(s[0]) + HexValue(s[1])
  }

  lemma HexDigitValue(n: nat)
    requires n < 16
    ensures HexValue(HexDigit(n)) == n
  {
  }

  /** Reading back the k-th pair of hex digits gives the k-th byte. */
  lemma {:induction false} HexDigestPair(d: seq<Byte>, k: nat)
    requires k < |d|
    ensures ParseHexPair(HexDigest(d)[2 * k..2 * k + 2]) == d[k]
  {
    if k == 0 {
      HexDigitValue(d[0] / 16);
      HexDigitValue(d[0] % 16);
      assert HexDigest(d)[0..2] == [HexDigit(d[0] / 16), HexDigit(d[0] % 16)];
    } else {
      HexDigestPair(d[1..], k - 1);
      assert HexDigest(d)[2 * k..2 * k + 2] == HexDigest(d[1..])[2 * (k - 1)..2 * (k - 1) + 2];
    }
  }

  /** What `_simple_embedding` returns for a text with md5 digest `d`. */
  function FallbackEmbedding(d: Md5Digest): (e: seq<real>)
    ensures |e| == DenseDimensions
    ensures forall i :: 0 <= i < |e| ==> 0.0 <= e[i] <= 1.0
    ensures forall i :: 16 <= i < |e| ==> e[i] == 0.0
  {
    seq(DenseDimensions, i requires 0 <= i < DenseDimensions => if i < 16 then d[i] as real / 255.0 else 0.0)
  }

  /**
   * `HybridVectorStore._simple_embedding` from the digest on: one value per hex pair of the
   * digest, scaled to [0, 1], then zero padding up to 768 entries.
   */
  method SimpleEmbedding(digest: Md5Digest) returns (embedding: seq<real>)
    ensures embedding == FallbackEmbedding(digest)
    ensures forall i :: 0 <= i < 16 ==> embedding[i] == digest[i] as real / 255.0
  {
    var hashHex := HexDigest(digest);
    embedding := [];
    var i := 0;
    while i < |hashHex|
      invariant 0 <= i <= |hashHex| && i % 2 == 0
      invariant |embedding| == i / 2
      invariant forall k :: 0 <= k < |embedding| ==> embedding[k] == digest[k] as real / 255.0
    {
      if |embedding| >= DenseDimensions {
        break;
      }
      HexDigestPair(digest, i / 2);
      embedding := embedding + [ParseHexPair(hashHex[i..i + 2]) as real / 255.0];
      i := i + 2;
    }
    while |embedding| < DenseDimensions
      invariant 16 <= |embedding| <= DenseDimensions
      invariant forall k :: 0 <= k < 16 ==> embedding[k] == digest[k] as real / 255.0
      invariant forall k :: 16 <= k < |embedding| ==> embedding[k] == 0.0
    {
      embedding := embedding + [0.0];
    }
    embedding := embedding[..DenseDimensions];
  }

  // ---------------------------------------------------------------------------
  // The hashed term-frequency vector (`get_sparse_embedding`)
  // ---------------------------------------------------------------------------

  /** `word.isalnum() and len(word) > 2`, on ASCII letters and digits. */
  predicate Meaningful(w: string) {
    |w| > 2 && forall i :: 0 <= i < |w| ==> IsAsciiAlnum(w[i])
  }

  /** The meaningful words, in order. */
  function Terms(words: seq<string>): seq<string> {
    if words == [] then []
    else
      var last := words[|words| - 1];
      Terms(words[..|words| - 1]) + (if Meaningful(last) then [last] else [])
  }

  /** How often `w` occurs. */
  function Count(ws: seq<string>, w: string): nat {
    if ws == [] then 0 else Count(ws[..|ws| - 1], w) + (if ws[|ws| - 1] == w then 1 else 0)
  }

  /** The distinct words in order of first occurrence: the key order of a dict filled from `ws`. */
  function Distinct(ws: seq<string>): seq<string> {
    if ws == [] then []
    else
      var ks := Distinct(ws[..|ws| - 1]);
      var last := ws[|ws| - 1];
      if last in ks then ks else ks + [last]
  }

  /** Every term is a meaningful word of the input. */
  lemma {:induction false} TermsMeaningful(words: seq<string>, w: string)
    requires w in Terms(words)
    ensures w in words && Meaningful(w)
  {
    var init := words[..|words| - 1];
    if w in Terms(init) {
      TermsMeaningful(init, w);
    }
  }

  /** `Distinct` keeps every word once, in order of first occurrence, and loses none. */
  lemma {:induction false} DistinctSpec(ws: seq<string>)
    ensures forall w :: w in Distinct(ws) <==> w in ws
    ensures forall i, j :: 0 <= i < j < |Distinct(ws)| ==> Distinct(ws)[i] != Distinct(ws)[j]
  {
    if ws != [] {
      var init := ws[..|ws| - 1];
      DistinctSpec(init);
      assert ws == init + [ws[|ws| - 1]];
    }
  }

  /** Slot `j` after assigning `freq[k]` to slot `hash(k) % 1000` for each key in order: the last assignment wins. */
  function Slot(keys: seq<string>, freq: map<string, nat>, hash: string -> int, j: int): real {
    if keys == [] then 0.0
    else
      var last := keys[|keys| - 1];
      if hash(last) % SparseFeatures == j then (if last in freq then freq[last] else 0) as real
      else Slot(keys[..|keys| - 1], freq, hash, j)
  }

  /** The word counts `word_freq` holds once every word has been seen. */
  function Frequencies(terms: seq<string>): map<string, nat> {
    map w | w in terms :: Count(terms, w)
  }

  /** What `get_sparse_embedding(text)` returns, given Python's `hash`. */
  function SparseVector(text: string, hash: string -> int): (v: seq<real>)
    ensures |v| == SparseFeatures
  {
    var terms := Terms(Words(Lower(text)));
    seq(SparseFeatures, j => Slot(Distinct(terms), Frequencies(terms), hash, j))
  }

  /**
   * `HybridVectorStore.get_sparse_embedding`: count the meaningful lower-cased words in a dict,
   * then write each word's count into the slot its hash selects.
   */
  method SparseEmbedding(text: string, hash: string -> int) returns (sparseVector: seq<real>)
    ensures sparseVector == SparseVector(text, hash)
  {
    var words := Words(Lower(text));
    var wordFreq, keys := CountTerms(words);
    DistinctSpec(Terms(words));
    sparseVector := FillSlots(keys, wordFreq, hash);
  }

  /** The counting loop of `get_sparse_embedding`; `keys` is the insertion order of the dict. */
  method CountTerms(words: seq<string>) returns (wordFreq: map<string, nat>, keys: seq<string>)
    ensures keys == Distinct(Terms(words))
    ensures wordFreq == Frequencies(Terms(words))
  {
    wordFreq := map[];
    keys := [];
    for i := 0 to |words|
      invariant keys == Distinct(Terms(words[..i]))
      invariant wordFreq == Frequencies(Terms(words[..i]))
    {
      var freq', keys' := CountWord(words[i], wordFreq, keys);
      TermsStep(words, i, words[i], wordFreq, keys, freq', keys');
      wordFreq, keys := freq', keys';
    }
    assert words[..|words|] == words;
  }

  /** One iteration of the counting loop: a meaningful word is counted and, when new, keyed. */
  method CountWord(word: string, freq: map<string, nat>, keys: seq<string>)
    returns (freq': map<string, nat>, keys': seq<string>)
    ensures freq' == if Meaningful(word) then freq[word := (if word in freq then freq[word] else 0) + 1] else freq
    ensures keys' == if Meaningful(word) && word !in keys then keys + [word] else keys
  {
    freq', keys' := freq, keys;
    if Meaningful(word) {
      freq' := freq[word := (if word in freq then freq[word] else 0) + 1];
      if word !in keys {
        keys' := keys + [word];
      }
    }
  }

  /** One step of the counting loop. */
  lemma TermsStep(words: seq<string>, i: nat, w: string, freq: map<string, nat>, keys: seq<string>,
                  freq': map<string, nat>, keys': seq<string>)
    requires i < |words| && w == words[i]
    requires freq == Frequencies(Terms(words[..i])) && keys == Distinct(Terms(words[..i]))
    requires freq' == if Meaningful(w) then freq[w := (if w in freq then freq[w] else 0) + 1] else freq
    requires keys' == if Meaningful(w) && w !in keys then keys + [w] else keys
    ensures keys' == Distinct(Terms(words[..i + 1]))
    ensures freq' == Frequencies(Terms(words[..i + 1]))
  {
    var ts := Terms(words[..i]);
    TermsPrefixStep(words, i);
    if Meaningful(w) {
      assert Terms(words[..i + 1]) == ts + [w];
      DistinctAppend(ts, w);
      FrequenciesAppend(ts, w);
    } else {
      assert Terms(words[..i + 1]) == ts + [] == ts;
    }
  }

  /** The terms of one more word are the terms so far, plus that word when it is meaningful. */
  lemma TermsPrefixStep(words: seq<string>, i: nat)
    requires i < |words|
    ensures Terms(words[..i + 1]) == Terms(words[..i]) + (if Meaningful(words[i]) then [words[i]] else [])
  {
    assert words[..i + 1][..i] == words[..i];
  }

  /** One more term is appended to the distinct terms exactly when it is new. */
  lemma DistinctAppend(ts: seq<string>, w: string)
    ensures Distinct(ts + [w]) == if w in Distinct(ts) then Distinct(ts) else Distinct(ts) + [w]
  {
    assert (ts + [w])[..|ts|] == ts;
  }

  /** Counting one more occurrence of `w`. */
  lemma FrequenciesAppend(ts: seq<string>, w: string)
    ensures var freq := Frequencies(ts);
      Frequencies(ts + [w]) == freq[w := (if w in freq then freq[w] else 0) + 1]
  {
    var ts' := ts + [w];
    assert ts'[..|ts|] == ts;
    if w !in ts {
      CountNotIn(ts, w);
    }
    forall u | u in ts'
      ensures Count(ts', u) == Count(ts, u) + (if u == w then 1 else 0)
    {
    }
  }

  /** The slot-filling loop of `get_sparse_embedding`, on a 1000-entry array of zeros. */
  method FillSlots(keys: seq<string>, wordFreq: map<string, nat>, hash: string -> int) returns (v: seq<real>)
    requires forall k :: k in keys ==> k in wordFreq
    ensures |v| == SparseFeatures
    ensures forall j :: 0 <= j < SparseFeatures ==> v[j] == Slot(keys, wordFreq, hash, j)
  {
    var sparse := new real[SparseFeatures](_ => 0.0);
    for k := 0 to |keys|
      invariant forall j :: 0 <= j < SparseFeatures ==> sparse[j] == Slot(keys[..k], wordFreq, hash, j)
    {
      var word := keys[k];
      assert keys[..k + 1][..k] == keys[..k];
      sparse[hash(word) % SparseFeatures] := wordFreq[word] as real;
    }
    assert keys[..|keys|] == keys;
    v := sparse[..];
  }

  lemma {:induction false} CountNotIn(ws: seq<string>, w: string)
    requires w !in ws
    ensures Count(ws, w) == 0
  {
    if ws != [] {
      CountNotIn(ws[..|ws| - 1], w);
    }
  }

  /** A slot is 0.0 unless some key hashes to it. */
  lemma {:induction false} SlotUnhit(keys: seq<string>, freq: map<string, nat>, hash: string -> int, j: int)
    requires forall k :: k in keys ==> hash(k) % SparseFeatures != j
    ensures Slot(keys, freq, hash, j) == 0.0
  {
    if keys != [] {
      SlotUnhit(keys[..|keys| - 1], freq, hash, j);
    }
  }

  /** A slot some key hashes to holds the count of the last such key: assignment, not a sum. */
  lemma {:induction false} SlotLastWriter(keys: seq<string>, freq: map<string, nat>, hash: string -> int, i: nat)
    requires i < |keys|
    requires forall k :: i < k < |keys| ==> hash(keys[k]) % SparseFeatures != hash(keys[i]) % SparseFeatures
    ensures Slot(keys, freq, hash, hash(keys[i]) % SparseFeatures) == (if keys[i] in freq then freq[keys[i]] else 0) as real
  {
    if i < |keys| - 1 {
      SlotLastWriter(keys[..|keys| - 1], freq, hash, i);
    }
  }

  /** Only meaningful words of the lower-cased text reach the vector, each with its number of occurrences. */
  lemma SparseVectorSlots(text: string, hash: string -> int, j: nat)
    requires j < SparseFeatures
    ensures var terms := Terms(Words(Lower(text)));
      && ((forall w :: w in terms ==> hash(w) % SparseFeatures != j) ==> SparseVector(text, hash)[j] == 0.0)
      && (SparseVector(text, hash)[j] != 0.0 ==>
            exists w :: w in terms && Meaningful(w) && hash(w) % SparseFeatures == j
                        && SparseVector(text, hash)[j] == Count(terms, w) as real)
  {
    var terms := Terms(Words(Lower(text)));
    var keys := Distinct(terms);
    var freq := Frequencies(terms);
    var v := SparseVector(text, hash);
    assert v[j] == Slot(keys, freq, hash, j);
    DistinctSpec(terms);
    if forall w :: w in terms ==> hash(w) % SparseFeatures != j {
      SlotUnhit(keys, freq, hash, j);
    }
    if v[j] != 0.0 {
      SlotNonZero(keys, freq, hash, j);
      var k :| k in keys && hash(k) % SparseFeatures == j && Slot(keys, freq, hash, j) == (if k in freq then freq[k] else 0) as real;
      TermsMeaningful(Words(Lower(text)), k);
      assert k in terms && Meaningful(k) && hash(k) % SparseFeatures == j && v[j] == Count(terms, k) as real;
    }
  }

  lemma {:induction false} SlotNonZero(keys: seq<string>, freq: map<string, nat>, hash: string -> int, j: int)
    requires Slot(keys, freq, hash, j) != 0.0
    ensures exists k :: k in keys && hash(k) % SparseFeatures == j && Slot(keys, freq, hash, j) == (if k in freq then freq[k] else 0) as real
  {
    var last := keys[|keys| - 1];
    if hash(last) % SparseFeatures != j {
      SlotNonZero(keys[..|keys| - 1], freq, hash, j);
      var k :| k in keys[..|keys| - 1] && hash(k) % SparseFeatures == j && Slot(keys[..|keys| - 1], freq, hash, j) == (if k in freq then freq[k] else 0) as real;
      assert k in keys;
    }
  }

  // ---------------------------------------------------------------------------
  // Cosine similarity and score fusion
  // ---------------------------------------------------------------------------

  /** `np.linalg.norm(v) == 0`, which for real entries holds exactly when every entry is zero. */
  predicate ZeroNorm(v: seq<real>) {
    forall i :: 0 <= i < |v| ==> v[i] == 0.0
  }

  /**
   * `_cosine_similarity`: 0.0 when either vector has zero norm; 0.0 when the lengths differ
   * (`np.dot` raises and the handler returns 0.0); otherwise `quotient`, the floating-point
   * value of dot / (norm1 * norm2).
   */
  function CosineSimilarity(v1: seq<real>, v2: seq<real>, quotient: (seq<real>, seq<real>) -> real): (r: real)
    ensures ZeroNorm(v1) || ZeroNorm(v2) ==> r == 0.0
    ensures |v1| != |v2| ==> r == 0.0
    ensures !ZeroNorm(v1) && !ZeroNorm(v2) && |v1| == |v2| ==> r == quotient(v1, v2)
  {
    if ZeroNorm(v1) || ZeroNorm(v2) then 0.0
    else if |v1| != |v2| then 0.0
    else quotient(v1, v2)
  }

  /** The normalisation of a raw BM25 score in `hybrid_search`. */
  function NormalizeSparse(s: real): real {
    if s > 0.0 then
      var lo := if s < 0.0 then s else 0.0;
      var hi := if s > 1.0 then s else 1.0;
      (s - lo) / (hi - lo)
    else s
  }

  /** A positive score becomes min(s, 1); anything else is left as it is. */
  lemma NormalizeSparseIsMin(s: real)
    ensures s > 0.0 ==> NormalizeSparse(s) == (if s < 1.0 then s else 1.0)
    ensures s > 0.0 ==> 0.0 < NormalizeSparse(s) <= 1.0
    ensures s <= 0.0 ==> NormalizeSparse(s) == s
  {
    if s > 1.0 {
      assert (s - 0.0) / (s - 0.0) == 1.0;
    }
  }

  /** Normalising twice is normalising once. */
  lemma NormalizeSparseIdempotent(s: real)
    ensures NormalizeSparse(NormalizeSparse(s)) == NormalizeSparse(s)
  {
    NormalizeSparseIsMin(s);
    NormalizeSparseIsMin(NormalizeSparse(s));
  }

  const DefaultDenseWeight: real := 0.7
  const DefaultSparseWeight: real := 0.3

  /** The hybrid score: a weighted sum of the dense and the normalised sparse similarity. */
  function HybridScore(denseWeight: real, dense: real, sparseWeight: real, sparse: real): real {
    denseWeight * dense + sparseWeight * sparse
  }

  /** With the default weights and both similarities in [0, 1], the hybrid score is in [0, 1] too. */
  lemma HybridScoreBounds(dense: real, sparse: real)
    requires 0.0 <= dense <= 1.0 && 0.0 <= sparse <= 1.0
    ensures 0.0 <= HybridScore(DefaultDenseWeight, dense, DefaultSparseWeight, sparse) <= 1.0
  {
  }

  /** The hybrid score grows with each similarity when the weights are non-negative. */
  lemma HybridScoreMonotone(dw: real, d1: real, d2: real, sw: real, s1: real, s2: real)
    requires dw >= 0.0 && sw >= 0.0 && d1 <= d2 && s1 <= s2
    ensures HybridScore(dw, d1, sw, s1) <= HybridScore(dw, d2, sw, s2)
  {
    assert dw * d1 <= dw * d2 && sw * s1 <= sw * s2;
  }
}
