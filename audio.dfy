/**
 * The audio helpers of backend/ai/llmasssist.py: reading the sample size and rate out of
 * an audio MIME type such as "audio/L16;rate=24000", and wrapping raw PCM data in the
 * 44-byte RIFF/WAVE header.
 */
module Audio {
  import opened Wrappers
  import opened Text
  import opened Bytes

  // ---------------------------------------------------------------- Python's int()

  /** The digits of `int()`'s argument: digits, with single underscores allowed between them. */
  predicate DigitGroups(s: string) {
    && s != [] && IsDigit(s[0]) && IsDigit(s[|s| - 1])
    && (forall i :: 0 <= i < |s| ==> IsDigit(s[i]) || s[i] == '_')
    && (forall i :: 0 <= i < |s| - 1 ==> !(s[i] == '_' && s[i + 1] == '_'))
  }

  function RemoveUnderscores(s: string): (r: string)
    ensures (forall i :: 0 <= i < |s| ==> IsDigit(s[i]) || s[i] == '_') ==> AllDigits(r)
  {
    if s == [] then [] else (if s[0] == '_' then [] else [s[0]]) + RemoveUnderscores(s[1..])
  }

  /** `int()` after stripping: an optional sign, then digit groups. */
  function ParseSigned(t: string): Option<int> {
    if t == [] then None
    else
      var negative := t[0] == '-';
      var body := if t[0] == '-' || t[0] == '+' then t[1..] else t;
      if !DigitGroups(body) then None
      else
        var v: int := DigitsValue(RemoveUnderscores(body));
        Some(if negative then -v else v)
  }

  /** Python's `int(s)` on a string: `None` where it raises ValueError. */
  function PyInt(s: string): Option<int> {
    ParseSigned(Strip(s, Python))
  }

  lemma {:induction false} RemoveUnderscoresOfDigits(s: string)
    requires AllDigits(s)
    ensures RemoveUnderscores(s) == s
  {
    if s != [] {
      RemoveUnderscoresOfDigits(s[1..]);
    }
  }

  /** A rendered number is one digit group and reads back as itself. */
  lemma DecimalDigits(n: nat)
    ensures DigitGroups(NatToString(n))
    ensures DigitsValue(RemoveUnderscores(NatToString(n))) == n
  {
    RemoveUnderscoresOfDigits(NatToString(n));
    DigitsValueOfNatToString(n);
  }

  /** `int()` reads back what `str()` renders. */
  lemma PyIntOfDecimal(n: nat)
    ensures PyInt(NatToString(n)) == Some(n)
  {
    var d := NatToString(n);
    StripUnpadded(d, Python);
    DecimalDigits(n);
  }

  /** `int()` reads a minus sign in front of a rendered number as its negation. */
  lemma {:induction false} PyIntOfNegative(n: nat)
    ensures PyInt("-" + NatToString(n)) == Some(-(n as int))
  {
    DecimalDigits(n);
    PyIntOfNegativeGroup(NatToString(n), n);
  }

  /** `int()` reads a minus sign in front of a digit group as its negation. */
  lemma PyIntOfNegativeGroup(d: string, v: nat)
    requires DigitGroups(d) && DigitsValue(RemoveUnderscores(d)) == v
    ensures PyInt("-" + d) == Some(-(v as int))
  {
    NegativeUnpadded(d);
    ParseNegative(d, v);
  }

  /** A minus sign before a digit group leaves nothing for `strip()` to remove. */
  lemma NegativeUnpadded(d: string)
    requires DigitGroups(d)
    ensures Strip("-" + d, Python) == "-" + d
  {
    var m := "-" + d;
    assert m[|m| - 1] == d[|d| - 1];
    StripUnpadded(m, Python);
  }

  /** A minus sign before a digit group negates its value. */
  lemma ParseNegative(d: string, v: nat)
    requires DigitGroups(d) && DigitsValue(RemoveUnderscores(d)) == v
    ensures ParseSigned("-" + d) == Some(-(v as int))
  {
    var m := "-" + d;
    assert m[0] == '-' && m[1..] == d;
  }

  /** A blank string is not a number. */
  lemma PyIntRejectsBlank(s: string)
    requires IsBlank(s, Python)
    ensures PyInt(s) == None
  {
    StripEmptyIffBlank(s, Python);
  }

  // ---------------------------------------------------------------- parse_audio_mime_type

  datatype AudioParams = AudioParams(bitsPerSample: int, rate: int)

  const DefaultParams: AudioParams := AudioParams(16, 24000)

  /** `s.split(c, 1)[1]` for a string that contains `c`. */
  function AfterFirst(s: string, c: char): string
    requires c in s
  {
    s[IndexOf(s, c) + 1..]
  }

  /** What one ";"-separated part does: set the rate, set the sample size, or nothing. */
  datatype ParamKind = Rate(value: Option<int>) | Bits(value: Option<int>) | Other

  /**
   * A part that, once stripped, starts with "rate=" in any case carries the integer after its
   * first "="; otherwise one that starts with exactly "audio/L" carries the integer after its
   * first "L". `None` marks a value `int()` rejects.
   */
  function ClassifyParam(raw: string): ParamKind {
    var param := Strip(raw, Python);
    if StartsWith(Lower(param), "rate=") then
      assert Lower(param)[4] == '=';
      Rate(PyInt(AfterFirst(param, '=')))
    else if StartsWith(param, "audio/L") then
      assert param[6] == 'L';
      Bits(PyInt(AfterFirst(param, 'L')))
    else Other
  }

  function Classify(parts: seq<string>): (ks: seq<ParamKind>)
    ensures |ks| == |parts| && forall i :: 0 <= i < |parts| ==> ks[i] == ClassifyParam(parts[i])
  {
    seq(|parts|, i requires 0 <= i < |parts| => ClassifyParam(parts[i]))
  }

  /** One pass of the loop: a valid value overrides the one before, an invalid one is ignored. */
  function ApplyParam(acc: AudioParams, k: ParamKind): AudioParams {
    match k
    case Rate(Some(r)) => acc.(rate := r)
    case Bits(Some(b)) => acc.(bitsPerSample := b)
    case _ => acc
  }

  /** The parameters after the loop has seen parts of kinds `ks`. */
  function ParamsAfter(ks: seq<ParamKind>): AudioParams {
    if ks == [] then DefaultParams else ApplyParam(ParamsAfter(ks[..|ks| - 1]), ks[|ks| - 1])
  }

  /** What `parse_audio_mime_type` returns. */
  function MimeParams(mimeType: string): AudioParams {
    ParamsAfter(Classify(SplitOn(mimeType, ';')))
  }

  predicate SetsRate(k: ParamKind) {
    k.Rate? && k.value.Some?
  }

  predicate SetsBits(k: ParamKind) {
    k.Bits? && k.value.Some?
  }

  lemma ParamsStep(ks: seq<ParamKind>, i: nat)
    requires i < |ks|
    ensures ParamsAfter(ks[..i + 1]) == ApplyParam(ParamsAfter(ks[..i]), ks[i])
  {
    assert ks[..i + 1][..i] == ks[..i];
  }

  /** `parse_audio_mime_type`: walk the ";"-separated parts in order. */
  method ParseAudioMimeType(mimeType: string) returns (p: AudioParams)
    ensures p == MimeParams(mimeType)
  {
    var bitsPerSample := 16;
    var rate := 24000;
    var parts := SplitOn(mimeType, ';');
    ghost var kinds := Classify(parts);
    for i := 0 to |parts|
      invariant AudioParams(bitsPerSample, rate) == ParamsAfter(kinds[..i])
    {
      ParamsStep(kinds, i);
      bitsPerSample, rate := ApplyPart(parts[i], bitsPerSample, rate);
    }
    assert kinds[..|parts|] == kinds;
    p := AudioParams(bitsPerSample, rate);
  }

  /** One iteration of the loop in `parse_audio_mime_type`, on one raw part. */
  method ApplyPart(part: string, bitsPerSample: int, rate: int) returns (bits': int, rate': int)
    ensures AudioParams(bits', rate') == ApplyParam(AudioParams(bitsPerSample, rate), ClassifyParam(part))
  {
    bits', rate' := bitsPerSample, rate;
    var param := Strip(part, Python);
    if StartsWith(Lower(param), "rate=") {
      assert Lower(param)[4] == '=';
      var v := PyInt(AfterFirst(param, '='));
      if v.Some? {
        rate' := v.value;
      }
    } else if StartsWith(param, "audio/L") {
      assert param[6] == 'L';
      var v := PyInt(AfterFirst(param, 'L'));
      if v.Some? {
        bits' := v.value;
      }
    }
  }

  /**
   * The rate is 24000 unless some part sets a valid rate, and then it is the rate of the
   * last such part.
   */
  lemma {:induction false} RateAfterSpec(ks: seq<ParamKind>)
    ensures (forall i :: 0 <= i < |ks| ==> !SetsRate(ks[i])) ==> ParamsAfter(ks).rate == DefaultParams.rate
    ensures forall i :: 0 <= i < |ks| && SetsRate(ks[i]) && (forall j :: i < j < |ks| ==> !SetsRate(ks[j])) ==>
      ParamsAfter(ks).rate == ks[i].value.value
  {
    if ks != [] {
      var init, last := ks[..|ks| - 1], ks[|ks| - 1];
      RateAfterSpec(init);
      assert ParamsAfter(ks).rate == if SetsRate(last) then last.value.value else ParamsAfter(init).rate;
      forall i | 0 <= i < |ks| && SetsRate(ks[i]) && (forall j :: i < j < |ks| ==> !SetsRate(ks[j]))
        ensures ParamsAfter(ks).rate == ks[i].value.value
      {
        if i < |init| {
          assert init[i] == ks[i] && !SetsRate(ks[|ks| - 1]);
          forall j | i < j < |init| ensures !SetsRate(init[j]) {
            assert init[j] == ks[j];
          }
        }
      }
      if forall i :: 0 <= i < |ks| ==> !SetsRate(ks[i]) {
        forall i | 0 <= i < |init| ensures !SetsRate(init[i]) {
          assert init[i] == ks[i];
        }
      }
    }
  }

  /** The same for the sample size, with default 16. */
  lemma {:induction false} BitsAfterSpec(ks: seq<ParamKind>)
    ensures (forall i :: 0 <= i < |ks| ==> !SetsBits(ks[i])) ==> ParamsAfter(ks).bitsPerSample == DefaultParams.bitsPerSample
    ensures forall i :: 0 <= i < |ks| && SetsBits(ks[i]) && (forall j :: i < j < |ks| ==> !SetsBits(ks[j])) ==>
      ParamsAfter(ks).bitsPerSample == ks[i].value.value
  {
    if ks != [] {
      var init, last := ks[..|ks| - 1], ks[|ks| - 1];
      BitsAfterSpec(init);
      assert ParamsAfter(ks).bitsPerSample == if SetsBits(last) then last.value.value else ParamsAfter(init).bitsPerSample;
      forall i | 0 <= i < |ks| && SetsBits(ks[i]) && (forall j :: i < j < |ks| ==> !SetsBits(ks[j]))
        ensures ParamsAfter(ks).bitsPerSample == ks[i].value.value
      {
        if i < |init| {
          assert init[i] == ks[i] && !SetsBits(ks[|ks| - 1]);
          forall j | i < j < |init| ensures !SetsBits(init[j]) {
            assert init[j] == ks[j];
          }
        }
      }
      if forall i :: 0 <= i < |ks| ==> !SetsBits(ks[i]) {
        forall i | 0 <= i < |init| ensures !SetsBits(init[i]) {
          assert init[i] == ks[i];
        }
      }
    }
  }

  /** A MIME type with no ";" and no rate or sample-size prefix keeps both defaults. */
  lemma BareTypeDefaults(mimeType: string)
    requires ';' !in mimeType && ClassifyParam(mimeType) == Other
    ensures MimeParams(mimeType) == DefaultParams
  {
    assert SplitOn(mimeType, ';') == [mimeType];
    var ks := Classify([mimeType]);
    assert ks == [Other];
    assert ks[..0] == [];
    assert ParamsAfter(ks) == ApplyParam(ParamsAfter([]), Other);
  }

  /** The part "audio/L<b>". */
  function SampleSizeParam(b: nat): string {
    "audio/L" + NatToString(b)
  }

  /** The part "rate=<r>". */
  function RateParam(r: nat): string {
    "rate=" + NatToString(r)
  }

  /** An unpadded part that begins with exactly "audio/L" reads its size after that prefix. */
  lemma ClassifyAsBits(param: string)
    requires Strip(param, Python) == param && |param| >= 7 && param[..7] == "audio/L"
    ensures ClassifyParam(param) == Bits(PyInt(param[7..]))
  {
    assert param[0] == 'a';
    NotRatePrefix(param);
    SampleSizeValue(param);
  }

  /** A part starting with 'a' is not a rate parameter. */
  lemma NotRatePrefix(param: string)
    requires |param| >= 5 && param[0] == 'a'
    ensures !StartsWith(Lower(param), "rate=")
  {
    var l := Lower(param);
    assert l[0] == LowerChar(param[0]) == 'a';
    assert l[..5][0] != "rate="[0];
  }

  /** The text after the first "L" of "audio/L..." is what follows the prefix. */
  lemma SampleSizeValue(param: string)
    requires |param| >= 7 && param[..7] == "audio/L"
    ensures 'L' in param && AfterFirst(param, 'L') == param[7..]
  {
    assert param[6] == 'L';
    assert 'L' !in param[..6] by {
      assert param[..6] == "audio/";
    }
  }

  /** An unpadded part whose lower-cased form begins with "rate=" reads its rate after the "=". */
  lemma ClassifyAsRate(param: string)
    requires Strip(param, Python) == param && |param| >= 5 && Lower(param)[..5] == "rate=" && param[..4] == "rate" && param[4] == '='
    ensures ClassifyParam(param) == Rate(PyInt(param[5..]))
  {
    assert StartsWith(Lower(param), "rate=");
    assert AfterFirst(param, '=') == param[5..] by {
      assert param[4] == '=';
      assert '=' !in param[..4];
    }
  }

  /** "audio/L<b>" classifies as a sample size of b. */
  lemma SampleSizePart(b: nat)
    ensures ';' !in SampleSizeParam(b)
    ensures ClassifyParam(SampleSizeParam(b)) == Bits(Some(b))
  {
    var d := NatToString(b);
    var part := "audio/L" + d;
    NumberedNoSemicolon("audio/L", b);
    assert part[|part| - 1] == d[|d| - 1];
    StripUnpadded(part, Python);
    assert part[..7] == "audio/L" && part[7..] == d;
    ClassifyAsBits(part);
    PyIntOfDecimal(b);
  }

  /** "rate=<r>" classifies as a rate of r. */
  lemma RatePart(r: nat)
    ensures ';' !in RateParam(r)
    ensures ClassifyParam(RateParam(r)) == Rate(Some(r))
  {
    var d := NatToString(r);
    var part := "rate=" + d;
    NumberedNoSemicolon("rate=", r);
    assert part[|part| - 1] == d[|d| - 1];
    StripUnpadded(part, Python);
    assert part[..4] == "rate" && part[4] == '=' && part[5..] == d;
    assert Lower(part) == part by {
      forall i | 0 <= i < |part| ensures !('A' <= part[i] <= 'Z') {
        if i >= 5 {
          assert part[i] == d[i - 5];
        }
      }
      LowerKeepsLowercase(part);
    }
    ClassifyAsRate(part);
    PyIntOfDecimal(r);
  }

  /** A prefix without ";" followed by a number has no ";". */
  lemma NumberedNoSemicolon(prefix: string, n: nat)
    requires ';' !in prefix
    ensures ';' !in prefix + NatToString(n)
  {
    var d := NatToString(n);
    forall i | 0 <= i < |prefix + d| ensures (prefix + d)[i] != ';' {
      if i >= |prefix| {
        assert (prefix + d)[i] == d[i - |prefix|];
      }
    }
  }

  /** Splitting two ";"-free parts joined by ";" gives the two parts back. */
  lemma SplitTwo(p1: string, p2: string)
    requires ';' !in p1 && ';' !in p2
    ensures SplitOn(p1 + ";" + p2, ';') == [p1, p2]
  {
    var m := p1 + ";" + p2;
    assert m[|p1|] == ';' && m[..|p1|] == p1;
    assert IndexOf(m, ';') == |p1|;
    assert m[|p1| + 1..] == p2;
  }

  /** Two parameters are applied left to right over the defaults. */
  lemma TwoParts(p1: string, p2: string)
    requires ';' !in p1 && ';' !in p2
    ensures MimeParams(p1 + ";" + p2) == ApplyParam(ApplyParam(DefaultParams, ClassifyParam(p1)), ClassifyParam(p2))
  {
    SplitTwo(p1, p2);
    var ks := Classify([p1, p2]);
    assert ks == [ClassifyParam(p1), ClassifyParam(p2)];
    assert ks[..1] == [ClassifyParam(p1)] && ks[..1][..0] == [];
    assert ParamsAfter(ks[..1]) == ApplyParam(DefaultParams, ClassifyParam(p1));
    assert ParamsAfter(ks) == ApplyParam(ParamsAfter(ks[..1]), ClassifyParam(p2));
  }

  /** "audio/L<b>;rate=<r>" gives sample size b and rate r. */
  lemma SampleSizeAndRate(b: nat, r: nat)
    ensures MimeParams(SampleSizeParam(b) + ";" + RateParam(r)) == AudioParams(b, r)
  {
    SampleSizePart(b);
    RatePart(r);
    TwoParts(SampleSizeParam(b), RateParam(r));
  }

  /** Later parts override earlier ones: of two rates the second wins. */
  lemma LastRateWins(r1: nat, r2: nat)
    ensures MimeParams(RateParam(r1) + ";" + RateParam(r2)) == AudioParams(16, r2)
  {
    RatePart(r1);
    RatePart(r2);
    TwoParts(RateParam(r1), RateParam(r2));
  }

  /** The MIME type the text-to-speech service reports reads as 16-bit samples at 24000 Hz. */
  lemma L16At24000()
    ensures MimeParams("audio/L16;rate=24000") == AudioParams(16, 24000)
  {
    assert NatToString(16) == "16";
    assert NatToString(24000) == "24000";
    assert SampleSizeParam(16) + ";" + RateParam(24000) == "audio/L16;rate=24000";
    SampleSizeAndRate(16, 24000);
  }

  // ---------------------------------------------------------------- convert_to_wav

  const HeaderSize: nat := 44
  const NumChannels: int := 1

  /** `bits_per_sample // 8`: Python floors, as Dafny does for a positive divisor. */
  function BlockAlign(p: AudioParams): int {
    NumChannels * (p.bitsPerSample / 8)
  }

  function ByteRate(p: AudioParams): int {
    p.rate * BlockAlign(p)
  }

  /** Every field `struct.pack` writes fits its width; otherwise it raises. */
  predicate Packable(p: AudioParams, dataSize: nat) {
    && 36 + dataSize < U32Limit
    && 0 <= p.rate < U32Limit
    && 0 <= ByteRate(p) < U32Limit
    && 0 <= BlockAlign(p) < U16Limit
    && 0 <= p.bitsPerSample < U16Limit
  }

  /** The RIFF chunk descriptor: "RIFF", the size of the rest of the file, "WAVE". */
  function RiffDescriptor(dataSize: nat): (h: seq<Byte>)
    requires 36 + dataSize < U32Limit
    ensures |h| == 12
  {
    Ascii("RIFF") + U32LE(36 + dataSize) + Ascii("WAVE")
  }

  /** The "fmt " sub-chunk: size 16, PCM format 1, one channel, rate, byte rate, block alignment, sample size. */
  function FmtChunk(p: AudioParams): (h: seq<Byte>)
    requires Packable(p, 0)
    ensures |h| == 24
  {
    Ascii("fmt ") + U32LE(16) + U16LE(1) + U16LE(NumChannels)
      + U32LE(p.rate) + U32LE(ByteRate(p)) + U16LE(BlockAlign(p)) + U16LE(p.bitsPerSample)
  }

  /** The "data" sub-chunk header: the tag and the data size. */
  function DataHeader(dataSize: nat): (h: seq<Byte>)
    requires dataSize < U32Limit
    ensures |h| == 8
  {
    Ascii("data") + U32LE(dataSize)
  }

  /** The header `struct.pack("<4sI4s4sIHHIIHH4sI", ...)` writes. */
  function WavHeader(p: AudioParams, dataSize: nat): (h: seq<Byte>)
    requires Packable(p, dataSize)
    ensures |h| == HeaderSize
  {
    RiffDescriptor(dataSize) + FmtChunk(p) + DataHeader(dataSize)
  }

  /** The WAV file: header then the audio unchanged, or the packing error. */
  function WavFile(audio: seq<Byte>, p: AudioParams): Result<seq<Byte>> {
    if Packable(p, |audio|) then Ok(WavHeader(p, |audio|) + audio)
    else Err("struct.error: argument out of range")
  }

  /** `convert_to_wav`: parse the MIME type, then pack the header in front of the data. */
  method ConvertToWav(audioData: seq<Byte>, mimeType: string) returns (r: Result<seq<Byte>>)
    ensures r == WavFile(audioData, MimeParams(mimeType))
  {
    var parameters := ParseAudioMimeType(mimeType);
    r := WavFile(audioData, parameters);
  }

  /** Packing succeeds exactly when the fields fit; the file is the 44-byte header followed by the data, unchanged. */
  lemma WavFileSpec(audio: seq<Byte>, p: AudioParams)
    ensures WavFile(audio, p).Ok? <==> Packable(p, |audio|)
    ensures WavFile(audio, p).Ok? ==>
      var f := WavFile(audio, p).value;
      |f| == HeaderSize + |audio| && f[HeaderSize..] == audio
  {
  }

  lemma {:induction false} RiffFields(dataSize: nat)
    requires 36 + dataSize < U32Limit
    ensures var h := RiffDescriptor(dataSize);
      h[0..4] == Ascii("RIFF") && ReadU32(h, 4) == 36 + dataSize && h[8..12] == Ascii("WAVE")
  {
    var x, y := Ascii("RIFF") + U32LE(36 + dataSize), Ascii("WAVE");
    ReadInConcat(x, y, 4);
    ReadInConcat(Ascii("RIFF"), U32LE(36 + dataSize), 0);
    U32RoundTrip(36 + dataSize);
  }

  lemma {:induction false} FmtFields(p: AudioParams)
    requires Packable(p, 0)
    ensures var h := FmtChunk(p);
      && h[0..4] == Ascii("fmt ") && ReadU32(h, 4) == 16 && ReadU16(h, 8) == 1 && ReadU16(h, 10) == NumChannels
      && ReadU32(h, 12) == p.rate && ReadU32(h, 16) == ByteRate(p)
      && ReadU16(h, 20) == BlockAlign(p) && ReadU16(h, 22) == p.bitsPerSample
  {
    U32RoundTrip(16);
    U16RoundTrip(1);
    U16RoundTrip(NumChannels);
    U32RoundTrip(p.rate);
    U32RoundTrip(ByteRate(p));
    U16RoundTrip(BlockAlign(p));
    U16RoundTrip(p.bitsPerSample);
  }

  lemma {:induction false} DataFields(dataSize: nat)
    requires dataSize < U32Limit
    ensures var h := DataHeader(dataSize); h[0..4] == Ascii("data") && ReadU32(h, 4) == dataSize
  {
    ReadInConcat(Ascii("data"), U32LE(dataSize), 0);
    U32RoundTrip(dataSize);
  }

  /**
   * Reading the header back gives the canonical layout: "RIFF", 36 + data size, "WAVE",
   * "fmt ", 16, PCM format 1, one channel, the rate, the byte rate, the block alignment, the
   * sample size, "data" and the data size, all little-endian.
   */
  lemma {:induction false} WavHeaderFields(p: AudioParams, dataSize: nat)
    requires Packable(p, dataSize)
    ensures var h := WavHeader(p, dataSize);
      && h[0..4] == Ascii("RIFF") && ReadU32(h, 4) == 36 + dataSize
      && h[8..12] == Ascii("WAVE") && h[12..16] == Ascii("fmt ")
      && ReadU32(h, 16) == 16 && ReadU16(h, 20) == 1 && ReadU16(h, 22) == NumChannels
      && ReadU32(h, 24) == p.rate && ReadU32(h, 28) == p.rate * (p.bitsPerSample / 8)
      && ReadU16(h, 32) == p.bitsPerSample / 8 && ReadU16(h, 34) == p.bitsPerSample
      && h[36..40] == Ascii("data") && ReadU32(h, 40) == dataSize
  {
    var r, f, d := RiffDescriptor(dataSize), FmtChunk(p), DataHeader(dataSize);
    RiffFields(dataSize);
    FmtFields(p);
    DataFields(dataSize);
    ReadInConcat(r, f, 4);
    ReadInConcat(r + f, d, 4);
    ReadInConcat(r + f, d, 16);
    ReadInConcat(r + f, d, 24);
    ReadInConcat(r + f, d, 28);
    ReadInConcat(r + f, d, 20);
    ReadInConcat(r + f, d, 22);
    ReadInConcat(r + f, d, 32);
    ReadInConcat(r + f, d, 34);
    ReadInConcat(r, f, 4);
    ReadInConcat(r, f, 8);
    ReadInConcat(r, f, 10);
    ReadInConcat(r, f, 12);
    ReadInConcat(r, f, 16);
    ReadInConcat(r, f, 20);
    ReadInConcat(r, f, 22);
    ReadInConcat(r + f, d, 4);
  }
}
