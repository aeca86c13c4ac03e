/** The stand-alone streaming proxy: the RIFF/WAVE header it writes in front
    of raw PCM, the `name|text` cache key, the query defaults, and how the
    streamed chunks are forwarded and assembled into the cached file. */
module LegacyProxy {
  import opened Wrappers
  import opened Text
  import opened Params
  import Paths

  newtype byte = x: int | 0 <= x < 256

  // ---------------------------------------------------------------------
  // Little-endian integers

  const U16Limit: int := 0x1_0000
  const U32Limit: int := 0x1_0000_0000

  function Pow256(n: nat): (r: nat)
    ensures r > 0
  {
    if n == 0 then 1 else 256 * Pow256(n - 1)
  }

  /** `x` as `n` little-endian bytes: the `struct` codes `H` (n = 2) and
      `I` (n = 4) under `<`. */
  function LittleEndian(x: nat, n: nat): (r: seq<byte>)
    requires x < Pow256(n)
    ensures |r| == n
  {
    if n == 0 then []
    else [(x % 256) as byte] + LittleEndian(x / 256, n - 1)
  }

  /** The unsigned integer a little-endian byte string denotes. */
  function FromLittleEndian(s: seq<byte>): nat {
    if s == [] then 0 else s[0] as nat + 256 * FromLittleEndian(s[1..])
  }

  /** Decoding undoes encoding. */
  lemma {:induction false} LittleEndianRoundTrip(x: nat, n: nat)
    requires x < Pow256(n)
    ensures FromLittleEndian(LittleEndian(x, n)) == x
  {
    if n > 0 {
      var r := LittleEndian(x, n);
      assert r[1..] == LittleEndian(x / 256, n - 1);
      LittleEndianRoundTrip(x / 256, n - 1);
    }
  }

  /** The four-character chunk identifiers, as ASCII bytes. */
  const RiffTag: seq<byte> := [0x52, 0x49, 0x46, 0x46]   // "RIFF"
  const WaveTag: seq<byte> := [0x57, 0x41, 0x56, 0x45]   // "WAVE"
  const FmtTag: seq<byte> := [0x66, 0x6D, 0x74, 0x20]    // "fmt "
  const DataTag: seq<byte> := [0x64, 0x61, 0x74, 0x61]   // "data"

  /** `Pow256(n)` for the two field widths. */
  lemma FieldLimits()
    ensures Pow256(2) == U16Limit && Pow256(4) == U32Limit
  {
  }

  /** The `struct` code `H` under `<`. */
  function U16(x: nat): (r: seq<byte>)
    requires x < U16Limit
    ensures |r| == 2
  {
    FieldLimits();
    LittleEndian(x, 2)
  }

  /** The `struct` code `I` under `<`. */
  function U32(x: nat): (r: seq<byte>)
    requires x < U32Limit
    ensures |r| == 4
  {
    FieldLimits();
    LittleEndian(x, 4)
  }

  lemma U16RoundTrip(x: nat)
    requires x < U16Limit
    ensures FromLittleEndian(U16(x)) == x
  {
    FieldLimits();
    LittleEndianRoundTrip(x, 2);
  }

  lemma U32RoundTrip(x: nat)
    requires x < U32Limit
    ensures FromLittleEndian(U32(x)) == x
  {
    FieldLimits();
    LittleEndianRoundTrip(x, 4);
  }

  // ---------------------------------------------------------------------
  // The WAV header

  /** `sample_rate * channels * bits_per_sample // 8`; with a positive
      divisor Dafny's `/` is Python's floor division. */
  function ByteRate(sampleRate: int, bitsPerSample: int, channels: int): int {
    sampleRate * channels * bitsPerSample / 8
  }

  /** `channels * bits_per_sample // 8` */
  function BlockAlign(bitsPerSample: int, channels: int): int {
    channels * bitsPerSample / 8
  }

  /** Every value fits its `struct` field; otherwise `struct.pack` raises. */
  predicate Packable(dataSize: int, sampleRate: int, bitsPerSample: int, channels: int) {
    && 0 <= dataSize && dataSize + 36 < U32Limit
    && 0 <= channels < U16Limit
    && 0 <= sampleRate < U32Limit
    && 0 <= ByteRate(sampleRate, bitsPerSample, channels) < U32Limit
    && 0 <= BlockAlign(bitsPerSample, channels) < U16Limit
    && 0 <= bitsPerSample < U16Limit
  }

  /** The RIFF chunk descriptor: `RIFF`, the size of the rest of the file,
      `WAVE`. */
  function RiffDescriptor(riffSize: nat): (r: seq<byte>)
    requires riffSize < U32Limit
    ensures |r| == 12
  {
    RiffTag + U32(riffSize) + WaveTag
  }

  /** The `fmt ` sub-chunk: size 16, format tag 1 (PCM), then the format. */
  function FmtChunk(channels: nat, sampleRate: nat, byteRate: nat, blockAlign: nat, bitsPerSample: nat): (r: seq<byte>)
    requires channels < U16Limit && sampleRate < U32Limit && byteRate < U32Limit
    requires blockAlign < U16Limit && bitsPerSample < U16Limit
    ensures |r| == 24
  {
    FmtTag + U32(16) + U16(1) + U16(channels)
    + U32(sampleRate) + U32(byteRate) + U16(blockAlign)
    + U16(bitsPerSample)
  }

  /** The head of the `data` sub-chunk: `data` and the size of the audio. */
  function DataHeader(dataSize: nat): (r: seq<byte>)
    requires dataSize < U32Limit
    ensures |r| == 8
  {
    DataTag + U32(dataSize)
  }

  /** `create_wav_header`: the 44-byte canonical PCM header, or `None` where
      `struct.pack` would raise. */
  function CreateWavHeader(dataSize: int, sampleRate: int := 16000, bitsPerSample: int := 16, channels: int := 1)
    : (r: Option<seq<byte>>)
    ensures r.Some? <==> Packable(dataSize, sampleRate, bitsPerSample, channels)
    ensures r.Some? ==> |r.value| == 44
  {
    if Packable(dataSize, sampleRate, bitsPerSample, channels) then
      Some(RiffDescriptor(dataSize + 36)
           + FmtChunk(channels, sampleRate, ByteRate(sampleRate, bitsPerSample, channels),
                      BlockAlign(bitsPerSample, channels), bitsPerSample)
           + DataHeader(dataSize))
    else None
  }

  /** The fields a reader takes from a canonical PCM header. */
  datatype WavFormat = WavFormat(
    riffSize: nat, channels: nat, sampleRate: nat, byteRate: nat,
    blockAlign: nat, bitsPerSample: nat, dataSize: nat)

  function ParseRiffDescriptor(r: seq<byte>): Option<nat> {
    if |r| == 12 && r[..4] == RiffTag && r[8..] == WaveTag then Some(FromLittleEndian(r[4..8])) else None
  }

  function ParseFmtChunk(f: seq<byte>): Option<(nat, nat, nat, nat, nat)> {
    if |f| == 24 && f[..4] == FmtTag && FromLittleEndian(f[4..8]) == 16 && FromLittleEndian(f[8..10]) == 1 then
      Some((FromLittleEndian(f[10..12]), FromLittleEndian(f[12..16]), FromLittleEndian(f[16..20]),
            FromLittleEndian(f[20..22]), FromLittleEndian(f[22..])))
    else None
  }

  function ParseDataHeader(d: seq<byte>): Option<nat> {
    if |d| == 8 && d[..4] == DataTag then Some(FromLittleEndian(d[4..])) else None
  }

  /** Reads a 44-byte header: the RIFF descriptor in bytes 0-11, a 16-byte
      PCM `fmt ` chunk in bytes 12-35 and the `data` head in bytes 36-43. */
  function ParseWavHeader(h: seq<byte>): Option<WavFormat> {
    if |h| != 44 then None
    else match (ParseRiffDescriptor(h[..12]), ParseFmtChunk(h[12..36]), ParseDataHeader(h[36..]))
      case (Some(riffSize), Some(f), Some(dataSize)) => Some(WavFormat(riffSize, f.0, f.1, f.2, f.3, f.4, dataSize))
      case _ => None
  }

  lemma RiffDescriptorRoundTrip(riffSize: nat)
    requires riffSize < U32Limit
    ensures ParseRiffDescriptor(RiffDescriptor(riffSize)) == Some(riffSize)
  {
    var r := RiffDescriptor(riffSize);
    assert r[..4] == RiffTag && r[4..8] == U32(riffSize) && r[8..] == WaveTag;
    U32RoundTrip(riffSize);
  }

  lemma FmtChunkRoundTrip(channels: nat, sampleRate: nat, byteRate: nat, blockAlign: nat, bitsPerSample: nat)
    requires channels < U16Limit && sampleRate < U32Limit && byteRate < U32Limit
    requires blockAlign < U16Limit && bitsPerSample < U16Limit
    ensures ParseFmtChunk(FmtChunk(channels, sampleRate, byteRate, blockAlign, bitsPerSample))
            == Some((channels, sampleRate, byteRate, blockAlign, bitsPerSample))
  {
    var f := FmtChunk(channels, sampleRate, byteRate, blockAlign, bitsPerSample);
    assert f[..4] == FmtTag;
    assert f[4..8] == U32(16) && f[8..10] == U16(1);
    assert f[10..12] == U16(channels) && f[12..16] == U32(sampleRate);
    assert f[16..20] == U32(byteRate) && f[20..22] == U16(blockAlign);
    assert f[22..] == U16(bitsPerSample);
    U32RoundTrip(16);
    U16RoundTrip(1);
    U16RoundTrip(channels);
    U32RoundTrip(sampleRate);
    U32RoundTrip(byteRate);
    U16RoundTrip(blockAlign);
    U16RoundTrip(bitsPerSample);
  }

  lemma DataHeaderRoundTrip(dataSize: nat)
    requires dataSize < U32Limit
    ensures ParseDataHeader(DataHeader(dataSize)) == Some(dataSize)
  {
    var d := DataHeader(dataSize);
    assert d[..4] == DataTag && d[4..] == U32(dataSize);
    U32RoundTrip(dataSize);
  }

  /** Every header `create_wav_header` writes reads back as its inputs: the
      RIFF size is `data_size + 36`, the rates are the derived ones. */
  lemma HeaderRoundTrip(dataSize: int, sampleRate: int, bitsPerSample: int, channels: int)
    requires Packable(dataSize, sampleRate, bitsPerSample, channels)
    ensures ParseWavHeader(CreateWavHeader(dataSize, sampleRate, bitsPerSample, channels).value)
            == Some(WavFormat(dataSize + 36, channels, sampleRate, ByteRate(sampleRate, bitsPerSample, channels),
                              BlockAlign(bitsPerSample, channels), bitsPerSample, dataSize))
  {
    var byteRate := ByteRate(sampleRate, bitsPerSample, channels);
    var blockAlign := BlockAlign(bitsPerSample, channels);
    var r := RiffDescriptor(dataSize + 36);
    var f := FmtChunk(channels, sampleRate, byteRate, blockAlign, bitsPerSample);
    var d := DataHeader(dataSize);
    var h := CreateWavHeader(dataSize, sampleRate, bitsPerSample, channels).value;
    assert h == r + f + d;
    assert h[..12] == r && h[12..36] == f && h[36..] == d;
    RiffDescriptorRoundTrip(dataSize + 36);
    FmtChunkRoundTrip(channels, sampleRate, byteRate, blockAlign, bitsPerSample);
    DataHeaderRoundTrip(dataSize);
  }

  /** The four tags sit at bytes 0, 8, 12 and 36. */
  lemma HeaderLayout(dataSize: int, sampleRate: int, bitsPerSample: int, channels: int)
    requires Packable(dataSize, sampleRate, bitsPerSample, channels)
    ensures var h := CreateWavHeader(dataSize, sampleRate, bitsPerSample, channels).value;
      h[0..4] == RiffTag && h[8..12] == WaveTag && h[12..16] == FmtTag && h[36..40] == DataTag
  {
    var r := RiffDescriptor(dataSize + 36);
    var f := FmtChunk(channels, sampleRate, ByteRate(sampleRate, bitsPerSample, channels),
                      BlockAlign(bitsPerSample, channels), bitsPerSample);
    var d := DataHeader(dataSize);
    var h := r + f + d;
    assert h[0..4] == r[..4] == RiffTag;
    assert h[8..12] == r[8..] == WaveTag;
    assert h[12..16] == f[..4] == FmtTag;
    assert h[36..40] == d[..4] == DataTag;
  }

  /** With the default format (16 kHz, 16-bit, mono) the byte rate is 32000
      and a sample frame is 2 bytes; any size up to 2^32 - 37 is packable. */
  lemma DefaultFormat(dataSize: int)
    requires 0 <= dataSize && dataSize + 36 < U32Limit
    ensures ParseWavHeader(CreateWavHeader(dataSize).value)
            == Some(WavFormat(dataSize + 36, 1, 16000, 32000, 2, 16, dataSize))
  {
    assert ByteRate(16000, 16, 1) == 32000 && BlockAlign(16, 1) == 2;
    HeaderRoundTrip(dataSize, 16000, 16, 1);
  }

  /** Sizes that do not fit the 32-bit RIFF size field are refused. */
  lemma OversizedDataRefused(dataSize: int)
    requires dataSize + 36 >= U32Limit
    ensures CreateWavHeader(dataSize) == None
  {
  }

  /** `validate_audio_data`: false exactly for empty data. */
  function ValidateAudioData(data: seq<byte>): (ok: bool)
    ensures ok <==> |data| > 0
  {
    data != []
  }

  // ---------------------------------------------------------------------
  // Request parameters and the cache name

  /** The parameters `tts_proxy` forwards, after defaults. */
  datatype LegacyRequest = LegacyRequest(
    name: string, text: string, temperature: string, topP: string, topK: string, maxTokens: string)

  /** `{k: unquote(v) for k, v in args.items()}` */
  function Unquoted(args: Params, unquote: string -> string): Params {
    if args == [] then [] else [Entry(args[0].key, unquote(args[0].value))] + Unquoted(args[1..], unquote)
  }

  lemma {:induction false} UnquotedGet(args: Params, unquote: string -> string, k: string)
    ensures Get(Unquoted(args, unquote), k) == if Has(args, k) then Some(unquote(Get(args, k).value)) else None
  {
    if args != [] {
      UnquotedGet(args[1..], unquote, k);
      assert Unquoted(args, unquote)[1..] == Unquoted(args[1..], unquote);
    }
  }

  /** The request with its defaults filled in. */
  function Defaults(raw: Params): LegacyRequest {
    LegacyRequest(
      Get(raw, "name").GetOr(""), Get(raw, "text").GetOr(""),
      Get(raw, "temperature").GetOr("0.75"), Get(raw, "top_p").GetOr("0.90"),
      Get(raw, "top_k").GetOr("30"), Get(raw, "max_tokens").GetOr("4096"))
  }

  /** The value `tts_proxy` uses for `k`: the decoded argument, or the
      default when the argument is missing. */
  function ArgOr(args: Params, unquote: string -> string, k: string, default: string): string {
    if Has(args, k) then unquote(Get(args, k).value) else default
  }

  lemma DefaultsSpec(args: Params, unquote: string -> string)
    ensures Defaults(Unquoted(args, unquote)) == LegacyRequest(
      ArgOr(args, unquote, "name", ""), ArgOr(args, unquote, "text", ""),
      ArgOr(args, unquote, "temperature", "0.75"), ArgOr(args, unquote, "top_p", "0.90"),
      ArgOr(args, unquote, "top_k", "30"), ArgOr(args, unquote, "max_tokens", "4096"))
  {
    UnquotedGet(args, unquote, "name");
    UnquotedGet(args, unquote, "text");
    UnquotedGet(args, unquote, "temperature");
    UnquotedGet(args, unquote, "top_p");
    UnquotedGet(args, unquote, "top_k");
    UnquotedGet(args, unquote, "max_tokens");
  }

  /** `generate_hash`'s input. */
  function HashKey(r: LegacyRequest): string {
    r.name + "|" + r.text
  }

  /** `f"{name}_{generate_hash(params)}.wav"` with MD5 as `md5`. */
  function CacheName(r: LegacyRequest, md5: string -> string): string {
    r.name + "_" + md5(HashKey(r)) + ".wav"
  }

  function CachePath(r: LegacyRequest, md5: string -> string): string {
    Paths.Join("cache", CacheName(r, md5))
  }

  /** Requests that agree on `name` and `text` share a cache file, whatever
      their sampling parameters. */
  lemma SamplingParamsIgnored(args1: Params, args2: Params, unquote: string -> string, md5: string -> string)
    requires Get(args1, "name") == Get(args2, "name") && Get(args1, "text") == Get(args2, "text")
    ensures CachePath(Defaults(Unquoted(args1, unquote)), md5) == CachePath(Defaults(Unquoted(args2, unquote)), md5)
  {
    DefaultsSpec(args1, unquote);
    DefaultsSpec(args2, unquote);
  }

  /** Requests with the same key but different names get different cache
      files: the name heads the file name and the digest part is shared. */
  lemma NameSeparatesCacheFiles(r1: LegacyRequest, r2: LegacyRequest, md5: string -> string)
    requires HashKey(r1) == HashKey(r2) && r1.name != r2.name
    ensures CacheName(r1, md5) != CacheName(r2, md5)
    ensures CachePath(r1, md5) != CachePath(r2, md5)
  {
    var tail := "_" + md5(HashKey(r1)) + ".wav";
    assert CacheName(r1, md5) == [] + (r1.name + tail);
    assert CacheName(r2, md5) == [] + (r2.name + tail);
    if CacheName(r1, md5) == CacheName(r2, md5) {
      InfixCancel([], r1.name, r2.name, tail);
    }
    var n1, n2 := CacheName(r1, md5), CacheName(r2, md5);
    if !Paths.IsAbs(n1) && !Paths.IsAbs(n2) {
      assert CachePath(r1, md5) == "cache/" + (n1 + []);
      assert CachePath(r2, md5) == "cache/" + (n2 + []);
      if CachePath(r1, md5) == CachePath(r2, md5) {
        InfixCancel("cache/", n1, n2, []);
      }
    } else if Paths.IsAbs(n1) != Paths.IsAbs(n2) {
      assert CachePath(r1, md5)[0] != CachePath(r2, md5)[0];
    }
  }

  /** The key alone does not tell `name` from `text` when either holds a
      `|`; the name at the head of the file name keeps such requests apart. */
  lemma KeyAmbiguousNameKept()
    ensures var r1 := LegacyRequest("a|b", "c", "", "", "", "");
      var r2 := LegacyRequest("a", "b|c", "", "", "", "");
      && HashKey(r1) == HashKey(r2)
      && forall md5 :: CachePath(r1, md5) != CachePath(r2, md5)
  {
    var r1 := LegacyRequest("a|b", "c", "", "", "", "");
    var r2 := LegacyRequest("a", "b|c", "", "", "", "");
    assert HashKey(r1) == HashKey(r2) by {
      assert "a|b" + "|" + "c" == "a" + "|" + "b|c";
    }
    assert r1.name != r2.name by {
      assert |r1.name| != |r2.name|;
    }
    forall md5 ensures CachePath(r1, md5) != CachePath(r2, md5) {
      NameSeparatesCacheFiles(r1, r2, md5);
    }
  }

  // ---------------------------------------------------------------------
  // The stream

  /** The chunks `iter_bytes` delivered that are not empty. */
  function NonEmpty(chunks: seq<seq<byte>>): (r: seq<seq<byte>>)
    ensures forall i :: 0 <= i < |r| ==> r[i] != []
  {
    if chunks == [] then []
    else if chunks[0] == [] then NonEmpty(chunks[1..])
    else [chunks[0]] + NonEmpty(chunks[1..])
  }

  /** The header sent in front of the first audio chunk, before the length is
      known. */
  function StreamHeader(): seq<byte> {
    CreateWavHeader(0).value
  }

  /** What `generate_stream` yields: the zero-size header once, before the
      first non-empty chunk, then every non-empty chunk. */
  function StreamOut(chunks: seq<seq<byte>>): seq<seq<byte>> {
    if NonEmpty(chunks) == [] then [] else [StreamHeader()] + NonEmpty(chunks)
  }

  /** The file handed to the cache writer: the complete header followed by
      the audio, for a stream that ended normally and carried audio whose
      size fits the header. */
  function SavedFile(chunks: seq<seq<byte>>, completed: bool): Option<seq<byte>> {
    var audio := Concat(NonEmpty(chunks));
    if completed && audio != [] && CreateWavHeader(|audio|).Some? then
      Some(CreateWavHeader(|audio|).value + audio)
    else None
  }

  lemma {:induction false} ConcatNonEmpty(chunks: seq<seq<byte>>)
    ensures Concat(NonEmpty(chunks)) == Concat(chunks)
  {
    if chunks != [] {
      var rest := NonEmpty(chunks[1..]);
      ConcatNonEmpty(chunks[1..]);
      if chunks[0] == [] {
        assert NonEmpty(chunks) == rest;
        assert Concat(chunks) == [] + Concat(chunks[1..]);
      } else {
        var ne := [chunks[0]] + rest;
        assert NonEmpty(chunks) == ne;
        assert ne[0] == chunks[0] && ne[1..] == rest;
      }
    }
  }

  /** The client receives the zero-size header followed by every byte of
      the stream, or nothing when the stream carried no audio. */
  lemma StreamBytes(chunks: seq<seq<byte>>)
    ensures Concat(StreamOut(chunks)) == if Concat(chunks) == [] then [] else StreamHeader() + Concat(chunks)
  {
    ConcatNonEmpty(chunks);
    var ne := NonEmpty(chunks);
    if ne != [] {
      assert ne[0] != [];
      assert ([StreamHeader()] + ne)[1..] == ne;
    }
  }

  /** A file is cached exactly when the stream completed with audio of a
      representable size. */
  lemma SavedFileWhen(chunks: seq<seq<byte>>, completed: bool)
    ensures SavedFile(chunks, completed).Some? <==>
            completed && Concat(chunks) != [] && |Concat(chunks)| + 36 < U32Limit
  {
    ConcatNonEmpty(chunks);
    DefaultPackable(|Concat(chunks)|);
  }

  /** The cached file is the header for the audio's size followed by the
      audio, while the client received the zero-size header followed by the
      same audio: the two differ only in the header. */
  lemma SavedFileSpec(chunks: seq<seq<byte>>, completed: bool)
    requires SavedFile(chunks, completed).Some?
    ensures CreateWavHeader(|Concat(chunks)|).Some?
    ensures SavedFile(chunks, completed).value == CreateWavHeader(|Concat(chunks)|).value + Concat(chunks)
    ensures Concat(StreamOut(chunks)) == StreamHeader() + Concat(chunks)
  {
    ConcatNonEmpty(chunks);
    StreamBytes(chunks);
  }

  /** Past the 44 header bytes, the client receives exactly the audio. */
  lemma StreamTail(chunks: seq<seq<byte>>)
    requires Concat(chunks) != []
    ensures |Concat(StreamOut(chunks))| == 44 + |Concat(chunks)|
    ensures Concat(StreamOut(chunks))[44..] == Concat(chunks)
  {
    StreamBytes(chunks);
    assert |StreamHeader()| == 44;
    assert (StreamHeader() + Concat(chunks))[44..] == Concat(chunks);
  }

  /** Which data sizes the default format can describe. */
  lemma DefaultPackable(dataSize: int)
    ensures Packable(dataSize, 16000, 16, 1) <==> 0 <= dataSize && dataSize + 36 < U32Limit
  {
    assert ByteRate(16000, 16, 1) == 32000 && BlockAlign(16, 1) == 2;
  }

  /** A file assembled from the default header and the audio reads back as
      a 16 kHz, 16-bit mono PCM header announcing that audio's size,
      followed by the audio. */
  lemma SavedFileLayout(audio: seq<byte>)
    requires |audio| + 36 < U32Limit
    ensures |CreateWavHeader(|audio|).value + audio| == 44 + |audio|
    ensures (CreateWavHeader(|audio|).value + audio)[44..] == audio
    ensures ParseWavHeader((CreateWavHeader(|audio|).value + audio)[..44])
            == Some(WavFormat(|audio| + 36, 1, 16000, 32000, 2, 16, |audio|))
  {
    DefaultFormat(|audio|);
    var h := CreateWavHeader(|audio|).value;
    assert (h + audio)[..44] == h && (h + audio)[44..] == audio;
  }

  /** `generate_stream` over the chunks the backend delivered; `completed`
      is false when the stream raised before it ended. */
  method GenerateStream(chunks: seq<seq<byte>>, completed: bool) returns (yielded: seq<seq<byte>>, saved: Option<seq<byte>>)
    ensures yielded == StreamOut(chunks)
    ensures saved == SavedFile(chunks, completed)
  {
    var collected: seq<seq<byte>> := [];
    var headerSent := false;
    yielded := [];
    var i := 0;
    while i < |chunks|
      invariant 0 <= i <= |chunks|
      invariant collected == NonEmpty(chunks[..i])
      invariant headerSent <==> collected != []
      invariant yielded == if collected == [] then [] else [StreamHeader()] + collected
    {
      NonEmptyStep(chunks[..i], chunks[i]);
      assert chunks[..i + 1] == chunks[..i] + [chunks[i]];
      var chunk := chunks[i];
      if chunk != [] {
        ghost var before := collected;
        collected := collected + [chunk];
        if !headerSent {
          yielded := yielded + [StreamHeader()];
          headerSent := true;
        }
        yielded := yielded + [chunk];
        assert yielded == [StreamHeader()] + collected by {
          AppendAssoc([StreamHeader()], before, [chunk]);
        }
      }
      i := i + 1;
    }
    assert chunks[..i] == chunks;
    saved := None;
    if completed && collected != [] {
      var audio := Concat(collected);
      if |audio| > 0 {
        var header := CreateWavHeader(|audio|);
        if header.Some? {
          saved := Some(header.value + audio);
        }
      }
    }
  }

  lemma {:induction false} NonEmptyStep(prefix: seq<seq<byte>>, c: seq<byte>)
    ensures NonEmpty(prefix + [c]) == NonEmpty(prefix) + (if c == [] then [] else [c])
  {
    if prefix == [] {
      assert [] + [c] == [c];
    } else {
      assert (prefix + [c])[0] == prefix[0] && (prefix + [c])[1..] == prefix[1..] + [c];
      NonEmptyStep(prefix[1..], c);
      if prefix[0] != [] {
        AppendAssoc([prefix[0]], NonEmpty(prefix[1..]), if c == [] then [] else [c]);
      }
    }
  }

  // ---------------------------------------------------------------------
  // The handler

  /** Whether `float(...)` and `int(...)` accept a string. */
  datatype Conversions = Conversions(isFloat: string -> bool, isInt: string -> bool)

  /** What `tts_proxy` answers: the cached file, the stream together with the
      file it hands to the cache writer, or nothing when building the backend
      request raised. */
  datatype LegacyResponse =
    | FromCache(path: string)
    | Streamed(yielded: seq<seq<byte>>, save: Option<(string, seq<byte>)>)
    | NoResponse

  /** `tts_proxy` over the files present in `cache/` and the backend's
      stream (`chunks`, and whether it ended normally). */
  function TtsProxy(args: Params, unquote: string -> string, md5: string -> string, cached: set<string>,
                    conv: Conversions, chunks: seq<seq<byte>>, completed: bool): LegacyResponse {
    var r := Defaults(Unquoted(args, unquote));
    var path := CachePath(r, md5);
    if path in cached then FromCache(path)
    else if !(conv.isFloat(r.temperature) && conv.isFloat(r.topP) && conv.isInt(r.topK) && conv.isInt(r.maxTokens)) then
      NoResponse
    else
      Streamed(StreamOut(chunks), match SavedFile(chunks, completed) case Some(f) => Some((path, f)) case None => None)
  }

  /** A cached request is answered from the cache; otherwise the stream's
      complete file, when there is one, goes to the request's cache path, so
      the next identical request is a cache hit. */
  lemma ProxyCaches(args: Params, unquote: string -> string, md5: string -> string, cached: set<string>,
                    conv: Conversions, chunks: seq<seq<byte>>, completed: bool)
    ensures var path := CachePath(Defaults(Unquoted(args, unquote)), md5);
      match TtsProxy(args, unquote, md5, cached, conv, chunks, completed)
      case FromCache(p) => p == path && path in cached
      case Streamed(_, save) =>
        path !in cached
        && (save.Some? <==> completed && Concat(chunks) != [] && |Concat(chunks)| + 36 < U32Limit)
        && (save.Some? ==>
              save.value.0 == path
              && TtsProxy(args, unquote, md5, cached + {path}, conv, chunks, completed) == FromCache(path))
      case NoResponse => path !in cached
  {
    SavedFileWhen(chunks, completed);
    if SavedFile(chunks, completed).Some? {
      SavedFileSpec(chunks, completed);
    }
  }
}
