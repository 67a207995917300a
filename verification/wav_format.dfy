/**
 * The RIFF/WAVE container of recorder_next/media.py as a grammar: a file is the encoding of a list of
 * chunks. Parsing is shown to be the exact inverse of encoding, so "the chunks of a file" is well
 * defined, and the Recorder profile (media.py:85-173) is a property of that list.
 */
module WavFormat {
  import opened Wrappers

  type byte = x: int | 0 <= x < 256

  const TWO_32 := 0x1_0000_0000
  const RIFF: seq<byte> := [0x52, 0x49, 0x46, 0x46]
  const WAVE: seq<byte> := [0x57, 0x41, 0x56, 0x45]
  const FMT: seq<byte> := [0x66, 0x6D, 0x74, 0x20]
  const DATA: seq<byte> := [0x64, 0x61, 0x74, 0x61]
  const LIST: seq<byte> := [0x4C, 0x49, 0x53, 0x54]
  const JUNK: seq<byte> := [0x4A, 0x55, 0x4E, 0x4B]
  const MAX_ANCILLARY_CHUNKS := 32
  const MAX_ANCILLARY_BYTES := 64 * 1024
  const SAMPLE_RATE := 16000

  // ---- little-endian numbers ----------------------------------------------------------------

  /** The value of little-endian bytes. */
  function Little(b: seq<byte>): nat {
    if b == [] then 0 else b[0] as int + 256 * Little(b[1..])
  }

  function LittleBytes(n: nat, width: nat): (b: seq<byte>)
    ensures |b| == width
  {
    if width == 0 then [] else [n % 256] + LittleBytes(n / 256, width - 1)
  }

  function Power256(width: nat): nat {
    if width == 0 then 1 else 256 * Power256(width - 1)
  }

  lemma {:induction false} LittleOfBytes(n: nat, width: nat)
    requires n < Power256(width)
    ensures Little(LittleBytes(n, width)) == n
  {
    if width > 0 {
      LittleOfBytes(n / 256, width - 1);
      assert LittleBytes(n, width)[1..] == LittleBytes(n / 256, width - 1);
    }
  }

  lemma {:induction false} BytesOfLittle(b: seq<byte>)
    ensures Little(b) < Power256(|b|)
    ensures LittleBytes(Little(b), |b|) == b
  {
    if b != [] {
      BytesOfLittle(b[1..]);
      var rest: nat, low: int := Little(b[1..]), b[0];
      assert (low + 256 * rest) % 256 == low && (low + 256 * rest) / 256 == rest;
      assert b == [b[0]] + b[1..];
    }
  }

  function U16(b: seq<byte>): nat
    requires |b| == 2
  {
    Little(b)
  }

  function U32(b: seq<byte>): nat
    requires |b| == 4
  {
    Little(b)
  }

  function Le32(n: nat): (b: seq<byte>)
    requires n < TWO_32
    ensures |b| == 4
  {
    LittleBytes(n, 4)
  }

  lemma Power256Of4()
    ensures Power256(4) == TWO_32
  {
    assert Power256(2) == 0x1_0000;
  }

  lemma U32RoundTrip(b: seq<byte>)
    requires |b| == 4
    ensures U32(b) < TWO_32 && Le32(U32(b)) == b
  {
    Power256Of4();
    BytesOfLittle(b);
  }

  lemma Le32RoundTrip(n: nat)
    requires n < TWO_32
    ensures U32(Le32(n)) == n
  {
    Power256Of4();
    LittleOfBytes(n, 4);
  }

  // ---- chunks -------------------------------------------------------------------------------

  datatype Chunk = Chunk(id: seq<byte>, payload: seq<byte>)

  predicate Encodable(c: Chunk) {
    |c.id| == 4 && |c.payload| < TWO_32
  }

  function Padding(size: nat): seq<byte> {
    if size % 2 == 1 then [0] else []
  }

  function EncodeChunk(c: Chunk): seq<byte>
    requires Encodable(c)
  {
    c.id + Le32(|c.payload|) + c.payload + Padding(|c.payload|)
  }

  predicate AllEncodable(cs: seq<Chunk>) {
    forall c | c in cs :: Encodable(c)
  }

  function EncodeChunks(cs: seq<Chunk>): seq<byte>
    requires AllEncodable(cs)
  {
    if cs == [] then [] else EncodeChunk(cs[0]) + EncodeChunks(cs[1..])
  }

  /** The first chunk of b, with the offset behind its padding; None when there is no whole chunk. */
  function FirstChunk(b: seq<byte>): (r: Option<(Chunk, nat)>)
    ensures r.Some? ==> 8 <= r.value.1 <= |b|
  {
    if |b| < 8 then
      None
    else
      var size := U32(b[4..8]);
      var padded := 8 + size + size % 2;
      if padded > |b| || (size % 2 == 1 && b[8 + size] != 0) then
        None
      else
        Some((Chunk(b[..4], b[8..8 + size]), padded))
  }

  function ParseChunks(b: seq<byte>): Option<seq<Chunk>> {
    if b == [] then
      Some([])
    else
      match FirstChunk(b)
      case None => None
      case Some((c, next)) =>
        match ParseChunks(b[next..])
        case None => None
        case Some(rest) => Some([c] + rest)
  }

  lemma FirstChunkEncodes(b: seq<byte>)
    requires FirstChunk(b).Some?
    ensures var (c, next) := FirstChunk(b).value; Encodable(c) && EncodeChunk(c) == b[..next]
  {
    var (c, next) := FirstChunk(b).value;
    var size := U32(b[4..8]);
    U32RoundTrip(b[4..8]);
    assert b[..next] == b[..4] + b[4..8] + b[8..8 + size] + b[8 + size..next];
  }

  lemma FirstChunkOfEncoding(c: Chunk, rest: seq<byte>)
    requires Encodable(c)
    ensures FirstChunk(EncodeChunk(c) + rest) == Some((c, |EncodeChunk(c)|))
  {
    var size := |c.payload|;
    var b := EncodeChunk(c) + rest;
    Le32RoundTrip(size);
    assert b[..4] == c.id;
    assert b[4..8] == Le32(size);
    assert b[8..8 + size] == c.payload;
    if size % 2 == 1 {
      assert b[8 + size] == Padding(size)[0];
    }
  }

  /** Parsing inverts encoding on every chunk list ... */
  lemma {:induction false} ParseOfEncoding(cs: seq<Chunk>)
    requires AllEncodable(cs)
    ensures ParseChunks(EncodeChunks(cs)) == Some(cs)
  {
    if cs != [] {
      var b := EncodeChunks(cs);
      var rest := EncodeChunks(cs[1..]);
      FirstChunkOfEncoding(cs[0], rest);
      ParseOfEncoding(cs[1..]);
      assert b[|EncodeChunk(cs[0])|..] == rest;
      assert [cs[0]] + cs[1..] == cs;
    }
  }

  /** ... and encoding inverts parsing on every byte string that parses at all. */
  lemma {:induction false} EncodingOfParse(b: seq<byte>)
    requires ParseChunks(b).Some?
    ensures AllEncodable(ParseChunks(b).value)
    ensures EncodeChunks(ParseChunks(b).value) == b
    decreases |b|
  {
    if b != [] {
      var (c, next) := FirstChunk(b).value;
      var rest := ParseChunks(b[next..]).value;
      FirstChunkEncodes(b);
      EncodingOfParse(b[next..]);
      assert ([c] + rest)[1..] == rest;
      assert b == b[..next] + b[next..];
    }
  }

  // ---- whole files --------------------------------------------------------------------------

  /** The bytes are the RIFF/WAVE file made of exactly these chunks. */
  ghost predicate Encodes(data: seq<byte>, cs: seq<Chunk>) {
    && AllEncodable(cs)
    && 4 + |EncodeChunks(cs)| < TWO_32
    && data == RIFF + Le32(4 + |EncodeChunks(cs)|) + WAVE + EncodeChunks(cs)
  }

  predicate GoodHeader(data: seq<byte>) {
    && |data| >= 12
    && data[..4] == RIFF
    && data[8..12] == WAVE
    && U32(data[4..8]) == |data| - 8
  }

  lemma HeaderOfEncoding(data: seq<byte>, cs: seq<Chunk>)
    requires Encodes(data, cs)
    ensures GoodHeader(data) && data[12..] == EncodeChunks(cs)
  {
    var body := EncodeChunks(cs);
    var size := 4 + |body|;
    Le32RoundTrip(size);
    HeaderLayout(RIFF, Le32(size), WAVE, body, data);
  }

  lemma HeaderLayout(a: seq<byte>, b: seq<byte>, c: seq<byte>, rest: seq<byte>, data: seq<byte>)
    requires |a| == |b| == |c| == 4 && data == a + b + c + rest
    ensures data[..4] == a && data[4..8] == b && data[8..12] == c && data[12..] == rest
  {
  }

  lemma EncodingOfFile(data: seq<byte>, cs: seq<Chunk>)
    requires GoodHeader(data) && ParseChunks(data[12..]) == Some(cs)
    ensures Encodes(data, cs)
  {
    EncodingOfParse(data[12..]);
    U32RoundTrip(data[4..8]);
    assert data == data[..4] + data[4..8] + data[8..12] + data[12..];
  }

  lemma EncodesIffParses(data: seq<byte>, cs: seq<Chunk>)
    ensures Encodes(data, cs) <==> GoodHeader(data) && ParseChunks(data[12..]) == Some(cs)
  {
    if Encodes(data, cs) {
      HeaderOfEncoding(data, cs);
      ParseOfEncoding(cs);
    }
    if GoodHeader(data) && ParseChunks(data[12..]) == Some(cs) {
      EncodingOfFile(data, cs);
    }
  }

  /** A file has one chunk list only. */
  lemma ChunksAreUnique(data: seq<byte>, cs: seq<Chunk>, ds: seq<Chunk>)
    requires Encodes(data, cs) && Encodes(data, ds)
    ensures cs == ds
  {
    EncodesIffParses(data, cs);
    EncodesIffParses(data, ds);
  }

  // ---- the Recorder profile -----------------------------------------------------------------

  /** The payloads of the chunks with this id, in file order. */
  function Payloads(cs: seq<Chunk>, id: seq<byte>): seq<seq<byte>> {
    if cs == [] then [] else (if cs[0].id == id then [cs[0].payload] else []) + Payloads(cs[1..], id)
  }

  predicate Ancillary(id: seq<byte>) {
    id == LIST || id == JUNK
  }

  function AncillaryChunks(cs: seq<Chunk>): nat {
    if cs == [] then 0 else (if Ancillary(cs[0].id) then 1 else 0) + AncillaryChunks(cs[1..])
  }

  function AncillaryBytes(cs: seq<Chunk>): nat {
    if cs == [] then 0 else (if Ancillary(cs[0].id) then |cs[0].payload| else 0) + AncillaryBytes(cs[1..])
  }

  predicate KnownChunks(cs: seq<Chunk>) {
    forall c | c in cs :: c.id == FMT || c.id == DATA || Ancillary(c.id)
  }

  /** Mono, 16-bit, 16 kHz PCM, with an empty extension if there is one. */
  predicate CanonicalFormat(p: seq<byte>) {
    && (|p| == 16 || |p| == 18)
    && (|p| == 18 ==> U16(p[16..18]) == 0)
    && U16(p[0..2]) == 1
    && U16(p[2..4]) == 1
    && U32(p[4..8]) == SAMPLE_RATE
    && U32(p[8..12]) == 2 * SAMPLE_RATE
    && U16(p[12..14]) == 2
    && U16(p[14..16]) == 16
  }

  /** Exactly one canonical format, one block of whole frames, and bounded harmless extras. */
  predicate Profile(cs: seq<Chunk>) {
    && KnownChunks(cs)
    && AncillaryChunks(cs) <= MAX_ANCILLARY_CHUNKS
    && AncillaryBytes(cs) <= MAX_ANCILLARY_BYTES
    && |Payloads(cs, FMT)| == 1
    && |Payloads(cs, DATA)| == 1
    && CanonicalFormat(Payloads(cs, FMT)[0])
    && |Payloads(cs, DATA)[0]| > 0
    && |Payloads(cs, DATA)[0]| % 2 == 0
  }

  /** The bytes are a Recorder WAV file of this many frames. */
  ghost predicate Recording(data: seq<byte>, frames: nat) {
    exists cs :: Encodes(data, cs) && Profile(cs) && |Payloads(cs, DATA)[0]| == 2 * frames
  }

  lemma FramesAreUnique(data: seq<byte>, m: nat, n: nat)
    requires Recording(data, m) && Recording(data, n)
    ensures m == n
  {
    var cs :| Encodes(data, cs) && Profile(cs) && |Payloads(cs, DATA)[0]| == 2 * m;
    var ds :| Encodes(data, ds) && Profile(ds) && |Payloads(ds, DATA)[0]| == 2 * n;
    ChunksAreUnique(data, cs, ds);
  }

  // ---- the canonical file -------------------------------------------------------------------

  const CANONICAL_FMT: seq<byte> :=
    [1, 0, 1, 0, 0x80, 0x3E, 0, 0, 0, 0x7D, 0, 0, 2, 0, 16, 0]

  function CanonicalChunks(samples: seq<byte>): seq<Chunk> {
    [Chunk(FMT, CANONICAL_FMT), Chunk(DATA, samples)]
  }

  lemma CanonicalLayout(samples: seq<byte>)
    requires |samples| % 2 == 0 && |samples| < TWO_32
    ensures AllEncodable(CanonicalChunks(samples))
    ensures |EncodeChunks(CanonicalChunks(samples))| == 32 + |samples|
    ensures Payloads(CanonicalChunks(samples), FMT) == [CANONICAL_FMT]
    ensures Payloads(CanonicalChunks(samples), DATA) == [samples]
    ensures AncillaryChunks(CanonicalChunks(samples)) == 0 && AncillaryBytes(CanonicalChunks(samples)) == 0
  {
    var cs := CanonicalChunks(samples);
    var tail := cs[1..];
    assert FMT[0] != LIST[0] && FMT[0] != JUNK[0] && FMT[0] != DATA[0] && DATA[0] != LIST[0] && DATA[0] != JUNK[0];
    assert tail == [Chunk(DATA, samples)] && tail[1..] == [];
    assert AncillaryChunks(tail[1..]) == 0 && AncillaryBytes(tail[1..]) == 0;
    assert !Ancillary(tail[0].id) && !Ancillary(cs[0].id);
    assert AncillaryChunks(tail) == 0 && AncillaryBytes(tail) == 0;
    assert Payloads(tail[1..], FMT) == [] && Payloads(tail[1..], DATA) == [];
    assert Payloads(tail, FMT) == [] + [] && Payloads(tail, DATA) == [samples] + [];
    assert Payloads(cs, FMT) == [CANONICAL_FMT] + [] && Payloads(cs, DATA) == [] + [samples];
    assert EncodeChunks(tail) == EncodeChunk(tail[0]) + [];
  }

  /**
   * For every sample block of n >= 1 frames, the one-format-one-data file exists exactly when its size
   * fits the 32-bit RIFF field, and then it is a recording of n frames.
   */
  lemma CanonicalFiles(samples: seq<byte>, n: nat)
    requires n >= 1 && |samples| == 2 * n
    ensures (exists data :: Encodes(data, CanonicalChunks(samples))) <==> 36 + 2 * n < TWO_32
    ensures forall data :: Encodes(data, CanonicalChunks(samples)) ==> Recording(data, n)
  {
    var cs := CanonicalChunks(samples);
    assert cs[1].payload == samples;
    if 36 + 2 * n < TWO_32 {
      CanonicalLayout(samples);
      var data := RIFF + Le32(36 + 2 * n) + WAVE + EncodeChunks(cs);
      assert Encodes(data, cs);
    }
    forall data | Encodes(data, cs)
      ensures Recording(data, n) && 36 + 2 * n < TWO_32
    {
      assert Encodable(cs[1]);
      CanonicalLayout(samples);
      CanonicalFormatHolds();
      assert Profile(cs);
    }
  }

  lemma {:induction false} SameLittle(b: seq<byte>, c: seq<byte>)
    requires |b| == |c| && Little(b) == Little(c)
    ensures b == c
  {
    BytesOfLittle(b);
    BytesOfLittle(c);
  }

  /** The profile knows one format: these sixteen bytes, or these with an empty extension. */
  lemma OneFormatOnly(p: seq<byte>)
    ensures CanonicalFormat(p) <==> p == CANONICAL_FMT || p == CANONICAL_FMT + [0, 0]
  {
    CanonicalFormatHolds();
    if CanonicalFormat(p) {
      var c := CANONICAL_FMT;
      SameLittle(p[0..2], c[0..2]);
      SameLittle(p[2..4], c[2..4]);
      SameLittle(p[4..8], c[4..8]);
      SameLittle(p[8..12], c[8..12]);
      SameLittle(p[12..14], c[12..14]);
      SameLittle(p[14..16], c[14..16]);
      assert p[..16] == p[0..2] + p[2..4] + p[4..8] + p[8..12] + p[12..14] + p[14..16];
      assert c == c[0..2] + c[2..4] + c[4..8] + c[8..12] + c[12..14] + c[14..16];
      if |p| == 18 {
        assert Little([0, 0]) == 0;
        SameLittle(p[16..18], [0, 0]);
        assert p == p[..16] + p[16..18];
      } else {
        assert p == p[..16];
      }
    } else if p == CANONICAL_FMT + [0, 0] {
      ExtendedFormatHolds(p);
    }
  }

  lemma ExtendedFormatHolds(p: seq<byte>)
    requires p == CANONICAL_FMT + [0, 0]
    ensures CanonicalFormat(p)
  {
    var c := CANONICAL_FMT;
    CanonicalFormatHolds();
    assert p[0..2] == c[0..2] && p[2..4] == c[2..4] && p[4..8] == c[4..8] && p[8..12] == c[8..12];
    assert p[12..14] == c[12..14] && p[14..16] == c[14..16] && p[16..18] == [0, 0];
    assert Little([0, 0]) == 0;
  }

  lemma CanonicalFormatHolds()
    ensures CanonicalFormat(CANONICAL_FMT)
  {
    var p := CANONICAL_FMT;
    assert p[0..2] == [1, 0] && p[2..4] == [1, 0];
    assert p[4..8] == [0x80, 0x3E, 0, 0] && p[8..12] == [0, 0x7D, 0, 0];
    assert p[12..14] == [2, 0] && p[14..16] == [16, 0];
  }
}
