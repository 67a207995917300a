/**
 * The two readers of recorder_next/media.py: ValidateWav works on a buffer, WavStream.Inspect reads a
 * descriptor whose reads may come back short. Both are proved against one judgement, Judged, that
 * speaks of the file's chunk list only; JudgedIsUnique then makes their answers equal.
 */
module WavReaders {
  import opened Wrappers
  import opened WavFormat

  const MEDIA_SLAB: nat := 65_536

  datatype Request = Request(partId: string, mime: string, duration: Option<int>)

  /** `digested` is the byte string given to SHA-256. */
  datatype Wav = Wav(frames: nat, sampleRate: nat, channels: nat, sampleWidth: nat, durationMs: nat,
                     byteCount: nat, digested: seq<byte>)

  // ---- the judgement ------------------------------------------------------------------------

  /** `allowed` stands for stripping, lowering and looking up a MIME type. */
  predicate Admissible(q: Request, allowed: string -> bool) {
    q.partId != "" && ';' !in q.mime && allowed(q.mime)
  }

  function DurationMs(frames: nat): nat {
    frames * 1000 / SAMPLE_RATE
  }

  predicate DurationFits(duration: Option<int>, frames: nat) {
    duration.Some? ==> duration.value >= 0 && -1 <= duration.value - DurationMs(frames) <= 1
  }

  ghost predicate Acceptable(data: seq<byte>, q: Request, allowed: string -> bool, frames: nat) {
    Admissible(q, allowed) && Recording(data, frames) && DurationFits(q.duration, frames)
  }

  ghost predicate Readable(data: seq<byte>, q: Request, allowed: string -> bool) {
    exists frames: nat :: Acceptable(data, q, allowed, frames)
  }

  ghost predicate Judged(data: seq<byte>, q: Request, allowed: string -> bool, r: Option<Wav>) {
    && (r.Some? <==> Readable(data, q, allowed))
    && (r.Some? ==> Acceptable(data, q, allowed, r.value.frames))
    && (r.Some? ==> r.value == Wav(r.value.frames, 16000, 1, 2, DurationMs(r.value.frames), |data|, data))
  }

  /** Whatever two readers are judged right about the same bytes, they agree in full. */
  lemma JudgedIsUnique(data: seq<byte>, q: Request, allowed: string -> bool, r: Option<Wav>, s: Option<Wav>)
    requires Judged(data, q, allowed, r) && Judged(data, q, allowed, s)
    ensures r == s
  {
    if r.Some? {
      FramesAreUnique(data, r.value.frames, s.value.frames);
    }
  }

  // ---- walking the chunks -------------------------------------------------------------------

  function Prepend(cs: seq<Chunk>, rest: Option<seq<Chunk>>): Option<seq<Chunk>> {
    if rest.Some? then Some(cs + rest.value) else None
  }

  /** The chunks before `pos` are `seen`, and those of the file are these and whatever follows. */
  ghost predicate Walked(data: seq<byte>, pos: nat, seen: seq<Chunk>) {
    && 12 <= pos <= |data|
    && ParseChunks(data[12..]) == Prepend(seen, ParseChunks(data[pos..]))
  }

  lemma NextChunk(data: seq<byte>, pos: nat, seen: seq<Chunk>, first: Option<(Chunk, nat)>)
    requires Walked(data, pos, seen) && pos < |data| && first == FirstChunk(data[pos..])
    ensures first.None? ==> ParseChunks(data[12..]).None?
    ensures first.Some? ==> Walked(data, pos + first.value.1, seen + [first.value.0])
  {
    var b := data[pos..];
    if first.Some? {
      var (c, next) := first.value;
      assert b[next..] == data[pos + next..];
      if ParseChunks(b).Some? {
        var rest := ParseChunks(b[next..]).value;
        assert seen + ([c] + rest) == (seen + [c]) + rest;
      }
    }
  }

  /** A payload starting here lies within the file, and its padding is zero. */
  predicate WholeChunk(data: seq<byte>, start: nat, size: nat) {
    start + size + size % 2 <= |data| && (size % 2 == 1 ==> data[start + size] == 0)
  }

  /** The chunk at an offset, spelled out as the readers see it. */
  lemma ChunkAt(data: seq<byte>, pos: nat, id: seq<byte>, size: nat, first: Option<(Chunk, nat)>)
    requires pos + 8 <= |data|
    requires id == data[pos..pos + 4] && size == U32(data[pos + 4..pos + 8])
    requires first == if WholeChunk(data, pos + 8, size)
                      then Some((Chunk(id, data[pos + 8..pos + 8 + size]), 8 + size + size % 2))
                      else None
    ensures FirstChunk(data[pos..]) == first
  {
    var b := data[pos..];
    assert b[4..8] == data[pos + 4..pos + 8];
    assert b[..4] == id;
    if 8 + size <= |b| {
      assert b[8..8 + size] == data[pos + 8..pos + 8 + size];
    }
  }

  lemma {:induction false} Concatenation(cs: seq<Chunk>, ds: seq<Chunk>)
    ensures forall id :: Payloads(cs + ds, id) == Payloads(cs, id) + Payloads(ds, id)
    ensures AncillaryChunks(cs + ds) == AncillaryChunks(cs) + AncillaryChunks(ds)
    ensures AncillaryBytes(cs + ds) == AncillaryBytes(cs) + AncillaryBytes(ds)
  {
    if cs == [] {
      assert cs + ds == ds;
    } else {
      Concatenation(cs[1..], ds);
      assert (cs + ds)[1..] == cs[1..] + ds;
    }
  }

  /** No file whose chunks begin like this fits the profile. */
  predicate Hopeless(cs: seq<Chunk>) {
    || !KnownChunks(cs)
    || AncillaryChunks(cs) > MAX_ANCILLARY_CHUNKS
    || AncillaryBytes(cs) > MAX_ANCILLARY_BYTES
    || |Payloads(cs, FMT)| > 1
    || |Payloads(cs, DATA)| > 1
    || (|Payloads(cs, FMT)| == 1 && |Payloads(cs, FMT)[0]| != 16 && |Payloads(cs, FMT)[0]| != 18)
    || (|Payloads(cs, DATA)| == 1 && Payloads(cs, DATA)[0] == [])
  }

  lemma HopelessStays(cs: seq<Chunk>, rest: seq<Chunk>)
    requires Hopeless(cs)
    ensures !Profile(cs + rest)
  {
    Concatenation(cs, rest);
    assert forall c | c in cs :: c in cs + rest;
  }

  ghost predicate Rejected(data: seq<byte>) {
    forall frames: nat :: !Recording(data, frames)
  }

  lemma HopelessRejects(data: seq<byte>, pos: nat, seen: seq<Chunk>)
    requires Walked(data, pos, seen) && Hopeless(seen)
    ensures Rejected(data)
  {
    forall frames: nat | Recording(data, frames)
      ensures false
    {
      var cs :| Encodes(data, cs) && Profile(cs) && |Payloads(cs, DATA)[0]| == 2 * frames;
      EncodesIffParses(data, cs);
      HopelessStays(seen, ParseChunks(data[pos..]).value);
    }
  }

  lemma UnparsedRejects(data: seq<byte>)
    requires !GoodHeader(data) || ParseChunks(data[12..]).None?
    ensures Rejected(data)
  {
    forall frames: nat | Recording(data, frames)
      ensures false
    {
      var cs :| Encodes(data, cs) && Profile(cs) && |Payloads(cs, DATA)[0]| == 2 * frames;
      EncodesIffParses(data, cs);
    }
  }

  /** At the end of the file the chunks seen decide. */
  lemma WholeFile(data: seq<byte>, seen: seq<Chunk>)
    requires GoodHeader(data) && Walked(data, |data|, seen)
    ensures Encodes(data, seen)
    ensures Profile(seen) ==> Recording(data, |Payloads(seen, DATA)[0]| / 2)
    ensures !Profile(seen) ==> Rejected(data)
  {
    assert data[|data|..] == [];
    assert seen + [] == seen;
    EncodesIffParses(data, seen);
    if Profile(seen) {
      assert |Payloads(seen, DATA)[0]| == 2 * (|Payloads(seen, DATA)[0]| / 2);
    } else {
      forall frames: nat | Recording(data, frames)
        ensures false
      {
        var cs :| Encodes(data, cs) && Profile(cs) && |Payloads(cs, DATA)[0]| == 2 * frames;
        ChunksAreUnique(data, cs, seen);
      }
    }
  }

  // ---- what a reader keeps about the chunks seen ----------------------------------------------

  /** `size` is the length of the data payload, 0 while there is none. */
  datatype Tally = Tally(fmt: Option<seq<byte>>, size: nat, chunks: nat, bytes: nat)

  ghost predicate Tallied(seen: seq<Chunk>, t: Tally) {
    && KnownChunks(seen)
    && Payloads(seen, FMT) == (if t.fmt.Some? then [t.fmt.value] else [])
    && |Payloads(seen, DATA)| == (if t.size > 0 then 1 else 0)
    && (t.size > 0 ==> |Payloads(seen, DATA)[0]| == t.size)
    && AncillaryChunks(seen) == t.chunks <= MAX_ANCILLARY_CHUNKS
    && AncillaryBytes(seen) == t.bytes <= MAX_ANCILLARY_BYTES
  }

  /** The tally after one more chunk; None when no file with these chunks can be accepted. */
  function Admit(t: Tally, id: seq<byte>, payload: seq<byte>): Option<Tally> {
    if id == FMT then
      if t.fmt.Some? then None else Some(t.(fmt := Some(payload)))
    else if id == DATA then
      if t.size > 0 || payload == [] then None else Some(t.(size := |payload|))
    else if !Ancillary(id) || t.chunks + 1 > MAX_ANCILLARY_CHUNKS || t.bytes + |payload| > MAX_ANCILLARY_BYTES then
      None
    else
      Some(t.(chunks := t.chunks + 1, bytes := t.bytes + |payload|))
  }

  lemma Single(seen: seq<Chunk>, c: Chunk)
    ensures var cs := seen + [c];
            && (forall id :: Payloads(cs, id) == Payloads(seen, id) + if c.id == id then [c.payload] else [])
            && AncillaryChunks(cs) == AncillaryChunks(seen) + (if Ancillary(c.id) then 1 else 0)
            && AncillaryBytes(cs) == AncillaryBytes(seen) + (if Ancillary(c.id) then |c.payload| else 0)
            && (KnownChunks(cs) <==> KnownChunks(seen) && (c.id == FMT || c.id == DATA || Ancillary(c.id)))
  {
    Concatenation(seen, [c]);
    assert [c][1..] == [];
    assert forall id :: Payloads([c], id) == if c.id == id then [c.payload] else [];
    assert forall d :: d in seen + [c] <==> d in seen || d == c;
  }

  lemma TallyNext(seen: seq<Chunk>, t: Tally, c: Chunk)
    requires Tallied(seen, t)
    ensures match Admit(t, c.id, c.payload)
            case None => Hopeless(seen + [c])
            case Some(u) => Tallied(seen + [c], u)
    ensures c.id == FMT && |c.payload| != 16 && |c.payload| != 18 ==> Hopeless(seen + [c])
  {
    Single(seen, c);
  }

  lemma TallyDecides(seen: seq<Chunk>, t: Tally)
    requires Tallied(seen, t)
    ensures Profile(seen) <==> t.fmt.Some? && t.size > 0 && CanonicalFormat(t.fmt.value) && t.size % 2 == 0
    ensures Profile(seen) ==> |Payloads(seen, DATA)[0]| == t.size
  {
  }

  /** A reader stands at `pos` with tally `t`. */
  ghost predicate At(data: seq<byte>, pos: nat, t: Tally) {
    exists seen :: Walked(data, pos, seen) && Tallied(seen, t)
  }

  /** What a reader's next decision must be, standing at the payload of a chunk. */
  ghost predicate Prospect(data: seq<byte>, start: nat, t: Tally, id: seq<byte>, size: nat) {
    if WholeChunk(data, start, size) then Arrived(data, start, t, id, data[start..start + size]) else Rejected(data)
  }

  ghost predicate Arrived(data: seq<byte>, start: nat, t: Tally, id: seq<byte>, payload: seq<byte>) {
    && (Admit(t, id, payload).None? ==> Rejected(data))
    && (Admit(t, id, payload).Some? ==> At(data, start + |payload| + |payload| % 2, Admit(t, id, payload).value))
    && (id == FMT && |payload| != 16 && |payload| != 18 ==> Rejected(data))
  }

  lemma ArriveShort(data: seq<byte>, pos: nat, t: Tally)
    requires At(data, pos, t) && pos < |data| < pos + 8
    ensures Rejected(data)
  {
    var seen :| Walked(data, pos, seen) && Tallied(seen, t);
    NextChunk(data, pos, seen, None);
    UnparsedRejects(data);
  }

  lemma Arrive(data: seq<byte>, pos: nat, t: Tally, id: seq<byte>, size: nat)
    requires At(data, pos, t) && pos + 8 <= |data|
    requires id == data[pos..pos + 4] && size == U32(data[pos + 4..pos + 8])
    ensures Prospect(data, pos + 8, t, id, size)
  {
    var seen :| Walked(data, pos, seen) && Tallied(seen, t);
    if WholeChunk(data, pos + 8, size) {
      ArriveGood(data, pos, seen, t, Chunk(id, data[pos + 8..pos + 8 + size]), size);
    } else {
      ArriveBad(data, pos, seen, id, size);
    }
  }

  lemma ArriveGood(data: seq<byte>, pos: nat, seen: seq<Chunk>, t: Tally, c: Chunk, size: nat)
    requires Walked(data, pos, seen) && Tallied(seen, t) && pos + 8 <= |data|
    requires c.id == data[pos..pos + 4] && size == U32(data[pos + 4..pos + 8])
    requires WholeChunk(data, pos + 8, size) && c.payload == data[pos + 8..pos + 8 + size]
    ensures Arrived(data, pos + 8, t, c.id, c.payload)
  {
    WalkWhole(data, pos, seen, c, size);
    ArriveWhole(data, pos + 8, seen, t, c);
  }

  lemma ArriveBad(data: seq<byte>, pos: nat, seen: seq<Chunk>, id: seq<byte>, size: nat)
    requires Walked(data, pos, seen) && pos + 8 <= |data|
    requires id == data[pos..pos + 4] && size == U32(data[pos + 4..pos + 8])
    requires !WholeChunk(data, pos + 8, size)
    ensures Rejected(data)
  {
    ChunkAt(data, pos, id, size, None);
    NextChunk(data, pos, seen, None);
    UnparsedRejects(data);
  }

  lemma WalkWhole(data: seq<byte>, pos: nat, seen: seq<Chunk>, c: Chunk, size: nat)
    requires Walked(data, pos, seen) && pos + 8 <= |data|
    requires c.id == data[pos..pos + 4] && size == U32(data[pos + 4..pos + 8])
    requires WholeChunk(data, pos + 8, size) && c.payload == data[pos + 8..pos + 8 + size]
    ensures Walked(data, pos + 8 + size + size % 2, seen + [c])
  {
    var first := Some((c, 8 + size + size % 2));
    ChunkAt(data, pos, c.id, size, first);
    NextChunk(data, pos, seen, first);
  }

  lemma ArriveWhole(data: seq<byte>, start: nat, seen: seq<Chunk>, t: Tally, c: Chunk)
    requires Tallied(seen, t) && Walked(data, start + |c.payload| + |c.payload| % 2, seen + [c])
    ensures Arrived(data, start, t, c.id, c.payload)
  {
    TallyNext(seen, t, c);
    if Hopeless(seen + [c]) {
      HopelessRejects(data, start + |c.payload| + |c.payload| % 2, seen + [c]);
    }
  }

  /** A reader at a payload refused it, or took it and stands behind its padding. */
  predicate Read(data: seq<byte>, start: nat, t: Tally, id: seq<byte>, size: nat, next: nat, r: Option<Tally>) {
    if WholeChunk(data, start, size) then
      if r.None? then
        Admit(t, id, data[start..start + size]).None? || (id == FMT && size != 16 && size != 18)
      else r == Admit(t, id, data[start..start + size]) && next == start + size + size % 2
    else r.None?
  }

  lemma Foreseen(data: seq<byte>, start: nat, t: Tally, id: seq<byte>, size: nat, next: nat, r: Option<Tally>)
    requires Prospect(data, start, t, id, size) && Read(data, start, t, id, size, next, r)
    ensures r.Some? ==> next >= start && At(data, next, r.value)
    ensures r.None? ==> Rejected(data)
  {
    if WholeChunk(data, start, size) {
      ForeseenWhole(data, start, t, id, data[start..start + size], next, r);
    }
  }

  lemma ForeseenWhole(data: seq<byte>, start: nat, t: Tally, id: seq<byte>, payload: seq<byte>, next: nat,
                      r: Option<Tally>)
    requires Arrived(data, start, t, id, payload)
    requires r.None? ==> Admit(t, id, payload).None? || (id == FMT && |payload| != 16 && |payload| != 18)
    requires r.Some? ==> r == Admit(t, id, payload) && next == start + |payload| + |payload| % 2
    ensures r.Some? ==> next >= start && At(data, next, r.value)
    ensures r.None? ==> Rejected(data)
  {
  }

  lemma SubSlices(data: seq<byte>, pos: nat, header: seq<byte>)
    requires pos + 8 <= |data| && header == data[pos..pos + 8]
    ensures header[..4] == data[pos..pos + 4] && header[4..8] == data[pos + 4..pos + 8]
  {
  }

  lemma AtStart(data: seq<byte>)
    requires |data| >= 12
    ensures At(data, 12, Tally(None, 0, 0, 0))
  {
    if ParseChunks(data[12..]).Some? {
      assert [] + ParseChunks(data[12..]).value == ParseChunks(data[12..]).value;
    }
    assert Walked(data, 12, []) && Tallied([], Tally(None, 0, 0, 0));
  }

  lemma AtEnd(data: seq<byte>, t: Tally)
    requires GoodHeader(data) && At(data, |data|, t)
    ensures if t.fmt.Some? && t.size > 0 && CanonicalFormat(t.fmt.value) && t.size % 2 == 0
            then Recording(data, t.size / 2) else Rejected(data)
  {
    var seen :| Walked(data, |data|, seen) && Tallied(seen, t);
    WholeFile(data, seen);
    TallyDecides(seen, t);
  }

  lemma NoDuration(data: seq<byte>, q: Request, allowed: string -> bool, frames: nat)
    requires Recording(data, frames) && !DurationFits(q.duration, frames)
    ensures !Readable(data, q, allowed)
  {
    forall n: nat | Recording(data, n)
      ensures n == frames
    {
      FramesAreUnique(data, n, frames);
    }
  }

  /** The checks both readers make once all chunks are in. */
  method CheckFormat(p: seq<byte>, size: nat) returns (r: Option<(nat, nat, nat, nat)>)
    ensures r.Some? <==> CanonicalFormat(p) && size % 2 == 0 && size > 0
    ensures r.Some? ==> r.value == (size / 2, 16000, 1, 2)
  {
    if |p| != 16 && |p| != 18 {
      return None;
    }
    if |p| == 18 && U16(p[16..18]) != 0 {
      return None;
    }
    var format, channels, rate := U16(p[0..2]), U16(p[2..4]), U32(p[4..8]);
    var byteRate, align, bits := U32(p[8..12]), U16(p[12..14]), U16(p[14..16]);
    if format != 1 || channels != 1 || rate != 16000 || bits != 16 || align != 2 || byteRate != 32000 {
      return None;
    }
    if size % align != 0 {
      return None;
    }
    var frames := size / align;
    if frames <= 0 {
      return None;
    }
    r := Some((frames, rate, channels, bits / 8));
  }

  method CheckTally(ghost data: seq<byte>, t: Tally) returns (r: Option<(nat, nat, nat, nat)>)
    requires GoodHeader(data) && At(data, |data|, t)
    ensures r.Some? ==> r.value == (r.value.0, 16000, 1, 2) && Recording(data, r.value.0)
    ensures r.None? ==> Rejected(data)
  {
    AtEnd(data, t);
    if t.fmt.None? || t.size == 0 {
      return None;
    }
    r := CheckFormat(t.fmt.value, t.size);
  }

  method Conclude(ghost data: seq<byte>, t: Tally, q: Request, ghost allowed: string -> bool,
                  byteCount: nat, digested: seq<byte>)
    returns (r: Option<Wav>)
    requires Admissible(q, allowed) && GoodHeader(data) && At(data, |data|, t)
    requires byteCount == |data| && digested == data
    ensures Judged(data, q, allowed, r)
  {
    var checked := CheckTally(data, t);
    if checked.None? {
      return None;
    }
    var (frames, rate, channels, width) := checked.value;
    var ms := frames * 1000 / rate;
    assert ms == DurationMs(frames);
    if q.duration.Some? && (q.duration.value < 0 || q.duration.value - ms > 1 || ms - q.duration.value > 1) {
      NoDuration(data, q, allowed, frames);
      return None;
    }
    r := Some(Wav(frames, rate, channels, width, ms, byteCount, digested));
    assert Acceptable(data, q, allowed, frames);
  }

  // ---- the buffer reader --------------------------------------------------------------------

  function BeforeSemicolon(mime: string): (s: string)
    ensures ';' !in mime ==> s == mime
  {
    if mime == "" || mime[0] == ';' then "" else [mime[0]] + BeforeSemicolon(mime[1..])
  }

  method ValidateWav(data: seq<byte>, q: Request, allowed: string -> bool) returns (r: Option<Wav>)
    ensures Judged(data, q, allowed, r)
  {
    if data == [] {
      UnparsedRejects(data);
      return None;
    }
    if q.partId == "" || !allowed(BeforeSemicolon(q.mime)) || ';' in q.mime {
      return None;
    }
    if |data| < 12 || data[..4] != RIFF || data[8..12] != WAVE || U32(data[4..8]) != |data| - 8 {
      UnparsedRejects(data);
      return None;
    }
    var pos: nat := 12;
    var t := Tally(None, 0, 0, 0);
    AtStart(data);
    while pos < |data|
      invariant At(data, pos, t)
      decreases |data| - pos
    {
      var next := ValidateChunk(data, pos, t);
      if next.None? {
        return None;
      }
      pos, t := next.value.0, next.value.1;
    }
    r := Conclude(data, t, q, allowed, |data|, data);
  }

  /** One turn of the chunk loop of ValidateWav. */
  method ValidateChunk(data: seq<byte>, pos: nat, t: Tally) returns (r: Option<(nat, Tally)>)
    requires pos < |data| && At(data, pos, t)
    ensures r.Some? ==> pos < r.value.0 && At(data, r.value.0, r.value.1)
    ensures r.None? ==> Rejected(data)
  {
    if |data| - pos < 8 {
      ArriveShort(data, pos, t);
      return None;
    }
    var id, size := ChunkHeader(data, pos);
    Arrive(data, pos, t, id, size);
    var next, u := ValidatePayload(data, pos + 8, t, id, size);
    Foreseen(data, pos + 8, t, id, size, next, u);
    r := if u.Some? then Some((next, u.value)) else None;
  }

  method ChunkHeader(data: seq<byte>, pos: nat) returns (id: seq<byte>, size: nat)
    requires pos + 8 <= |data|
    ensures id == data[pos..pos + 4] && size == U32(data[pos + 4..pos + 8])
  {
    id, size := data[pos..pos + 4], U32(data[pos + 4..pos + 8]);
  }

  method ValidatePayload(data: seq<byte>, start: nat, t: Tally, id: seq<byte>, size: nat)
    returns (next: nat, r: Option<Tally>)
    requires start <= |data|
    ensures Read(data, start, t, id, size, next, r)
  {
    var end := start + size;
    next := end + size % 2;
    if end > |data| || next > |data| {
      return next, None;
    }
    var payload := data[start..end];
    if size % 2 == 1 && data[end] != 0 {
      return next, None;
    }
    r := CountChunk(t, id, payload);
  }

  /** The bookkeeping of ValidateWav for one chunk. */
  method CountChunk(t: Tally, id: seq<byte>, payload: seq<byte>) returns (r: Option<Tally>)
    ensures r == Admit(t, id, payload)
  {
    var (fmt, size, chunks, bytes) := (t.fmt, t.size, t.chunks, t.bytes);
    if id == FMT {
      if fmt.Some? {
        return None;
      }
      fmt := Some(payload);
    } else if id == DATA {
      if size > 0 || payload == [] {
        return None;
      }
      size := |payload|;
    } else if id == LIST || id == JUNK {
      chunks, bytes := chunks + 1, bytes + |payload|;
      if chunks > MAX_ANCILLARY_CHUNKS || bytes > MAX_ANCILLARY_BYTES {
        return None;
      }
    } else {
      return None;
    }
    r := Some(Tally(fmt, size, chunks, bytes));
  }

  // ---- the streaming reader -----------------------------------------------------------------

  /** An open regular file. A read returns any non-empty part of what was asked for, until the end. */
  class Descriptor {
    const contents: seq<byte>
    var offset: nat

    constructor (contents: seq<byte>)
      ensures this.contents == contents && offset == 0
    {
      this.contents := contents;
      offset := 0;
    }

    method Read(count: nat) returns (chunk: seq<byte>)
      requires offset <= |contents|
      modifies this
      ensures offset == old(offset) + |chunk| <= |contents|
      ensures chunk == contents[old(offset)..offset]
      ensures |chunk| <= count
      ensures chunk == [] ==> count == 0 || offset == |contents|
    {
      var most := if count <= |contents| - offset then count else |contents| - offset;
      var n: nat :| n <= most && (most > 0 ==> n > 0);
      chunk := contents[offset..offset + n];
      offset := offset + n;
    }

    method Seek(to: nat)
      modifies this
      ensures offset == to
    {
      offset := to;
    }
  }

  class WavStream {
    const file: Descriptor
    const expected: nat
    var consumed: nat
    var digested: seq<byte>

    constructor (file: Descriptor, expected: nat)
      ensures this.file == file && this.expected == expected && consumed == 0 && digested == []
    {
      this.file, this.expected := file, expected;
      consumed, digested := 0, [];
    }

    /** Everything consumed so far has been hashed, in order and once. */
    ghost predicate Valid()
      reads this, file
    {
      && expected == |file.contents|
      && consumed == file.offset <= expected
      && digested == file.contents[..consumed]
    }

    method Take(count: nat) returns (r: Option<seq<byte>>)
      requires Valid()
      modifies this, file
      ensures Valid()
      ensures r.Some? <==> old(consumed) + count <= expected
      ensures r.None? ==> consumed == old(consumed)
      ensures r.Some? ==> consumed == old(consumed) + count && r.value == file.contents[old(consumed)..consumed]
    {
      if consumed + count > expected {
        return None;
      }
      ghost var start := consumed;
      var parts: seq<byte>, remaining: nat := [], count;
      while remaining > 0
        invariant Valid()
        invariant start <= consumed && consumed + remaining == start + count <= expected
        invariant parts == file.contents[start..consumed]
      {
        var chunk := file.Read(if MEDIA_SLAB < remaining then MEDIA_SLAB else remaining);
        consumed := consumed + |chunk|;
        digested := digested + chunk;
        parts := parts + chunk;
        remaining := remaining - |chunk|;
      }
      r := Some(parts);
    }

    method Discard(count: nat) returns (ok: bool)
      requires Valid()
      modifies this, file
      ensures Valid()
      ensures ok <==> old(consumed) + count <= expected
      ensures ok ==> consumed == old(consumed) + count
    {
      if consumed + count > expected {
        return false;
      }
      ghost var start := consumed;
      var remaining: nat := count;
      while remaining > 0
        invariant Valid()
        invariant start <= consumed && consumed + remaining == start + count <= expected
      {
        var chunk := file.Read(if MEDIA_SLAB < remaining then MEDIA_SLAB else remaining);
        consumed := consumed + |chunk|;
        digested := digested + chunk;
        remaining := remaining - |chunk|;
      }
      ok := true;
    }

    /** The chunk loop and everything after it, once the request itself is in order. */
    method InspectBody(q: Request, ghost allowed: string -> bool) returns (r: Option<Wav>)
      requires Valid() && consumed == 0 && expected >= 12 && Admissible(q, allowed)
      modifies this, file
      ensures Judged(file.contents, q, allowed, r)
    {
      ghost var data := file.contents;
      var top := Take(12);
      var header := top.value;
      assert header[4..8] == data[4..8];
      if header[..4] != RIFF || header[8..12] != WAVE || U32(header[4..8]) != expected - 8 {
        UnparsedRejects(data);
        return None;
      }
      var t := Tally(None, 0, 0, 0);
      AtStart(data);
      while consumed < expected
        invariant Valid() && At(data, consumed, t)
        decreases expected - consumed
      {
        var next := ReadChunk(t);
        if next.None? {
          return None;
        }
        t := next.value;
      }
      assert digested == data;
      r := Conclude(data, t, q, allowed, expected, digested);
    }

    /** One turn of the chunk loop. */
    method ReadChunk(t: Tally) returns (r: Option<Tally>)
      requires Valid() && consumed < expected && At(file.contents, consumed, t)
      modifies this, file
      ensures Valid()
      ensures r.Some? ==> consumed > old(consumed) && At(file.contents, consumed, r.value)
      ensures r.None? ==> Rejected(file.contents)
    {
      ghost var data, pos := file.contents, consumed;
      var header := ReadChunkHeader();
      if header.None? {
        ArriveShort(data, pos, t);
        return None;
      }
      var (id, length) := header.value;
      Arrive(data, pos, t, id, length);
      r := ReadBody(t, id, length);
      Foreseen(data, pos + 8, t, id, length, consumed, r);
    }

    method ReadChunkHeader() returns (r: Option<(seq<byte>, nat)>)
      requires Valid()
      modifies this, file
      ensures Valid()
      ensures r.None? <==> old(consumed) + 8 > expected
      ensures r.Some? ==> consumed == old(consumed) + 8
      ensures r.Some? ==> r.value == (file.contents[old(consumed)..old(consumed) + 4],
                                      U32(file.contents[old(consumed) + 4..old(consumed) + 8]))
    {
      ghost var pos := consumed;
      var header := Take(8);
      if header.None? {
        return None;
      }
      SubSlices(file.contents, pos, header.value);
      r := Some((header.value[..4], U32(header.value[4..8])));
    }

    /** The payload and its padding. */
    method ReadBody(t: Tally, id: seq<byte>, length: nat) returns (r: Option<Tally>)
      requires Valid()
      modifies this, file
      ensures Valid() && Read(file.contents, old(consumed), t, id, length, consumed, r)
    {
      if consumed + length + length % 2 > expected {
        return None;
      }
      r := ReadPayload(t, id, length);
      if r.None? {
        return None;
      }
      var padded := ReadPadding(length % 2);
      if !padded {
        return None;
      }
    }

    method ReadPadding(count: nat) returns (ok: bool)
      requires Valid() && count <= 1 && consumed + count <= expected
      modifies this, file
      ensures Valid() && consumed == old(consumed) + count
      ensures ok <==> count == 0 || file.contents[old(consumed)] == 0
    {
      if count == 0 {
        return true;
      }
      var pad := Take(1);
      assert pad.value[0] == file.contents[old(consumed)];
      ok := pad.value == [0];
    }

    /** Takes or skips the payload of a chunk that fits into the file. */
    method ReadPayload(t: Tally, id: seq<byte>, length: nat) returns (r: Option<Tally>)
      requires Valid() && consumed + length <= expected
      modifies this, file
      ensures Valid()
      ensures var payload := file.contents[old(consumed)..old(consumed) + length];
              && (r.Some? ==> r == Admit(t, id, payload) && consumed == old(consumed) + length)
              && (r.None? ==> Admit(t, id, payload).None? || (id == FMT && length != 16 && length != 18))
    {
      var (fmt, size, chunks, bytes) := (t.fmt, t.size, t.chunks, t.bytes);
      if id == FMT {
        if fmt.Some? {
          return None;
        }
        if length != 16 && length != 18 {
          return None;
        }
        fmt := Take(length);
      } else if id == DATA {
        if size > 0 || length == 0 {
          return None;
        }
        size := length;
        var _ := Discard(length);
      } else if id == LIST || id == JUNK {
        chunks, bytes := chunks + 1, bytes + length;
        if chunks > MAX_ANCILLARY_CHUNKS || bytes > MAX_ANCILLARY_BYTES {
          return None;
        }
        var _ := Discard(length);
      } else {
        return None;
      }
      r := Some(Tally(fmt, size, chunks, bytes));
    }
  }

  /** The descriptor is left where the caller had it, however the inspection ends. */
  method InspectWavFile(file: Descriptor, expected: int, q: Request, allowed: string -> bool) returns (r: Option<Wav>)
    modifies file
    ensures file.offset == old(file.offset)
    ensures expected == |file.contents| ==> Judged(file.contents, q, allowed, r)
    ensures expected != |file.contents| ==> r.None?
  {
    if expected < 12 {
      if expected == |file.contents| {
        UnparsedRejects(file.contents);
      }
      return None;
    }
    if q.partId == "" || ';' in q.mime || !allowed(q.mime) {
      return None;
    }
    if q.duration.Some? && q.duration.value < 0 {
      return None;
    }
    if |file.contents| != expected {
      return None;
    }
    var original := file.offset;
    file.Seek(0);
    var stream := new WavStream(file, expected);
    r := stream.InspectBody(q, allowed);
    file.Seek(original);
  }

  /** Both readers give one answer for one file, metadata and digest input included. */
  method ReadersAgree(file: Descriptor, q: Request, allowed: string -> bool) returns (r: Option<Wav>, s: Option<Wav>)
    modifies file
    ensures r == s
  {
    r := ValidateWav(file.contents, q, allowed);
    s := InspectWavFile(file, |file.contents|, q, allowed);
    JudgedIsUnique(file.contents, q, allowed, r, s);
  }
}
