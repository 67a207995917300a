/** Finding the end of the request header and reading Content-Length (recorder_next/http.py:75-89, 422-444). */
module HttpFraming {
  import opened Text
  import opened Wrappers

  type byte = x: int | 0 <= x < 256

  const MAX_HEADER_BYTES: nat := 64 * 1024
  const MARKER: seq<byte> := [13, 10, 13, 10]

  // ---- the header terminator ----------------------------------------------------------------

  predicate MarkerAt(s: seq<byte>, i: nat) {
    i + 4 <= |s| && s[i..i + 4] == MARKER
  }

  /** The first occurrence from i on. */
  function Find(s: seq<byte>, i: nat): (r: Option<nat>)
    requires i <= |s|
    ensures r.Some? ==> i <= r.value && MarkerAt(s, r.value) && forall j | i <= j < r.value :: !MarkerAt(s, j)
    ensures r.None? ==> forall j | i <= j :: !MarkerAt(s, j)
    decreases |s| - i
  {
    if i + 4 > |s| then None else if s[i..i + 4] == MARKER then Some(i) else Find(s, i + 1)
  }

  /** The length of the header within a stream: up to the first blank line, or all of it while there is none. */
  function HeaderSize(stream: seq<byte>): nat {
    var at := Find(stream, 0);
    if at.Some? then at.value + 4 else |stream|
  }

  predicate HeaderEnds(stream: seq<byte>) {
    Find(stream, 0).Some?
  }

  function LastThree(s: seq<byte>): seq<byte> {
    if |s| <= 3 then s else s[|s| - 3..]
  }

  lemma MarkerShift(front: seq<byte>, s: seq<byte>, i: nat)
    ensures MarkerAt(front + s, |front| + i) <==> MarkerAt(s, i)
  {
    if i + 4 <= |s| {
      assert (front + s)[|front| + i..|front| + i + 4] == s[i..i + 4];
    }
  }

  lemma MarkerStays(s: seq<byte>, data: seq<byte>, i: nat)
    requires i + 4 <= |s|
    ensures MarkerAt(s + data, i) <==> MarkerAt(s, i)
  {
    assert (s + data)[i..i + 4] == s[i..i + 4];
  }

  lemma FoundStays(s: seq<byte>, data: seq<byte>)
    requires HeaderEnds(s)
    ensures Find(s + data, 0) == Find(s, 0)
  {
    var at := Find(s, 0).value;
    MarkerStays(s, data, at);
    forall j: nat | j < at
      ensures !MarkerAt(s + data, j)
    {
      MarkerStays(s, data, j);
    }
  }

  /** The first occurrence is where there is one and none before it. */
  lemma FirstIs(s: seq<byte>, at: Option<nat>)
    requires at.Some? ==> MarkerAt(s, at.value) && forall j: nat | j < at.value :: !MarkerAt(s, j)
    requires at.None? ==> forall j: nat :: !MarkerAt(s, j)
    ensures Find(s, 0) == at
  {
  }

  lemma FindShift(front: seq<byte>, s: seq<byte>)
    requires forall j: nat | j < |front| :: !MarkerAt(front + s, j)
    ensures Find(front + s, 0) == if Find(s, 0).Some? then Some(|front| + Find(s, 0).value) else None
  {
    var near := Find(s, 0);
    forall j: nat
      ensures MarkerAt(front + s, j) <==> j >= |front| && MarkerAt(s, j - |front|)
    {
      if j >= |front| {
        MarkerShift(front, s, j - |front|);
      }
    }
    FirstIs(front + s, if near.Some? then Some(|front| + near.value) else None);
  }

  lemma NoMarkerBefore(s: seq<byte>, data: seq<byte>, n: nat)
    requires !HeaderEnds(s) && (n + 3 <= |s| || n == 0)
    ensures forall j: nat | j < n :: !MarkerAt(s + data, j)
  {
    forall j: nat | j < n
      ensures !MarkerAt(s + data, j)
    {
      MarkerStays(s, data, j);
    }
  }

  /** Only the last three bytes of a stream without a marker can begin one. */
  lemma FindFromTail(s: seq<byte>, data: seq<byte>)
    requires !HeaderEnds(s)
    ensures var tail := LastThree(s);
            var near := Find(tail + data, 0);
            Find(s + data, 0) == if near.Some? then Some(|s| - |tail| + near.value) else None
    ensures Find(LastThree(s) + data, 0).Some? ==> Find(LastThree(s) + data, 0).value + 4 > |LastThree(s)|
  {
    var tail := LastThree(s);
    var front := s[..|s| - |tail|];
    NoMarkerBefore(s, data, |front|);
    assert s + data == front + (tail + data);
    FindShift(front, tail + data);
  }

  /** More input never makes the header shorter, and a finished header keeps its size. */
  lemma HeaderSizeGrows(s: seq<byte>, data: seq<byte>)
    ensures HeaderSize(s) <= HeaderSize(s + data)
    ensures HeaderEnds(s) ==> HeaderEnds(s + data) && HeaderSize(s) == HeaderSize(s + data)
  {
    if HeaderEnds(s) {
      FoundStays(s, data);
    } else {
      FindFromTail(s, data);
    }
  }

  class HeaderReader {
    var headerBytes: nat
    var headerTail: seq<byte>
    var headerComplete: bool
    ghost var stream: seq<byte>

    constructor ()
      ensures Valid() && stream == []
    {
      headerBytes, headerTail, headerComplete := 0, [], false;
      stream := [];
    }

    /** The fields say what a look at the whole stream so far would say. */
    ghost predicate Valid()
      reads this
    {
      && headerBytes == HeaderSize(stream)
      && (headerComplete <==> HeaderEnds(stream))
      && (!headerComplete ==> headerTail == LastThree(stream))
    }

    method RecordHeader(data: seq<byte>) returns (tooLarge: bool)
      requires Valid()
      modifies this
      ensures Valid() && stream == old(stream) + data
      ensures tooLarge <==> !old(headerComplete) && headerBytes > MAX_HEADER_BYTES
    {
      ghost var before := stream;
      stream := stream + data;
      if headerComplete {
        FoundStays(before, data);
        return false;
      }
      FindFromTail(before, data);
      var previousTail := headerTail;
      var combined := previousTail + data;
      var markerAt := Find(combined, 0);
      if markerAt.None? {
        headerBytes := headerBytes + |data|;
        headerTail := LastThree(combined);
      } else {
        var headerEnd := markerAt.value + 4;
        headerBytes := headerBytes + if headerEnd > |previousTail| then headerEnd - |previousTail| else 0;
        headerComplete := true;
      }
      tooLarge := headerBytes > MAX_HEADER_BYTES;
    }
  }

  function Flat(pieces: seq<seq<byte>>): seq<byte> {
    if pieces == [] then [] else Flat(pieces[..|pieces| - 1]) + pieces[|pieces| - 1]
  }

  lemma {:induction false} FlatSplit(pieces: seq<seq<byte>>, i: nat)
    requires i <= |pieces|
    ensures Flat(pieces) == Flat(pieces[..i]) + Flat(pieces[i..])
    decreases |pieces|
  {
    if i == |pieces| {
      assert pieces[..i] == pieces;
    } else {
      var front, last := pieces[..|pieces| - 1], pieces[|pieces| - 1];
      FlatSplit(front, i);
      assert front[..i] == pieces[..i];
      assert pieces[i..][..|pieces[i..]| - 1] == front[i..];
    }
  }

  /** Whatever the pieces, completion, count and rejection are those of the stream they make up. */
  method ReadHeader(pieces: seq<seq<byte>>) returns (tooLarge: bool, complete: bool, count: nat)
    ensures tooLarge <==> HeaderSize(Flat(pieces)) > MAX_HEADER_BYTES
    ensures !tooLarge ==> count == HeaderSize(Flat(pieces)) && (complete <==> HeaderEnds(Flat(pieces)))
  {
    var reader := new HeaderReader();
    var i := 0;
    while i < |pieces|
      invariant 0 <= i <= |pieces|
      invariant fresh(reader) && reader.Valid() && reader.stream == Flat(pieces[..i])
      invariant HeaderSize(Flat(pieces[..i])) <= MAX_HEADER_BYTES
    {
      HeaderSizeGrows(Flat(pieces[..i]), pieces[i]);
      assert pieces[..i + 1][..i] == pieces[..i];
      tooLarge := reader.RecordHeader(pieces[i]);
      i := i + 1;
      if tooLarge {
        FlatSplit(pieces, i);
        HeaderSizeGrows(Flat(pieces[..i]), Flat(pieces[i..]));
        return true, reader.headerComplete, reader.headerBytes;
      }
    }
    assert pieces[..i] == pieces;
    return false, reader.headerComplete, reader.headerBytes;
  }

  /** Two ways of cutting one stream into reads have one result. */
  method SplitsAgree(a: seq<seq<byte>>, b: seq<seq<byte>>)
    returns (x: (bool, Option<(bool, nat)>), y: (bool, Option<(bool, nat)>))
    requires Flat(a) == Flat(b)
    ensures x == y
  {
    var large, complete, count := ReadHeader(a);
    x := (large, if large then None else Some((complete, count)));
    large, complete, count := ReadHeader(b);
    y := (large, if large then None else Some((complete, count)));
  }

  // ---- Content-Length -----------------------------------------------------------------------

  datatype Length = Accepted(bytes: nat) | Rejected(status: int)

  /**
   * A body length is accepted exactly when there is no Transfer-Encoding and either no Content-Length or a
   * single one that denotes a number within the limit; a larger number is told apart from a malformed one.
   */
  method ValidatedContentLength(transferEncoding: seq<string>, contentLength: seq<string>, maxRequestBytes: nat)
    returns (r: Length)
    ensures transferEncoding != [] || |contentLength| > 1 ==> r == Rejected(400)
    ensures transferEncoding == [] && |contentLength| == 0 ==> r == Accepted(0)
    ensures transferEncoding == [] && |contentLength| == 1 ==>
              var raw := Strip(contentLength[0]);
              && (!Digits(raw) ==> r == Rejected(400))
              && (Digits(raw) ==>
                    r == if Decimal(raw) <= maxRequestBytes then Accepted(Decimal(raw)) else Rejected(413))
  {
    if transferEncoding != [] {
      return Rejected(400);
    }
    if |contentLength| > 1 {
      return Rejected(400);
    }
    if contentLength == [] {
      return Accepted(0);
    }
    var raw := Strip(contentLength[0]);
    if !Digits(raw) {
      return Rejected(400);
    }
    var normalized := TrimZeros(raw);
    TrimKeepsValue(raw);
    if normalized == "" {
      normalized := "0";
      assert Decimal("0"[..0]) == 0 && Decimal("0") == 0;
    }
    var maximumDigits := DecimalWidth(maxRequestBytes);
    if |normalized| > maximumDigits {
      TooWide(normalized, maxRequestBytes);
      return Rejected(413);
    }
    var length := Decimal(normalized);
    if length > maxRequestBytes {
      return Rejected(413);
    }
    r := Accepted(length);
  }

  lemma {:induction false} Pow10Grows(m: nat, n: nat)
    requires m <= n
    ensures Pow10(m) <= Pow10(n)
    decreases n
  {
    if m < n {
      Pow10Grows(m, n - 1);
    }
  }

  /** A numeral with more digits than the limit is over it. */
  lemma TooWide(s: string, limit: nat)
    requires Digits(s) && (s[0] != '0' || |s| == 1) && |s| > DecimalWidth(limit)
    ensures Decimal(s) > limit
  {
    WidthBounds(limit);
    WideIsLarge(s);
    Pow10Grows(DecimalWidth(limit), |s| - 1);
  }
}
