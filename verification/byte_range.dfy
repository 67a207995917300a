/** Byte ranges of update artifacts (recorder_next/features.py:1955-1980) and their delivery in slabs (89-106). */
module ByteRange {
  import opened Text
  import opened Wrappers

  type byte = x: int | 0 <= x < 256

  const MAX_FILE_SLAB: nat := 65_536

  datatype RangeError = InvalidRange | Unsatisfiable

  predicate StartsWithBytes(s: string) {
    "bytes=" <= s
  }

  /** The text before and after the first dash. */
  function SplitDash(s: string): Option<(string, string)> {
    if s == "" then None
    else if s[0] == '-' then Some(("", s[1..]))
    else
      var rest := SplitDash(s[1..]);
      if rest.Some? then Some(([s[0]] + rest.value.0, rest.value.1)) else None
  }

  function Bounds(start: int, end: int, size: nat): Result<(nat, nat), RangeError> {
    if start < 0 || end < start || start >= size then Err(Unsatisfiable)
    else Ok((start, if end < size - 1 then end else size - 1))
  }

  function Range(value: string, size: nat): Result<(nat, nat), RangeError> {
    if !StartsWithBytes(value) || ',' in value then Err(InvalidRange)
    else
      var parts := SplitDash(Strip(value[6..]));
      if parts.None? then Err(InvalidRange)
      else
        var (startRaw, endRaw) := parts.value;
        if startRaw == "" then
          if !Digits(endRaw) || Decimal(endRaw) == 0 then Err(InvalidRange)
          else Bounds(if size >= Decimal(endRaw) then size - Decimal(endRaw) else 0, size - 1, size)
        else if !Digits(startRaw) || (endRaw != "" && !Digits(endRaw)) then Err(InvalidRange)
        else Bounds(Decimal(startRaw), if endRaw != "" then Decimal(endRaw) else size - 1, size)
  }

  /** Whatever the header says, an accepted range lies inside the artifact. */
  lemma RangeIsInside(value: string, size: nat)
    ensures Range(value, size).Ok? ==> Range(value, size).value.0 <= Range(value, size).value.1 < size
  {
  }

  lemma {:induction false} SplitAtFirst(a: string, b: string)
    requires '-' !in a
    ensures SplitDash(a + "-" + b) == Some((a, b))
  {
    var s := a + "-" + b;
    if a == "" {
      assert s == "-" + b;
      assert s[1..] == b;
    } else {
      SplitAtFirst(a[1..], b);
      assert s[1..] == a[1..] + "-" + b;
      assert [a[0]] + a[1..] == a;
    }
  }

  lemma HeaderParts(a: string, b: string)
    requires a == "" || Digits(a)
    requires b == "" || Digits(b)
    requires a != "" || b != ""
    ensures var value := "bytes=" + (a + "-" + b);
            StartsWithBytes(value) && ',' !in value && SplitDash(Strip(value[6..])) == Some((a, b))
  {
    var spec := a + "-" + b;
    assert ("bytes=" + spec)[6..] == spec;
    assert forall c | c in spec :: c == '-' || Digit(c);
    assert spec[0] in spec && spec[|spec| - 1] in spec;
    assert Strip(spec) == spec;
    assert forall c | c in a :: Digit(c);
    SplitAtFirst(a, b);
  }

  /** Section 14.1.2 of RFC 9110: a suffix of n bytes selects the last min(n, size) of them. */
  lemma SuffixRange(n: string, size: nat)
    requires Digits(n)
    ensures Range("bytes=" + ("" + "-" + n), size) ==
            if Decimal(n) == 0 then Err(InvalidRange)
            else if size == 0 then Err(Unsatisfiable)
            else Ok((if Decimal(n) <= size then size - Decimal(n) else 0, size - 1))
  {
    HeaderParts("", n);
  }

  /** A range with a first position is satisfied exactly when it begins inside the artifact and is not reversed. */
  lemma FirstLastRange(a: string, b: string, size: nat)
    requires Digits(a) && (b == "" || Digits(b))
    ensures var last := if b == "" then size - 1 else Decimal(b);
            Range("bytes=" + (a + "-" + b), size) ==
            if Decimal(a) < size && Decimal(a) <= last then Ok((Decimal(a), if last < size then last else size - 1))
            else Err(Unsatisfiable)
  {
    HeaderParts(a, b);
  }

  lemma {:induction false} SplitIsFirst(s: string, a: string, b: string)
    ensures SplitDash(s) == Some((a, b)) <==> s == a + "-" + b && '-' !in a
    decreases |s|
  {
    if s == a + "-" + b && '-' !in a {
      SplitAtFirst(a, b);
    } else if s != "" && s[0] == '-' {
      assert s == "" + "-" + s[1..];
    } else if s != "" {
      var rest := SplitDash(s[1..]);
      if rest.Some? {
        SplitIsFirst(s[1..], rest.value.0, rest.value.1);
        assert s == [s[0]] + rest.value.0 + "-" + rest.value.1;
      }
    }
  }

  /** A suffix length above zero, or a first position with an optional last one. */
  predicate IsRange(a: string, b: string) {
    if a == "" then Digits(b) && Decimal(b) > 0 else Digits(a) && (b == "" || Digits(b))
  }

  /** A header is invalid exactly if it is not one `bytes=` range of such positions, spaces around it aside. */
  lemma WhenRangeIsInvalid(value: string, size: nat)
    ensures Range(value, size) != Err(InvalidRange) <==>
            && "bytes=" <= value && ',' !in value
            && exists a, b :: Strip(value[6..]) == a + "-" + b && '-' !in a && IsRange(a, b)
  {
    if "bytes=" <= value && ',' !in value {
      var s := Strip(value[6..]);
      var parts := SplitDash(s);
      if parts.Some? {
        SplitIsFirst(s, parts.value.0, parts.value.1);
      }
      forall a, b | s == a + "-" + b && '-' !in a
        ensures parts == Some((a, b))
      {
        SplitIsFirst(s, a, b);
      }
    }
  }

  // ---- delivery -----------------------------------------------------------------------------

  function Flat(chunks: seq<seq<byte>>): seq<byte> {
    if chunks == [] then [] else Flat(chunks[..|chunks| - 1]) + chunks[|chunks| - 1]
  }

  /** A positioned read may return any non-empty part of what is there. */
  method Pread(contents: seq<byte>, count: nat, position: nat) returns (chunk: seq<byte>)
    ensures |chunk| <= count && (chunk != [] ==> position + |chunk| <= |contents|)
    ensures chunk != [] ==> chunk == contents[position..position + |chunk|]
    ensures chunk == [] ==> count == 0 || position >= |contents|
  {
    if position >= |contents| || count == 0 {
      return [];
    }
    var most := if count <= |contents| - position then count else |contents| - position;
    var n: nat :| 0 < n <= most;
    chunk := contents[position..position + n];
  }

  /**
   * For every slab size and every way the reads come back, the chunks are the slice, or the file is too short for it.
   */
  method IterChunks(contents: seq<byte>, offset: nat, end: nat, maxBytes: nat) returns (r: Option<seq<seq<byte>>>)
    requires 1 <= maxBytes <= MAX_FILE_SLAB && offset <= end
    ensures r.Some? <==> end <= |contents| || offset == end
    ensures r.Some? && offset < end ==> Flat(r.value) == contents[offset..end]
    ensures r.Some? ==> |Flat(r.value)| == end - offset
    ensures r.Some? ==> forall c | c in r.value :: 0 < |c| <= maxBytes
  {
    var chunks: seq<seq<byte>> := [];
    var position := offset;
    while position < end
      invariant offset <= position <= end && (position <= |contents| || position == offset)
      invariant position == offset ==> chunks == []
      invariant position <= |contents| ==> Flat(chunks) == contents[offset..position]
      invariant forall c | c in chunks :: 0 < |c| <= maxBytes
    {
      var chunk := Pread(contents, if maxBytes < end - position then maxBytes else end - position, position);
      if chunk == [] {
        return None;
      }
      assert (chunks + [chunk])[..|chunks|] == chunks;
      assert contents[offset..position] + chunk == contents[offset..position + |chunk|];
      chunks := chunks + [chunk];
      position := position + |chunk|;
    }
    r := Some(chunks);
  }

  /** A satisfied range is delivered byte for byte, and its length is the announced Content-Length. */
  method DeliverRange(contents: seq<byte>, value: string, maxBytes: nat)
    returns (r: Result<(nat, seq<seq<byte>>), RangeError>)
    requires 1 <= maxBytes <= MAX_FILE_SLAB
    ensures r.Ok? <==> Range(value, |contents|).Ok?
    ensures r.Ok? ==>
              var (start, end) := Range(value, |contents|).value;
              Flat(r.value.1) == contents[start..end + 1] && r.value.0 == |Flat(r.value.1)|
  {
    var range :- Range(value, |contents|);
    RangeIsInside(value, |contents|);
    var (start, end) := range;
    var chunks := IterChunks(contents, start, end + 1, maxBytes);
    r := Ok((end - start + 1, chunks.value));
  }
}
