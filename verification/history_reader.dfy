/** The page as the store computes it: batches of rows, read until a budget or the table ends. */
module HistoryReader {
  import opened Wrappers
  import opened History
  import opened HistoryPages
  import opened HistoryOutcomes

  /** Where the scan stands after its first `i` rows, seen from the whole result of the query. */
  ghost predicate Standing(rows: seq<Turn>, f: Filters, limit: nat, measure: Measure, i: nat, items: seq<Turn>,
                           parts: nat)
  {
    i <= |rows| && i <= MAX_ROWS &&
    Scan(rows, f, limit, measure, 0, [], 0) == Scan(rows, f, limit, measure, i, items, parts)
  }

  lemma QueryAfterScanned(table: seq<Turn>, f: Filters, after: Option<Key>, i: nat)
    requires Sorted(table) && i <= |Query(table, f, after)|
    ensures var rows := Query(table, f, after);
            Query(table, f, if i == 0 then after else Some(rows[i - 1].key)) == rows[i..]
  {
    var base := Selected(table, f);
    var rows := Query(table, f, after);
    SelectedIsSorted(table, f);
    ResumeSound(base, after);
    if i > 0 {
      assert rows[i - 1] in rows;
      ResumeTwice(base, after, rows[i - 1].key);
      ResumeDrops(rows, i);
    }
  }

  method TypeOfTurn(t: Turn) returns (r: InputType)
    ensures r == TypeOf(t) && HasType(t, r)
  {
    var anyText, anyAudio := false, false;
    var i := 0;
    while i < |t.parts|
      invariant 0 <= i <= |t.parts|
      invariant anyText <==> exists p | p in t.parts[..i] :: p.kind == Text
      invariant anyAudio <==> exists p | p in t.parts[..i] :: p.kind == Audio
    {
      assert t.parts[..i + 1] == t.parts[..i] + [t.parts[i]];
      anyText := anyText || t.parts[i].kind == Text;
      anyAudio := anyAudio || t.parts[i].kind == Audio;
      i := i + 1;
    }
    assert t.parts[..i] == t.parts;
    r := if t.transcriptBytes > 0 then AudioInput
         else if anyText then TextInput
         else if anyAudio then AudioInput
         else if |t.parts| == 0 then UnknownInput
         else if |t.parts| == 1 then AttachmentInput else MixedInput;
    TypeIsTold(t, r);
  }

  /** What one batch did: went through, stopped the scan, or raised. */
  datatype BatchEnd = Through | Stopped(stop: Stop) | Raised

  /** The inner loop: the rows of one batch, starting at row `start` of the whole query. */
  method ScanBatch(ghost rows: seq<Turn>, batch: seq<Turn>, f: Filters, limit: nat, measure: Measure,
                   start: nat, items0: seq<Turn>, parts0: nat)
    returns (end: BatchEnd, inspected: nat, items: seq<Turn>, parts: nat)
    requires Standing(rows, f, limit, measure, start, items0, parts0)
    requires start + |batch| <= |rows| && start + |batch| <= MAX_ROWS
    requires batch == rows[start..start + |batch|]
    ensures start <= inspected <= start + |batch|
    ensures end == Through ==>
              inspected == start + |batch| && Standing(rows, f, limit, measure, inspected, items, parts)
    ensures end.Stopped? ==>
              end.stop != Exhausted && (items != [] || |items| >= limit)
              && Scan(rows, f, limit, measure, 0, [], 0) == Ok(ScanEnd(items, inspected, end.stop))
    ensures end == Raised ==> Scan(rows, f, limit, measure, 0, [], 0) == Err(Quota)
  {
    items, parts, inspected := items0, parts0, start;
    while inspected < start + |batch|
      invariant start <= inspected <= start + |batch|
      invariant Standing(rows, f, limit, measure, inspected, items, parts)
    {
      if |items| >= limit {
        return Stopped(PageFull), inspected, items, parts;
      }
      var t := batch[inspected - start];
      assert t == rows[inspected];
      if |t.parts| > MAX_PARTS - parts {
        end := if items == [] then Raised else Stopped(PartLimit);
        return;
      }
      var kind := TypeOfTurn(t);
      if f.inputType.None? || kind == f.inputType.value {
        if !Fits(t, Budget(measure, items)) || measure(items + [t], None, false) > MAX_PAGE_BYTES {
          end := if items == [] then Raised else Stopped(Oversize);
          return;
        }
        items := items + [t];
      }
      inspected, parts := inspected + 1, parts + |t.parts|;
    }
    end := Through;
  }

  method ScanTurns(table: seq<Turn>, f: Filters, after: Option<Key>, limit: nat, measure: Measure)
    returns (r: Result<ScanEnd, Error>, lastScanned: Option<Key>)
    requires Sorted(table) && 1 <= limit <= 200
    ensures var rows := Query(table, f, after);
            && r == Scan(rows, f, limit, measure, 0, [], 0)
            && (r.Ok? ==> r.value.scanned <= |rows|)
            && (r.Ok? && r.value.items == [] && r.value.stop != Exhausted ==>
                  0 < r.value.scanned && lastScanned == Some(rows[r.value.scanned - 1].key))
  {
    ghost var rows := Query(table, f, after);
    lastScanned := after;
    var items: seq<Turn>, inspected: nat, parts: nat := [], 0, 0;
    while true
      invariant Standing(rows, f, limit, measure, inspected, items, parts)
      invariant lastScanned == if inspected == 0 then after else Some(rows[inspected - 1].key)
      decreases |rows| - inspected
    {
      var remaining := MAX_ROWS - inspected;
      if remaining == 0 {
        return Ok(ScanEnd(items, inspected, RowLimit)), lastScanned;
      }
      var batchSize := Min(201, Min(limit + 1, remaining));
      QueryAfterScanned(table, f, after, inspected);
      var batch := Limited(Query(table, f, lastScanned), batchSize);
      if batch == [] {
        return Ok(ScanEnd(items, inspected, Exhausted)), lastScanned;
      }
      var end, now, found, used := ScanBatch(rows, batch, f, limit, measure, inspected, items, parts);
      if end == Raised {
        return Err(Quota), lastScanned;
      }
      if end.Stopped? {
        return Ok(ScanEnd(found, now, end.stop)), lastScanned;
      }
      items, inspected, parts := found, now, used;
      lastScanned := Some(batch[|batch| - 1].key);
      if |batch| < batchSize {
        return Ok(ScanEnd(items, inspected, Exhausted)), lastScanned;
      }
    }
  }

  method TrimPage(p: Page, measure: Measure) returns (r: Result<Page, Error>)
    ensures r == Trim(p, measure)
  {
    var page := p;
    while measure(page.items, page.next, page.hasMore) > MAX_PAGE_BYTES
      invariant Trim(p, measure) == Trim(page, measure)
      decreases |page.items|
    {
      if |page.items| <= 1 {
        return Err(Quota);
      }
      var kept := page.items[..|page.items| - 1];
      page := Page(kept, Some(kept[|kept| - 1].key), true);
    }
    r := Ok(page);
  }

  /** The batched reader returns the page of the row-by-row scan. */
  method ReadPage(table: seq<Turn>, f: Filters, after: Option<Key>, limit: nat, measure: Measure)
    returns (r: Result<Page, Error>)
    requires Sorted(table) && 1 <= limit <= 200
    ensures r == PageOf(table, f, after, limit, measure)
    ensures r.Ok? ==> PageHolds(table, f, after, r.value)
  {
    var scan, lastScanned := ScanTurns(table, f, after, limit, measure);
    if scan.Err? {
      return Err(scan.error);
    }
    var items := scan.value.items;
    var hasMore := scan.value.stop != Exhausted;
    var key := if items != [] then Some(items[|items| - 1].key) else lastScanned;
    r := TrimPage(Page(items, if hasMore then key else None, hasMore), measure);
    if r.Ok? {
      PageHoldsExactly(table, f, after, limit, measure, r.value);
    }
  }

  function Min(a: nat, b: nat): nat {
    if a <= b then a else b
  }
}
