/**
 * The history read model: one page is a bounded scan of the turn table that also
 * filters by input type, and a cursor resumes it.
 *
 * A turn id is modelled by its place in the table's collation order. The length
 * of a serialised page is an arbitrary function `measure` of what it holds.
 */
module History {
  import opened Wrappers

  const MAX_PAGE_BYTES := 16 * 1024 * 1024
  const MAX_ROWS := 2048
  const MAX_PARTS := 2048

  datatype Kind = Text | Audio | Other

  datatype InputType = AudioInput | TextInput | AttachmentInput | MixedInput | UnknownInput

  datatype Key = Key(seqno: nat, turn: nat) {
    predicate Less(o: Key) {
      seqno < o.seqno || (seqno == o.seqno && turn < o.turn)
    }
  }

  /** `bytes` is absent when the part has no usable length or digest; `readable` when its source opens as valid text. */
  datatype Part = Part(kind: Kind, complete: bool, hasSource: bool, bytes: Option<nat>, readable: bool)

  datatype Turn = Turn(key: Key, user: string, project: Option<string>, archived: bool,
                       transcriptBytes: nat, answerBytes: nat, parts: seq<Part>)

  datatype Filters = Filters(user: string, project: Option<string>, includeArchived: bool,
                             inputType: Option<InputType>, since: Option<nat>)

  type Measure = (seq<Turn>, Option<Key>, bool) -> nat

  datatype Error = Quota

  datatype Page = Page(items: seq<Turn>, next: Option<Key>, hasMore: bool)

  // ---- the query -----------------------------------------------------------------------

  predicate Where(f: Filters, t: Turn) {
    && t.user == f.user
    && (f.includeArchived || !t.archived)
    && (f.project.Some? ==> t.project == f.project)
    && (f.since.Some? ==> f.since.value < t.key.seqno)
  }

  function Selected(table: seq<Turn>, f: Filters): seq<Turn>
    decreases |table|
  {
    if table == [] then []
    else if Where(f, table[0]) then [table[0]] + Selected(table[1..], f)
    else Selected(table[1..], f)
  }

  predicate Beyond(t: Turn, after: Option<Key>) {
    after.Some? ==> after.value.Less(t.key)
  }

  function Resume(rows: seq<Turn>, after: Option<Key>): seq<Turn>
    decreases |rows|
  {
    if rows == [] then []
    else if Beyond(rows[0], after) then [rows[0]] + Resume(rows[1..], after)
    else Resume(rows[1..], after)
  }

  /** The ordered query with a cursor and no limit; the table is kept in key order. */
  function Query(table: seq<Turn>, f: Filters, after: Option<Key>): seq<Turn> {
    Resume(Selected(table, f), after)
  }

  function Limited(rows: seq<Turn>, n: nat): seq<Turn> {
    if n <= |rows| then rows[..n] else rows
  }

  // ---- one row ---------------------------------------------------------------------------

  function TypeOf(t: Turn): InputType {
    if t.transcriptBytes > 0 then AudioInput
    else if exists p | p in t.parts :: p.kind == Text then TextInput
    else if exists p | p in t.parts :: p.kind == Audio then AudioInput
    else if t.parts == [] then UnknownInput
    else if |t.parts| == 1 then AttachmentInput
    else MixedInput
  }

  predicate Wanted(f: Filters, t: Turn) {
    f.inputType.Some? ==> TypeOf(t) == f.inputType.value
  }

  function OfType(rows: seq<Turn>, f: Filters): seq<Turn>
    decreases |rows|
  {
    if rows == [] then []
    else if Wanted(f, rows[0]) then [rows[0]] + OfType(rows[1..], f)
    else OfType(rows[1..], f)
  }

  /** Bytes and number of the texts read within `budget`, or None when one does not fit. */
  function ReadTexts(parts: seq<Part>, budget: nat): Option<(nat, nat)>
    decreases |parts|
  {
    if parts == [] then Some((0, 0))
    else
      var p := parts[0];
      if p.kind == Text && p.complete && p.hasSource && p.bytes.Some? then
        if p.bytes.value > budget then None
        else if !p.readable then ReadTexts(parts[1..], budget)
        else
          var rest := ReadTexts(parts[1..], budget - p.bytes.value);
          if rest.None? then None else Some((p.bytes.value + rest.value.0, 1 + rest.value.1))
      else ReadTexts(parts[1..], budget)
  }

  /** Can the item be built with this much text? Texts are joined by one newline each. */
  predicate Fits(t: Turn, budget: nat) {
    var texts := ReadTexts(t.parts, budget);
    texts.Some? &&
    (if t.transcriptBytes > 0 then t.transcriptBytes
     else if texts.value.1 > 0 then texts.value.0 + texts.value.1 - 1
     else 0) <= budget &&
    t.answerBytes <= budget
  }

  function Budget(measure: Measure, items: seq<Turn>): nat {
    var used := measure(items, None, true);
    if used <= MAX_PAGE_BYTES then MAX_PAGE_BYTES - used else 0
  }

  /** May the row join the page? */
  predicate Admitted(measure: Measure, items: seq<Turn>, t: Turn) {
    Fits(t, Budget(measure, items)) && measure(items + [t], None, false) <= MAX_PAGE_BYTES
  }

  // ---- the scan, one row at a time -----------------------------------------------------------

  datatype Stop = Exhausted | PageFull | RowLimit | PartLimit | Oversize

  datatype ScanEnd = ScanEnd(items: seq<Turn>, scanned: nat, stop: Stop)

  function Scan(rows: seq<Turn>, f: Filters, limit: nat, measure: Measure, i: nat, items: seq<Turn>,
                parts: nat): Result<ScanEnd, Error>
    requires i <= |rows|
    decreases |rows| - i
  {
    if i >= MAX_ROWS then Ok(ScanEnd(items, i, RowLimit))
    else if i == |rows| then Ok(ScanEnd(items, i, Exhausted))
    else if |items| >= limit then Ok(ScanEnd(items, i, PageFull))
    else
      var t := rows[i];
      if parts + |t.parts| > MAX_PARTS then
        if items == [] then Err(Quota) else Ok(ScanEnd(items, i, PartLimit))
      else if !Wanted(f, t) then Scan(rows, f, limit, measure, i + 1, items, parts + |t.parts|)
      else if !Admitted(measure, items, t) then
        if items == [] then Err(Quota) else Ok(ScanEnd(items, i, Oversize))
      else Scan(rows, f, limit, measure, i + 1, items + [t], parts + |t.parts|)
  }

  /** Drops items until the finished envelope fits. */
  function Trim(p: Page, measure: Measure): Result<Page, Error>
    decreases |p.items|
  {
    if measure(p.items, p.next, p.hasMore) <= MAX_PAGE_BYTES then Ok(p)
    else if |p.items| <= 1 then Err(Quota)
    else
      var kept := p.items[..|p.items| - 1];
      Trim(Page(kept, Some(kept[|kept| - 1].key), true), measure)
  }

  function Envelope(rows: seq<Turn>, e: ScanEnd): Page
    requires e.scanned <= |rows|
  {
    var hasMore := e.stop != Exhausted;
    var key := if e.items != [] then Some(e.items[|e.items| - 1].key)
               else if e.scanned > 0 then Some(rows[e.scanned - 1].key) else None;
    Page(e.items, if hasMore then key else None, hasMore)
  }

  function PageOf(table: seq<Turn>, f: Filters, after: Option<Key>, limit: nat, measure: Measure): Result<Page, Error> {
    var rows := Query(table, f, after);
    var e :- Scan(rows, f, limit, measure, 0, [], 0);
    if e.scanned <= |rows| then Trim(Envelope(rows, e), measure) else Err(Quota)
  }
}
