/**
 * The paged diagnostics export: events, bundles and tombstones in one order, a row
 * and a byte budget per page, and a cursor that resumes strictly after a key.
 *
 * Identifiers are modelled by their place in the collation order; the length of a
 * rendered page is an arbitrary function `measure` of what it holds.
 */
module DiagnosticsExport {
  import opened Wrappers

  datatype Source = Event | Bundle | Tombstone {
    function Rank(): nat {
      if this == Event then 0 else if this == Bundle then 1 else 2
    }
  }

  /** `entity` tells apart rows with equal keys: the entity type a tombstone stands for. */
  datatype Entry = Entry(source: Source, at: int, id: nat, entity: string, expires: int) {
    function Cursor(): Key {
      Key(at, source.Rank(), id)
    }
  }

  datatype Key = Key(at: int, rank: nat, id: nat) {
    predicate Less(o: Key) {
      at < o.at || (at == o.at && rank < o.rank) || (at == o.at && rank == o.rank && id < o.id)
    }
  }

  datatype Error = TooLarge

  type Measure = (seq<Entry>, Option<Key>, bool) -> nat

  datatype Page = Page(rows: seq<Entry>, next: Option<Key>, truncated: bool)

  predicate Sorted(rows: seq<Entry>) {
    forall i, j | 0 <= i < j < |rows| :: !rows[j].Cursor().Less(rows[i].Cursor())
  }

  predicate DistinctKeys(rows: seq<Entry>) {
    forall i, j | 0 <= i < j < |rows| :: rows[i].Cursor() != rows[j].Cursor()
  }

  // ---- the snapshot ----------------------------------------------------------------------

  datatype Snapshot = Snapshot(events: seq<Entry>, bundles: seq<Entry>, tombstones: seq<Entry>)

  function Live(rows: seq<Entry>, now: int): seq<Entry>
    decreases |rows|
  {
    if rows == [] then []
    else (if now < rows[0].expires then [rows[0]] else []) + Live(rows[1..], now)
  }

  /** `rows` is the ordered union of what is live in the three sources. */
  ghost predicate Lists(rows: seq<Entry>, s: Snapshot, now: int) {
    && Sorted(rows)
    && multiset(rows) ==
       multiset(Live(s.events, now)) + multiset(Live(s.bundles, now)) + multiset(Live(s.tombstones, now))
  }

  function Resume(rows: seq<Entry>, after: Option<Key>): seq<Entry>
    decreases |rows|
  {
    if rows == [] || after.None? then rows
    else if after.value.Less(rows[0].Cursor()) then [rows[0]] + Resume(rows[1..], after)
    else Resume(rows[1..], after)
  }

  // ---- one page -----------------------------------------------------------------------------

  function LastKey(rows: seq<Entry>): Option<Key> {
    if rows == [] then None else Some(rows[|rows| - 1].Cursor())
  }

  /** How many leading rows one page takes, at most `limit`; None when not even one fits. */
  function Take(rows: seq<Entry>, n: nat, limit: nat, bytes: nat, measure: Measure): Option<nat>
    requires n <= |rows|
    decreases |rows| - n
  {
    if n == |rows| || n >= limit then Some(n)
    else if measure(rows[..n + 1], None, false) > bytes then (if n == 0 then None else Some(n))
    else Take(rows, n + 1, limit, bytes, measure)
  }

  function Finish(rows: seq<Entry>, n: nat, bytes: nat, measure: Measure): Result<Page, Error>
    requires n <= |rows|
  {
    var page := if n == |rows| then Page(rows, None, false) else Page(rows[..n], LastKey(rows[..n]), true);
    if measure(page.rows, page.next, page.truncated) > bytes then Err(TooLarge) else Ok(page)
  }

  function Export(rows: seq<Entry>, after: Option<Key>, limit: nat, bytes: nat, measure: Measure): Result<Page, Error> {
    var rest := Resume(rows, after);
    var n := Take(rest, 0, limit, bytes, measure);
    if n.None? then Err(TooLarge)
    else if n.value <= |rest| then Finish(rest, n.value, bytes, measure)
    else Err(TooLarge)
  }

  /** The page as the store builds it, from at most `limit + 1` fetched rows. */
  method ExportPage(rows: seq<Entry>, after: Option<Key>, limit: nat, bytes: nat, measure: Measure)
    returns (r: Result<Page, Error>)
    requires 1 <= limit <= 500
    ensures r == Export(rows, after, limit, bytes, measure)
  {
    ghost var rest := Resume(rows, after);
    var fetched := Resume(rows, after);
    if |fetched| > limit + 1 {
      fetched := fetched[..limit + 1];
    }
    var accepted, next, truncated, i := [], None, false, 0;
    while i < |fetched|
      invariant 0 <= i <= |fetched| && fetched == rest[..|fetched|]
      invariant accepted == rest[..i] && i <= limit && next == None && !truncated
      invariant Take(rest, 0, limit, bytes, measure) == Take(rest, i, limit, bytes, measure)
    {
      if i >= limit {
        truncated, next := true, LastKey(accepted);
        break;
      }
      assert rest[..i + 1] == rest[..i] + [fetched[i]];
      if measure(accepted + [fetched[i]], None, false) > bytes {
        if accepted == [] {
          return Err(TooLarge);
        }
        truncated, next := true, LastKey(accepted);
        break;
      }
      accepted := accepted + [fetched[i]];
      i := i + 1;
    }
    assert i == |rest| ==> rest[..i] == rest;
    r := if measure(accepted, next, truncated) > bytes then Err(TooLarge) else Ok(Page(accepted, next, truncated));
  }

  lemma {:induction false} TakeBounds(rows: seq<Entry>, n: nat, limit: nat, bytes: nat, measure: Measure)
    requires n <= |rows| && n <= limit && 0 < limit && Take(rows, n, limit, bytes, measure).Some?
    ensures n <= Take(rows, n, limit, bytes, measure).value <= |rows|
    ensures Take(rows, n, limit, bytes, measure).value <= limit
    ensures rows != [] ==> 0 < Take(rows, n, limit, bytes, measure).value
    decreases |rows| - n
  {
    if n < |rows| && n < limit && measure(rows[..n + 1], None, false) <= bytes {
      TakeBounds(rows, n + 1, limit, bytes, measure);
    }
  }

  // ---- following the cursors --------------------------------------------------------------------

  function Walk(rows: seq<Entry>, after: Option<Key>, limit: nat, bytes: nat,
                measure: Measure): Result<seq<Entry>, Error>
    decreases |Resume(rows, after)|
  {
    var page :- Export(rows, after, limit, bytes, measure);
    if !page.truncated then Ok(page.rows)
    else if |Resume(rows, page.next)| < |Resume(rows, after)| then
      var rest :- Walk(rows, page.next, limit, bytes, measure);
      Ok(page.rows + rest)
    else Err(TooLarge)
  }

  lemma {:induction false} ResumeKeeps(rows: seq<Entry>, after: Option<Key>)
    requires forall e | e in rows :: after.Some? ==> after.value.Less(e.Cursor())
    ensures Resume(rows, after) == rows
    decreases |rows|
  {
    if rows != [] && after.Some? {
      ResumeKeeps(rows[1..], after);
    }
  }

  /** Resuming after row `n - 1` keeps exactly the later rows with a greater key. */
  lemma {:induction false} ResumeFrom(rows: seq<Entry>, n: nat)
    requires Sorted(rows) && 0 < n <= |rows|
    ensures Resume(rows, LastKey(rows[..n])) == Resume(rows[n..], LastKey(rows[..n]))
    decreases n
  {
    var c := LastKey(rows[..n]);
    assert !c.value.Less(rows[0].Cursor());
    if n == 1 {
      assert rows[1..] == rows[n..];
    } else {
      assert rows[1..][..n - 1] == rows[1..n] && rows[1..][n - 1..] == rows[n..];
      ResumeFrom(rows[1..], n - 1);
    }
  }

  lemma {:induction false} ResumeIsSuffix(rows: seq<Entry>, after: Option<Key>)
    requires Sorted(rows)
    ensures |Resume(rows, after)| <= |rows| && Resume(rows, after) == rows[|rows| - |Resume(rows, after)|..]
    decreases |rows|
  {
    if rows != [] && after.Some? {
      if after.value.Less(rows[0].Cursor()) {
        forall e | e in rows[1..]
          ensures after.value.Less(e.Cursor())
        {
          assert !e.Cursor().Less(rows[0].Cursor());
        }
        ResumeKeeps(rows[1..], after);
      } else {
        ResumeIsSuffix(rows[1..], after);
        var n := |Resume(rows[1..], after)|;
        assert rows[1..][|rows| - 1 - n..] == rows[|rows| - n..];
      }
    }
  }

  lemma {:induction false} ResumeIsBeyond(rows: seq<Entry>, after: Option<Key>)
    ensures forall e | e in Resume(rows, after) :: after.Some? ==> after.value.Less(e.Cursor())
    decreases |rows|
  {
    if rows != [] && after.Some? {
      ResumeIsBeyond(rows[1..], after);
    }
  }

  lemma ResumeIsTail(rows: seq<Entry>, after: Option<Key>)
    requires Sorted(rows)
    ensures |Resume(rows, after)| <= |rows| && Resume(rows, after) == rows[|rows| - |Resume(rows, after)|..]
    ensures Sorted(Resume(rows, after)) && (DistinctKeys(rows) ==> DistinctKeys(Resume(rows, after)))
    ensures forall e | e in Resume(rows, after) :: after.Some? ==> after.value.Less(e.Cursor())
  {
    ResumeIsSuffix(rows, after);
    ResumeIsBeyond(rows, after);
  }

  lemma ResumeAgain(rows: seq<Entry>, after: Option<Key>, n: nat)
    requires Sorted(rows) && 0 < n <= |Resume(rows, after)|
    ensures var rest := Resume(rows, after);
            Resume(rows, LastKey(rest[..n])) == Resume(rest[n..], LastKey(rest[..n]))
  {
    var rest := Resume(rows, after);
    ResumeIsTail(rows, after);
    var m := |rows| - |rest| + n;
    assert rows[m..] == rest[n..];
    assert rows[m - 1] == rest[n - 1] && LastKey(rows[..m]) == LastKey(rest[..n]);
    ResumeFrom(rows, m);
  }

  /** A returned page obeys both limits and is the first part of what remains; `truncated` comes with its last key. */
  lemma PageSound(rows: seq<Entry>, after: Option<Key>, limit: nat, bytes: nat, measure: Measure)
    requires Sorted(rows) && 0 < limit && Export(rows, after, limit, bytes, measure).Ok?
    ensures var p := Export(rows, after, limit, bytes, measure).value;
            var rest := Resume(rows, after);
            && |p.rows| <= limit && measure(p.rows, p.next, p.truncated) <= bytes
            && p.rows <= rest
            && (p.truncated <==> p.rows != rest)
            && (p.truncated ==> p.rows != [] && p.next == LastKey(p.rows))
            && (p.truncated ==> Resume(rows, p.next) == Resume(rest[|p.rows|..], p.next))
            && (p.truncated ==> |Resume(rows, p.next)| < |rest|)
  {
    var rest := Resume(rows, after);
    TakeBounds(rest, 0, limit, bytes, measure);
    var n := Take(rest, 0, limit, bytes, measure).value;
    ResumeIsTail(rows, after);
    if n < |rest| {
      ResumeAgain(rows, after, n);
      ResumeIsTail(rest[n..], LastKey(rest[..n]));
    }
  }

  // ---- where a page stops -------------------------------------------------------------------

  predicate PrefixFits(rest: seq<Entry>, k: nat, bytes: nat, measure: Measure)
    requires k <= |rest|
  {
    measure(rest[..k], None, false) <= bytes
  }

  /**
   * The first `n` rows all fit, and no further one may: the table or the row limit ends there, or the next does not
   * fit.
   */
  ghost predicate StopsAt(rest: seq<Entry>, n: nat, limit: nat, bytes: nat, measure: Measure) {
    && n <= |rest| && n <= limit
    && (forall k: nat | 0 < k <= n :: PrefixFits(rest, k, bytes, measure))
    && (n == |rest| || n == limit || !PrefixFits(rest, n + 1, bytes, measure))
  }

  lemma {:induction false} TakeStops(rest: seq<Entry>, n: nat, limit: nat, bytes: nat, measure: Measure)
    requires n <= |rest| && n <= limit && forall k: nat | 0 < k <= n :: PrefixFits(rest, k, bytes, measure)
    ensures Take(rest, n, limit, bytes, measure).Some? ==>
              StopsAt(rest, Take(rest, n, limit, bytes, measure).value, limit, bytes, measure)
    ensures Take(rest, n, limit, bytes, measure).None? <==>
            n == 0 && rest != [] && 0 < limit && !PrefixFits(rest, 1, bytes, measure)
    decreases |rest| - n
  {
    if n < |rest| && n < limit && PrefixFits(rest, n + 1, bytes, measure) {
      TakeStops(rest, n + 1, limit, bytes, measure);
    }
  }

  function PageAt(rest: seq<Entry>, n: nat): Page
    requires n <= |rest|
  {
    Page(rest[..n], if n == |rest| || n == 0 then None else Some(rest[n - 1].Cursor()), n < |rest|)
  }

  /**
   * The page is the longest the limits allow; it raises exactly if its first row does not fit, or if the finished
   * page, with its cursor, does not.
   */
  lemma WhatExportReturns(rows: seq<Entry>, after: Option<Key>, limit: nat, bytes: nat, measure: Measure)
    requires 0 < limit
    ensures var rest := Resume(rows, after);
            var r := Export(rows, after, limit, bytes, measure);
            if rest != [] && !PrefixFits(rest, 1, bytes, measure) then r == Err(TooLarge)
            else exists n: nat :: StopsAt(rest, n, limit, bytes, measure) && IsPageAt(rest, n, bytes, measure, r)
  {
    var rest := Resume(rows, after);
    TakeStops(rest, 0, limit, bytes, measure);
    var taken := Take(rest, 0, limit, bytes, measure);
    if taken.Some? {
      TakeBounds(rest, 0, limit, bytes, measure);
      var n := taken.value;
      assert StopsAt(rest, n, limit, bytes, measure);
      FinishIsPage(rest, n, bytes, measure);
    }
  }

  /** The finished page of the first `n` rows, if it fits with its cursor. */
  predicate IsPageAt(rest: seq<Entry>, n: nat, bytes: nat, measure: Measure, r: Result<Page, Error>) {
    && n <= |rest| && (n == 0 ==> rest == [])
    && var p := PageAt(rest, n);
       r == if measure(p.rows, p.next, p.truncated) > bytes then Err(TooLarge) else Ok(p)
  }

  lemma FinishIsPage(rest: seq<Entry>, n: nat, bytes: nat, measure: Measure)
    requires n <= |rest| && (n == 0 ==> rest == [])
    ensures IsPageAt(rest, n, bytes, measure, Finish(rest, n, bytes, measure))
  {
    if n == |rest| {
      assert rest[..n] == rest;
    }
  }

  /** A page that leaves rows behind stops only at the row limit or before a row that does not fit its bytes. */
  lemma WhyPageStops(rows: seq<Entry>, after: Option<Key>, limit: nat, bytes: nat, measure: Measure, p: Page)
    requires Sorted(rows) && 0 < limit && Export(rows, after, limit, bytes, measure) == Ok(p) && p.truncated
    ensures var rest := Resume(rows, after);
            |p.rows| < |rest| &&
            (|p.rows| == limit || !PrefixFits(rest, |p.rows| + 1, bytes, measure))
  {
    var rest := Resume(rows, after);
    TakeStops(rest, 0, limit, bytes, measure);
    TakeBounds(rest, 0, limit, bytes, measure);
  }

  lemma LaterKeys(rest: seq<Entry>, n: nat)
    requires Sorted(rest) && DistinctKeys(rest) && 0 < n <= |rest|
    ensures forall e | e in rest[n..] :: rest[n - 1].Cursor().Less(e.Cursor())
  {
    forall e | e in rest[n..]
      ensures rest[n - 1].Cursor().Less(e.Cursor())
    {
      var k :| n <= k < |rest| && rest[k] == e;
      assert rest[n - 1].Cursor() != rest[k].Cursor() && !rest[k].Cursor().Less(rest[n - 1].Cursor());
    }
  }

  lemma AfterFront(rest: seq<Entry>, front: seq<Entry>, next: Option<Key>)
    requires Sorted(rest) && DistinctKeys(rest) && front <= rest && front != [] && next == LastKey(front)
    ensures front + Resume(rest[|front|..], next) == rest
  {
    LaterKeys(rest, |front|);
    ResumeKeeps(rest[|front|..], next);
  }

  /** With distinct keys the rest after a page is what the page's cursor resumes at. */
  lemma PageThenRest(rows: seq<Entry>, after: Option<Key>, limit: nat, bytes: nat, measure: Measure, p: Page)
    requires Sorted(rows) && DistinctKeys(rows) && 0 < limit
    requires Export(rows, after, limit, bytes, measure) == Ok(p) && p.truncated
    ensures p.rows + Resume(rows, p.next) == Resume(rows, after)
    ensures |Resume(rows, p.next)| < |Resume(rows, after)|
  {
    PageSound(rows, after, limit, bytes, measure);
    ResumeIsTail(rows, after);
    AfterFront(Resume(rows, after), p.rows, p.next);
  }

  lemma {:induction false} WalkFrom(rows: seq<Entry>, after: Option<Key>, limit: nat, bytes: nat, measure: Measure)
    requires Sorted(rows) && DistinctKeys(rows) && 0 < limit && Walk(rows, after, limit, bytes, measure).Ok?
    ensures Walk(rows, after, limit, bytes, measure).value == Resume(rows, after)
    decreases |Resume(rows, after)|
  {
    PageSound(rows, after, limit, bytes, measure);
    var p := Export(rows, after, limit, bytes, measure).value;
    if p.truncated {
      PageThenRest(rows, after, limit, bytes, measure, p);
      WalkFrom(rows, p.next, limit, bytes, measure);
    }
  }

  // ---- the keys of the tables ------------------------------------------------------------------

  /** Ids are unique within a table, except that tombstones are unique by entity type and id. */
  ghost predicate Keyed(rows: seq<Entry>, source: Source) {
    && (forall e | e in rows :: e.source == source)
    && (forall i, j | 0 <= i < j < |rows| && rows[i].id == rows[j].id ::
          source == Tombstone && rows[i].entity != rows[j].entity)
  }

  ghost predicate KeyedTables(s: Snapshot) {
    Keyed(s.events, Event) && Keyed(s.bundles, Bundle) && Keyed(s.tombstones, Tombstone)
  }

  /** An event and a bundle with one id, deleted at one instant, have both left a tombstone that is still kept. */
  ghost predicate Collide(s: Snapshot, now: int) {
    exists e, f ::
      && e in s.tombstones && f in s.tombstones && e.entity != f.entity && e.Cursor() == f.Cursor()
      && now < e.expires && now < f.expires
  }

  lemma {:induction false} LiveRows(rows: seq<Entry>, now: int)
    ensures forall e :: multiset(Live(rows, now))[e] == if now < e.expires then multiset(rows)[e] else 0
    decreases |rows|
  {
    if rows != [] {
      assert rows == [rows[0]] + rows[1..];
      LiveRows(rows[1..], now);
    }
  }

  lemma {:induction false} KeyedCounts(rows: seq<Entry>, source: Source)
    requires Keyed(rows, source)
    ensures forall e :: multiset(rows)[e] <= 1
    decreases |rows|
  {
    if rows != [] {
      assert rows == [rows[0]] + rows[1..];
      KeyedCounts(rows[1..], source);
      assert rows[0] !in rows[1..] by {
        forall j | 1 <= j < |rows|
          ensures rows[j] != rows[0]
        {
        }
      }
    }
  }

  lemma KeyedDiffer(rows: seq<Entry>, source: Source, e: Entry, f: Entry)
    requires Keyed(rows, source) && e in rows && f in rows && e != f && e.id == f.id
    ensures source == Tombstone && e.entity != f.entity
  {
    var i :| 0 <= i < |rows| && rows[i] == e;
    var j :| 0 <= j < |rows| && rows[j] == f;
    if j < i {
      assert rows[j].id == rows[i].id;
    }
  }

  /** Every listed row is live in the table of its own kind, and listed once. */
  lemma ListedOnce(s: Snapshot, now: int, rows: seq<Entry>, e: Entry)
    requires KeyedTables(s) && Lists(rows, s, now)
    ensures multiset(rows)[e] <= 1
    ensures e in rows <==>
            now < e.expires &&
            e in (match e.source case Event => s.events case Bundle => s.bundles case Tombstone => s.tombstones)
  {
    LiveRows(s.events, now);
    LiveRows(s.bundles, now);
    LiveRows(s.tombstones, now);
    KeyedCounts(s.events, Event);
    KeyedCounts(s.bundles, Bundle);
    KeyedCounts(s.tombstones, Tombstone);
    assert e in rows <==> multiset(rows)[e] > 0;
    assert e in s.events <==> multiset(s.events)[e] > 0;
    assert e in s.bundles <==> multiset(s.bundles)[e] > 0;
    assert e in s.tombstones <==> multiset(s.tombstones)[e] > 0;
  }

  lemma CountedTwice(rows: seq<Entry>, i: nat, j: nat)
    requires i < j < |rows| && rows[i] == rows[j]
    ensures multiset(rows)[rows[i]] >= 2
  {
    assert rows == rows[..j] + [rows[j]] + rows[j + 1..];
    assert rows[i] in rows[..j];
  }

  /** Two listed rows share a key only if they are colliding tombstones. */
  lemma SharedKeyCollides(s: Snapshot, now: int, rows: seq<Entry>, i: nat, j: nat)
    requires KeyedTables(s) && Lists(rows, s, now) && i < j < |rows| && rows[i].Cursor() == rows[j].Cursor()
    ensures Collide(s, now)
  {
    var e, f := rows[i], rows[j];
    ListedOnce(s, now, rows, e);
    ListedOnce(s, now, rows, f);
    if e == f {
      CountedTwice(rows, i, j);
    }
    assert e.source == f.source;
    match e.source
    case Event => KeyedDiffer(s.events, Event, e, f);
    case Bundle => KeyedDiffer(s.bundles, Bundle, e, f);
    case Tombstone => KeyedDiffer(s.tombstones, Tombstone, e, f);
  }

  lemma SharedKey(rows: seq<Entry>, e: Entry, f: Entry)
    requires e in rows && f in rows && e != f && e.Cursor() == f.Cursor()
    ensures !DistinctKeys(rows)
  {
    var i :| 0 <= i < |rows| && rows[i] == e;
    var j :| 0 <= j < |rows| && rows[j] == f;
    assert i < j || j < i;
  }

  /** The keys of the tables leave one way for two rows to share a key. */
  lemma WhenKeysAreDistinct(s: Snapshot, now: int, rows: seq<Entry>)
    requires KeyedTables(s) && Lists(rows, s, now)
    ensures DistinctKeys(rows) <==> !Collide(s, now)
  {
    if Collide(s, now) {
      var e, f :|
        && e in s.tombstones && f in s.tombstones && e.entity != f.entity && e.Cursor() == f.Cursor()
        && now < e.expires && now < f.expires;
      ListedOnce(s, now, rows, e);
      ListedOnce(s, now, rows, f);
      SharedKey(rows, e, f);
    } else if !DistinctKeys(rows) {
      var i, j :| 0 <= i < j < |rows| && rows[i].Cursor() == rows[j].Cursor();
      SharedKeyCollides(s, now, rows, i, j);
    }
  }

  /**
   * Unless two tombstones collide, a walk that meets no error lists every live row of
   * the three tables exactly once, in order.
   */
  lemma WalkListsEverything(s: Snapshot, now: int, rows: seq<Entry>, limit: nat, bytes: nat, measure: Measure)
    requires KeyedTables(s) && !Collide(s, now) && Lists(rows, s, now) && 0 < limit
    requires Walk(rows, None, limit, bytes, measure).Ok?
    ensures var all := Walk(rows, None, limit, bytes, measure).value;
            all == rows
            && multiset(all) ==
               multiset(Live(s.events, now)) + multiset(Live(s.bundles, now)) + multiset(Live(s.tombstones, now))
  {
    WhenKeysAreDistinct(s, now, rows);
    WalkFrom(rows, None, limit, bytes, measure);
  }

  predicate NotAfter(e: Entry, f: Entry) {
    e.at < f.at || (e.at == f.at && (e.source.Rank() < f.source.Rank() || (e.source == f.source && e.id <= f.id)))
  }

  /** Told from the tables: the rows still kept, each once, by time, then kind, then id. */
  lemma WalkHoldsExactly(s: Snapshot, now: int, rows: seq<Entry>, limit: nat, bytes: nat, measure: Measure)
    requires KeyedTables(s) && !Collide(s, now) && Lists(rows, s, now) && 0 < limit
    requires Walk(rows, None, limit, bytes, measure).Ok?
    ensures var all := Walk(rows, None, limit, bytes, measure).value;
            && (forall e :: e in all <==> (e in s.events || e in s.bundles || e in s.tombstones) && now < e.expires)
            && (forall i, j | 0 <= i < j < |all| :: NotAfter(all[i], all[j]) && all[i] != all[j])
  {
    WalkListsEverything(s, now, rows, limit, bytes, measure);
    WhenKeysAreDistinct(s, now, rows);
    ListedInOrder(rows);
    forall e
      ensures e in rows <==> (e in s.events || e in s.bundles || e in s.tombstones) && now < e.expires
    {
      ListedIfKept(s, now, rows, e);
    }
  }

  lemma ListedInOrder(rows: seq<Entry>)
    requires Sorted(rows) && DistinctKeys(rows)
    ensures forall i, j | 0 <= i < j < |rows| :: NotAfter(rows[i], rows[j]) && rows[i] != rows[j]
  {
    forall i, j | 0 <= i < j < |rows|
      ensures NotAfter(rows[i], rows[j]) && rows[i] != rows[j]
    {
      assert !rows[j].Cursor().Less(rows[i].Cursor()) && rows[i].Cursor() != rows[j].Cursor();
    }
  }

  lemma ListedIfKept(s: Snapshot, now: int, rows: seq<Entry>, e: Entry)
    requires KeyedTables(s) && Lists(rows, s, now)
    ensures e in rows <==> (e in s.events || e in s.bundles || e in s.tombstones) && now < e.expires
  {
    ListedOnce(s, now, rows, e);
    assert e in s.events ==> e.source == Event;
    assert e in s.bundles ==> e.source == Bundle;
    assert e in s.tombstones ==> e.source == Tombstone;
  }

  // ---- ties -----------------------------------------------------------------------------------------

  function Free(rows: seq<Entry>, next: Option<Key>, truncated: bool): nat {
    0
  }

  lemma {:induction false} OneByOneReturns(rows: seq<Entry>, after: Option<Key>, bytes: nat)
    requires Sorted(rows)
    ensures Walk(rows, after, 1, bytes, Free).Ok?
    ensures |Walk(rows, after, 1, bytes, Free).value| <= |Resume(rows, after)|
    decreases |Resume(rows, after)|
  {
    var rest := Resume(rows, after);
    assert Take(rest, 0, 1, bytes, Free) == Some(if rest == [] then 0 else 1);
    PageSound(rows, after, 1, bytes, Free);
    var p := Export(rows, after, 1, bytes, Free).value;
    if p.truncated {
      OneByOneReturns(rows, p.next, bytes);
    }
  }

  /** A one-row page, and what its cursor resumes at. */
  lemma OneRowPage(rows: seq<Entry>, after: Option<Key>, bytes: nat, rest: seq<Entry>, next: Option<Key>)
    requires Sorted(rows) && rest == Resume(rows, after) && |rest| > 1 && next == Some(rest[0].Cursor())
    ensures Export(rows, after, 1, bytes, Free) == Ok(Page(rest[..1], next, true))
    ensures Resume(rows, next) == Resume(rest[1..], next) && |Resume(rows, next)| < |rest|
    ensures Sorted(rest[1..])
  {
    assert Take(rest, 0, 1, bytes, Free) == Some(1);
    PageSound(rows, after, 1, bytes, Free);
    ResumeIsTail(rows, after);
  }

  /** When a page ends between two rows with one key, the walk loses the second. */
  lemma {:induction false} TiesAreLost(rows: seq<Entry>, after: Option<Key>, bytes: nat)
    requires Sorted(rows) && !DistinctKeys(Resume(rows, after))
    ensures Walk(rows, after, 1, bytes, Free).Ok?
    ensures |Walk(rows, after, 1, bytes, Free).value| < |Resume(rows, after)|
    decreases |Resume(rows, after)|
  {
    var rest := Resume(rows, after);
    var next := Some(rest[0].Cursor());
    OneRowPage(rows, after, bytes, rest, next);
    OneByOneReturns(rows, next, bytes);
    var tail := Resume(rows, next);
    if |tail| == |rest| - 1 {
      WholeTail(rest, tail, next);
      TiesAreLost(rows, next, bytes);
    }
    assert Walk(rows, after, 1, bytes, Free).value == rest[..1] + Walk(rows, next, 1, bytes, Free).value;
    ResumeIsTail(rest[1..], next);
  }

  lemma WholeTail(rest: seq<Entry>, tail: seq<Entry>, next: Option<Key>)
    requires rest != [] && !DistinctKeys(rest) && next == Some(rest[0].Cursor()) && Sorted(rest[1..])
    requires tail == Resume(rest[1..], next) && |tail| == |rest| - 1
    ensures !DistinctKeys(tail)
  {
    ResumeIsTail(rest[1..], next);
    assert tail == rest[1..];
    assert forall e | e in rest[1..] :: e.Cursor() != rest[0].Cursor();
    TiesInTail(rest);
  }

  lemma TiesInTail(rest: seq<Entry>)
    requires rest != [] && !DistinctKeys(rest) && forall e | e in rest[1..] :: e.Cursor() != rest[0].Cursor()
    ensures !DistinctKeys(rest[1..])
  {
    var i, j :| 0 <= i < j < |rest| && rest[i].Cursor() == rest[j].Cursor();
    assert rest[j] in rest[1..];
    assert rest[1..][i - 1] == rest[i] && rest[1..][j - 1] == rest[j];
  }

  /** The exact condition: exporting one row at a time lists everything if and only if no two rows share a key. */
  lemma CompleteIffDistinct(rows: seq<Entry>, bytes: nat)
    requires Sorted(rows)
    ensures Walk(rows, None, 1, bytes, Free) == Ok(rows) <==> DistinctKeys(rows)
  {
    OneByOneReturns(rows, None, bytes);
    if DistinctKeys(rows) {
      WalkFrom(rows, None, 1, bytes, Free);
    } else {
      TiesAreLost(rows, None, bytes);
    }
  }

  /** In terms of the tables: it lists everything if and only if no two tombstones collide. */
  lemma WhenExportIsComplete(s: Snapshot, now: int, rows: seq<Entry>, bytes: nat)
    requires KeyedTables(s) && Lists(rows, s, now)
    ensures Walk(rows, None, 1, bytes, Free) == Ok(rows) <==> !Collide(s, now)
  {
    WhenKeysAreDistinct(s, now, rows);
    CompleteIffDistinct(rows, bytes);
  }

  /** An event and a bundle with one id, deleted together, leave two tombstones of which the export can show one. */
  lemma TombstonesCanCollide(bytes: nat)
    ensures var event := Entry(Tombstone, 5, 7, "event", 9);
            var bundle := Entry(Tombstone, 5, 7, "bundle", 9);
            && Lists([event, bundle], Snapshot([], [], [event, bundle]), 6)
            && KeyedTables(Snapshot([], [], [event, bundle]))
            && Walk([event, bundle], None, 1, bytes, Free) != Ok([event, bundle])
  {
    var event := Entry(Tombstone, 5, 7, "event", 9);
    var bundle := Entry(Tombstone, 5, 7, "bundle", 9);
    var rows := [event, bundle];
    assert rows[1..] == [bundle];
    assert Live(rows, 6) == rows by {
      assert Live([bundle], 6) == [bundle];
    }
    assert Live([], 6) == [];
    CompleteIffDistinct(rows, bytes);
    assert rows[0].Cursor() == rows[1].Cursor();
  }
}
