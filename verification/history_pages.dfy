/** Pages of the history, and the walk that follows their cursors. */
module HistoryPages {
  import opened Wrappers
  import opened History

  predicate Sorted(rows: seq<Turn>) {
    forall i, j | 0 <= i < j < |rows| :: rows[i].key.Less(rows[j].key)
  }

  // ---- filters and order ---------------------------------------------------------------------

  lemma {:induction false} SelectedIsSorted(table: seq<Turn>, f: Filters)
    requires Sorted(table)
    ensures Sorted(Selected(table, f)) && forall t | t in Selected(table, f) :: t in table
    decreases |table|
  {
    if table != [] {
      SelectedIsSorted(table[1..], f);
      forall t | t in Selected(table[1..], f)
        ensures table[0].key.Less(t.key)
      {
      }
    }
  }

  lemma {:induction false} ResumeKeepsBeyond(rows: seq<Turn>, after: Option<Key>)
    requires forall t | t in rows :: Beyond(t, after)
    ensures Resume(rows, after) == rows
    decreases |rows|
  {
    if rows != [] {
      ResumeKeepsBeyond(rows[1..], after);
    }
  }

  /** In key order, resuming after row `n - 1` is dropping the first `n` rows. */
  lemma {:induction false} ResumeDrops(rows: seq<Turn>, n: nat)
    requires Sorted(rows) && 0 < n <= |rows|
    ensures Resume(rows, Some(rows[n - 1].key)) == rows[n..]
    decreases |rows|
  {
    if n == 1 {
      ResumeKeepsBeyond(rows[1..], Some(rows[0].key));
    } else {
      ResumeDrops(rows[1..], n - 1);
      assert rows[1..][n - 1..] == rows[n..];
    }
  }

  lemma {:induction false} ResumeTwice(rows: seq<Turn>, after: Option<Key>, c: Key)
    requires after.Some? ==> after.value.Less(c)
    ensures Resume(Resume(rows, after), Some(c)) == Resume(rows, Some(c))
    decreases |rows|
  {
    if rows != [] {
      ResumeTwice(rows[1..], after, c);
    }
  }

  lemma {:induction false} ResumeSound(rows: seq<Turn>, after: Option<Key>)
    ensures forall t | t in Resume(rows, after) :: t in rows && Beyond(t, after)
    ensures Sorted(rows) ==> Sorted(Resume(rows, after))
    decreases |rows|
  {
    if rows != [] {
      ResumeSound(rows[1..], after);
      assert Sorted(rows) ==> forall t | t in rows[1..] :: rows[0].key.Less(t.key);
    }
  }

  lemma {:induction false} OfTypeSplits(a: seq<Turn>, b: seq<Turn>, f: Filters)
    ensures OfType(a + b, f) == OfType(a, f) + OfType(b, f)
    decreases |a|
  {
    if a == [] {
      assert a + b == b;
    } else {
      OfTypeSplits(a[1..], b, f);
      assert (a + b)[1..] == a[1..] + b;
    }
  }

  lemma {:induction false} OfTypeSound(rows: seq<Turn>, f: Filters)
    ensures forall t | t in OfType(rows, f) :: t in rows
    ensures Sorted(rows) ==> Sorted(OfType(rows, f))
    decreases |rows|
  {
    if rows != [] {
      OfTypeSound(rows[1..], f);
      assert Sorted(rows) ==> forall t | t in rows[1..] :: rows[0].key.Less(t.key);
    }
  }

  lemma {:induction false} OfTypeThenResume(rows: seq<Turn>, f: Filters, c: Option<Key>)
    ensures OfType(Resume(rows, c), f) == Resume(OfType(rows, f), c)
    decreases |rows|
  {
    if rows != [] {
      OfTypeThenResume(rows[1..], f, c);
    }
  }

  lemma OfTypeSnoc(rows: seq<Turn>, i: nat, f: Filters)
    requires i < |rows|
    ensures OfType(rows[..i + 1], f) == OfType(rows[..i], f) + (if Wanted(f, rows[i]) then [rows[i]] else [])
  {
    assert rows[..i + 1] == rows[..i] + [rows[i]];
    OfTypeSplits(rows[..i], [rows[i]], f);
  }

  // ---- what a scan returns ------------------------------------------------------------------

  predicate EndsWell(rows: seq<Turn>, f: Filters, limit: nat, i: nat, e: ScanEnd) {
    && i <= e.scanned <= |rows|
    && e.items == OfType(rows[..e.scanned], f) && |e.items| <= limit
    && (e.stop == Exhausted ==> e.scanned == |rows|)
    && (e.stop != Exhausted && e.items == [] ==> e.scanned == MAX_ROWS)
  }

  /** The scan's items are exactly the wanted rows among those it passed, and only an empty table exhausts it. */
  lemma {:induction false} ScanSound(rows: seq<Turn>, f: Filters, limit: nat, measure: Measure, i: nat,
                                     items: seq<Turn>, parts: nat)
    requires i <= |rows| && i <= MAX_ROWS && items == OfType(rows[..i], f) && |items| <= limit && 0 < limit
    requires Scan(rows, f, limit, measure, i, items, parts).Ok?
    ensures EndsWell(rows, f, limit, i, Scan(rows, f, limit, measure, i, items, parts).value)
    decreases |rows| - i
  {
    if i < MAX_ROWS && i < |rows| && |items| < limit {
      OfTypeSnoc(rows, i, f);
      var t := rows[i];
      if parts + |t.parts| <= MAX_PARTS {
        if !Wanted(f, t) {
          ScanSound(rows, f, limit, measure, i + 1, items, parts + |t.parts|);
        } else if Admitted(measure, items, t) {
          ScanSound(rows, f, limit, measure, i + 1, items + [t], parts + |t.parts|);
        }
      }
    }
  }

  // ---- what a page promises --------------------------------------------------------------------

  /** The page holds the first wanted rows, and its cursor stands exactly before the remaining ones. */
  ghost predicate GoodPage(rows: seq<Turn>, f: Filters, p: Page) {
    var wanted := OfType(rows, f);
    if p.hasMore then
      && p.next.Some?
      && (exists t :: t in rows && t.key == p.next.value)
      && wanted == p.items + OfType(Resume(rows, p.next), f)
    else p.next.None? && wanted == p.items
  }

  lemma EnvelopeIsGood(rows: seq<Turn>, f: Filters, e: ScanEnd)
    requires Sorted(rows) && e.scanned <= |rows| && e.items == OfType(rows[..e.scanned], f)
    requires e.stop == Exhausted ==> e.scanned == |rows|
    requires e.stop != Exhausted && e.items == [] ==> 0 < e.scanned
    ensures GoodPage(rows, f, Envelope(rows, e))
  {
    var n := e.scanned;
    if e.stop == Exhausted {
      assert rows[..n] == rows;
    } else {
      assert rows == rows[..n] + rows[n..];
      OfTypeSplits(rows[..n], rows[n..], f);
      if e.items == [] {
        NothingYetIsGood(rows, f, n);
      } else {
        CutIsGood(rows, f, |e.items|);
      }
    }
  }

  /** An empty page may resume after the last row it passed. */
  lemma NothingYetIsGood(rows: seq<Turn>, f: Filters, n: nat)
    requires Sorted(rows) && 0 < n <= |rows| && OfType(rows, f) == OfType(rows[n..], f)
    ensures GoodPage(rows, f, Page([], Some(rows[n - 1].key), true))
  {
    ResumeDrops(rows, n);
    assert rows[n - 1] in rows;
  }

  /** Cutting the wanted rows anywhere and resuming after the last one kept loses nothing. */
  lemma CutIsGood(rows: seq<Turn>, f: Filters, n: nat)
    requires Sorted(rows) && 0 < n <= |OfType(rows, f)|
    ensures var wanted := OfType(rows, f);
            GoodPage(rows, f, Page(wanted[..n], Some(wanted[n - 1].key), true))
  {
    var wanted := OfType(rows, f);
    OfTypeSound(rows, f);
    ResumeDrops(wanted, n);
    OfTypeThenResume(rows, f, Some(wanted[n - 1].key));
    assert wanted == wanted[..n] + wanted[n..];
    assert wanted[n - 1] in rows;
  }

  lemma {:induction false} TrimIsGood(rows: seq<Turn>, f: Filters, p: Page, measure: Measure)
    requires Sorted(rows) && GoodPage(rows, f, p) && Trim(p, measure).Ok?
    ensures var q := Trim(p, measure).value;
            && GoodPage(rows, f, q) && |q.items| <= |p.items|
            && measure(q.items, q.next, q.hasMore) <= MAX_PAGE_BYTES
    decreases |p.items|
  {
    if measure(p.items, p.next, p.hasMore) > MAX_PAGE_BYTES {
      var kept := p.items[..|p.items| - 1];
      var wanted := OfType(rows, f);
      assert p.items <= wanted && kept == wanted[..|kept|] && kept[|kept| - 1] == wanted[|kept| - 1];
      CutIsGood(rows, f, |kept|);
      TrimIsGood(rows, f, Page(kept, Some(kept[|kept| - 1].key), true), measure);
    }
  }

  /**
   * A page that is returned holds at most `limit` items within the byte limit; they are the
   * first wanted turns after the cursor; `hasMore` comes with a cursor strictly further on
   * from which the remaining wanted turns follow, and without `hasMore` nothing remains.
   */
  lemma PageIsGood(table: seq<Turn>, f: Filters, after: Option<Key>, limit: nat, measure: Measure)
    requires Sorted(table) && 0 < limit && PageOf(table, f, after, limit, measure).Ok?
    ensures var p := PageOf(table, f, after, limit, measure).value;
            && |p.items| <= limit && measure(p.items, p.next, p.hasMore) <= MAX_PAGE_BYTES
            && (p.hasMore <==> p.next.Some?)
            && (p.hasMore && after.Some? ==> after.value.Less(p.next.value))
            && OfType(Query(table, f, after), f) ==
               p.items + (if p.hasMore then OfType(Query(table, f, p.next), f) else [])
            && (p.hasMore ==> |Query(table, f, p.next)| < |Query(table, f, after)|)
  {
    var rows := Query(table, f, after);
    var base := Selected(table, f);
    SelectedIsSorted(table, f);
    ResumeSound(base, after);
    ScanSound(rows, f, limit, measure, 0, [], 0);
    var e := Scan(rows, f, limit, measure, 0, [], 0).value;
    EnvelopeIsGood(rows, f, e);
    TrimIsGood(rows, f, Envelope(rows, e), measure);
    var p := PageOf(table, f, after, limit, measure).value;
    if p.hasMore {
      var c := p.next.value;
      var n: nat :| n < |rows| && rows[n].key == c;
      assert Beyond(rows[n], after) by { assert rows[n] in rows; }
      ResumeTwice(base, after, c);
      ResumeDrops(rows, n + 1);
    } else {
      assert p.items + [] == p.items;
    }
  }

  // ---- following the cursors --------------------------------------------------------------------

  /** The turns a client collects by following `next` until a page has no more; an error stops the walk. */
  function Walk(table: seq<Turn>, f: Filters, after: Option<Key>, limit: nat,
                measure: Measure): Result<seq<Turn>, Error>
    decreases |Query(table, f, after)|
  {
    var p :- PageOf(table, f, after, limit, measure);
    if !p.hasMore then Ok(p.items)
    else if |Query(table, f, p.next)| < |Query(table, f, after)| then
      var rest :- Walk(table, f, p.next, limit, measure);
      Ok(p.items + rest)
    else Err(Quota)
  }

  /** Over a fixed table a walk that meets no error returns every wanted turn once, in key order. */
  lemma {:induction false} WalkIsComplete(table: seq<Turn>, f: Filters, after: Option<Key>, limit: nat,
                                          measure: Measure)
    requires Sorted(table) && 0 < limit && Walk(table, f, after, limit, measure).Ok?
    ensures Walk(table, f, after, limit, measure).value == OfType(Query(table, f, after), f)
    ensures Sorted(Walk(table, f, after, limit, measure).value)
    decreases |Query(table, f, after)|
  {
    PageIsGood(table, f, after, limit, measure);
    var p := PageOf(table, f, after, limit, measure).value;
    if p.hasMore {
      WalkIsComplete(table, f, p.next, limit, measure);
    }
    SelectedIsSorted(table, f);
    ResumeSound(Selected(table, f), after);
    OfTypeSound(Query(table, f, after), f);
  }

  /** Following the cursors from `after`, the client asks for the page at `c`. */
  predicate AsksFor(table: seq<Turn>, f: Filters, after: Option<Key>, limit: nat, measure: Measure, c: Option<Key>)
    decreases |Query(table, f, after)|
  {
    c == after ||
    (var p := PageOf(table, f, after, limit, measure);
     && p.Ok? && p.value.hasMore
     && |Query(table, f, p.value.next)| < |Query(table, f, after)|
     && AsksFor(table, f, p.value.next, limit, measure, c))
  }

  /** The walk never stops for want of progress: it fails exactly when a page it asks for fails. */
  lemma {:induction false} WalkFailsOnlyWithPage(table: seq<Turn>, f: Filters, after: Option<Key>, limit: nat,
                                                 measure: Measure)
    requires Sorted(table) && 0 < limit
    ensures Walk(table, f, after, limit, measure).Err? <==>
            exists c :: AsksFor(table, f, after, limit, measure, c) && PageOf(table, f, c, limit, measure).Err?
    decreases |Query(table, f, after)|
  {
    var p := PageOf(table, f, after, limit, measure);
    if p.Err? {
      assert AsksFor(table, f, after, limit, measure, after);
    } else {
      PageIsGood(table, f, after, limit, measure);
      if p.value.hasMore {
        var next := p.value.next;
        WalkFailsOnlyWithPage(table, f, next, limit, measure);
        assert forall c :: AsksFor(table, f, after, limit, measure, c) <==>
                             c == after || AsksFor(table, f, next, limit, measure, c);
      }
    }
  }

  // ---- when a page raises -------------------------------------------------------------------------

  function PartsIn(rows: seq<Turn>): nat
    decreases |rows|
  {
    if rows == [] then 0 else PartsIn(rows[..|rows| - 1]) + |rows[|rows| - 1].parts|
  }

  lemma {:induction false} ScanWithItemsReturns(rows: seq<Turn>, f: Filters, limit: nat, measure: Measure, i: nat,
                                                items: seq<Turn>, parts: nat)
    requires i <= |rows| && items != []
    ensures Scan(rows, f, limit, measure, i, items, parts).Ok?
    decreases |rows| - i
  {
    if i < MAX_ROWS && i < |rows| && |items| < limit && parts + |rows[i].parts| <= MAX_PARTS {
      if !Wanted(f, rows[i]) {
        ScanWithItemsReturns(rows, f, limit, measure, i + 1, items, parts + |rows[i].parts|);
      } else if Admitted(measure, items, rows[i]) {
        ScanWithItemsReturns(rows, f, limit, measure, i + 1, items + [rows[i]], parts + |rows[i].parts|);
      }
    }
  }

  /** Row `k` is reached with no item accepted, and is beyond the part budget or does not fit an empty page. */
  predicate Blocks(rows: seq<Turn>, f: Filters, measure: Measure, k: nat) {
    k < |rows| && k < MAX_ROWS && OfType(rows[..k], f) == [] &&
    (PartsIn(rows[..k + 1]) > MAX_PARTS || (Wanted(f, rows[k]) && !Admitted(measure, [], rows[k])))
  }

  lemma {:induction false} ScanFailsIffBlocked(rows: seq<Turn>, f: Filters, limit: nat, measure: Measure, i: nat)
    requires i <= |rows| && i <= MAX_ROWS && 0 < limit && OfType(rows[..i], f) == [] && PartsIn(rows[..i]) <= MAX_PARTS
    ensures Scan(rows, f, limit, measure, i, [], PartsIn(rows[..i])).Err? <==>
              exists k: nat :: i <= k && Blocks(rows, f, measure, k)
    decreases |rows| - i
  {
    if i < MAX_ROWS && i < |rows| {
      assert rows[..i + 1][..i] == rows[..i];
      OfTypeSnoc(rows, i, f);
      if PartsIn(rows[..i + 1]) > MAX_PARTS {
        assert Blocks(rows, f, measure, i);
      } else if !Wanted(f, rows[i]) {
        ScanFailsIffBlocked(rows, f, limit, measure, i + 1);
        assert !Blocks(rows, f, measure, i);
      } else {
        WantedEnds(rows, f, i);
        if Admitted(measure, [], rows[i]) {
          ScanWithItemsReturns(rows, f, limit, measure, i + 1, [] + [rows[i]], PartsIn(rows[..i + 1]));
        } else {
          assert Blocks(rows, f, measure, i);
        }
      }
    }
  }

  lemma WantedEnds(rows: seq<Turn>, f: Filters, i: nat)
    requires i < |rows| && Wanted(f, rows[i])
    ensures forall k: nat | i < k <= |rows| :: OfType(rows[..k], f) != []
  {
    forall k: nat | i < k <= |rows|
      ensures OfType(rows[..k], f) != []
    {
      assert rows[..k] == rows[..i + 1] + rows[i + 1..k];
      OfTypeSplits(rows[..i + 1], rows[i + 1..k], f);
      OfTypeSnoc(rows, i, f);
    }
  }

  /** Neither the page nor any shorter cut of it fits the byte limit. */
  ghost predicate NoCutFits(p: Page, measure: Measure) {
    && measure(p.items, p.next, p.hasMore) > MAX_PAGE_BYTES
    && forall k: nat | 0 < k < |p.items| :: measure(p.items[..k], Some(p.items[k - 1].key), true) > MAX_PAGE_BYTES
  }

  lemma {:induction false} TrimFailsIff(p: Page, measure: Measure)
    ensures Trim(p, measure).Err? <==> NoCutFits(p, measure)
    decreases |p.items|
  {
    if measure(p.items, p.next, p.hasMore) > MAX_PAGE_BYTES && |p.items| > 1 {
      var n := |p.items| - 1;
      var kept := p.items[..n];
      var q := Page(kept, Some(kept[n - 1].key), true);
      TrimFailsIff(q, measure);
      forall k: nat | 0 < k < n
        ensures kept[..k] == p.items[..k]
      {
      }
      assert p.items[..n] == kept;
    }
  }

  /** A page raises exactly when some row blocks an empty page, or no cut of the finished envelope fits. */
  lemma PageRaises(table: seq<Turn>, f: Filters, after: Option<Key>, limit: nat, measure: Measure)
    requires Sorted(table) && 0 < limit
    ensures var rows := Query(table, f, after);
            var end := Scan(rows, f, limit, measure, 0, [], 0);
            && (end.Err? <==> exists k: nat :: Blocks(rows, f, measure, k))
            && (end.Ok? ==> end.value.scanned <= |rows|)
            && (PageOf(table, f, after, limit, measure).Err? <==>
                  end.Err? || NoCutFits(Envelope(rows, end.value), measure))
  {
    var rows := Query(table, f, after);
    ScanFailsIffBlocked(rows, f, limit, measure, 0);
    assert rows[..0] == [];
    var end := Scan(rows, f, limit, measure, 0, [], 0);
    if end.Ok? {
      ScanSound(rows, f, limit, measure, 0, [], 0);
      TrimFailsIff(Envelope(rows, end.value), measure);
    }
  }

  // ---- a row that blocks the history --------------------------------------------------------------

  function Crowded(): Turn {
    Turn(Key(1, 1), "u", None, false, 0, 0, seq(MAX_PARTS + 1, _ => Part(Other, true, false, None, false)))
  }

  const LATER := Turn(Key(2, 2), "u", None, false, 0, 0, [])
  const OWN := Filters("u", None, false, None, None)

  function Weightless(items: seq<Turn>, next: Option<Key>, more: bool): nat {
    0
  }

  /**
   * A turn of 2049 parts makes the first page raise, although the turn behind it fits a page;
   * as no page comes back, the client never learns the cursor that would lead past it.
   */
  lemma CrowdedTurnBlocksHistory()
    ensures Sorted([Crowded(), LATER])
    ensures PageOf([Crowded(), LATER], OWN, None, 10, Weightless).Err?
    ensures PageOf([Crowded(), LATER], OWN, Some(Crowded().key), 10, Weightless) == Ok(Page([LATER], None, false))
    ensures Walk([Crowded(), LATER], OWN, None, 10, Weightless).Err?
  {
    var table := [Crowded(), LATER];
    assert Selected([LATER], OWN) == [LATER];
    assert Selected(table, OWN) == table;
    assert Resume([LATER], None) == [LATER];
    assert Query(table, OWN, None) == table;
    assert Resume([LATER], Some(Crowded().key)) == [LATER];
    assert Query(table, OWN, Some(Crowded().key)) == [LATER];
    OneRowPage(LATER);
  }

  /** A turn without text or parts, alone in the query. */
  lemma OneRowPage(t: Turn)
    requires t.parts == [] && t.transcriptBytes == 0 && t.answerBytes == 0
    ensures Scan([t], OWN, 10, Weightless, 0, [], 0) == Ok(ScanEnd([t], 1, Exhausted))
  {
    assert Admitted(Weightless, [], t);
    var items: seq<Turn> := [] + [t];
    assert items == [t];
    assert Scan([t], OWN, 10, Weightless, 1, items, 0) == Ok(ScanEnd(items, 1, Exhausted));
  }
}
