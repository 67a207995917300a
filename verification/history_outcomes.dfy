/**
 * Which turns a page and a walk hold, told from the turns' own fields; which rows fit a page;
 * and why a page ends where it does.
 */
module HistoryOutcomes {
  import opened Wrappers
  import opened History
  import opened HistoryPages

  // ---- what was asked for --------------------------------------------------------------------

  predicate Spoken(t: Turn) {
    t.transcriptBytes > 0
  }

  predicate HasPart(t: Turn, kind: Kind) {
    exists i | 0 <= i < |t.parts| :: t.parts[i].kind == kind
  }

  /** The input type, told from the transcript and the parts. */
  predicate HasType(t: Turn, k: InputType) {
    match k
    case AudioInput => Spoken(t) || (HasPart(t, Audio) && !HasPart(t, Text))
    case TextInput => !Spoken(t) && HasPart(t, Text)
    case AttachmentInput => !Spoken(t) && |t.parts| == 1 && t.parts[0].kind == Other
    case MixedInput => !Spoken(t) && |t.parts| > 1 && forall i | 0 <= i < |t.parts| :: t.parts[i].kind == Other
    case UnknownInput => !Spoken(t) && t.parts == []
  }

  /**
   * The turn is the user's, in the project asked for, live unless archived ones are asked for, later than `since`, and
   * of the type.
   */
  predicate Asked(f: Filters, t: Turn) {
    && t.user == f.user
    && (t.archived ==> f.includeArchived)
    && (f.project == None || t.project == f.project)
    && (f.since == None || t.key.seqno > f.since.value)
    && (f.inputType == None || HasType(t, f.inputType.value))
  }

  predicate After(k: Key, after: Option<Key>) {
    after == None || k.seqno > after.value.seqno || (k.seqno == after.value.seqno && k.turn > after.value.turn)
  }

  lemma TypeIsTold(t: Turn, k: InputType)
    ensures HasType(t, k) <==> TypeOf(t) == k
  {
    assert (exists p | p in t.parts :: p.kind == Text) <==> HasPart(t, Text);
    assert (exists p | p in t.parts :: p.kind == Audio) <==> HasPart(t, Audio);
  }

  lemma WantedIsTold(f: Filters, t: Turn)
    ensures Asked(f, t) <==> Where(f, t) && Wanted(f, t)
  {
    if f.inputType.Some? {
      TypeIsTold(t, f.inputType.value);
    }
  }

  lemma {:induction false} SelectedHolds(table: seq<Turn>, f: Filters, t: Turn)
    ensures t in Selected(table, f) <==> t in table && Where(f, t)
    decreases |table|
  {
    if table != [] {
      SelectedHolds(table[1..], f, t);
    }
  }

  lemma {:induction false} ResumeHolds(rows: seq<Turn>, after: Option<Key>, t: Turn)
    ensures t in Resume(rows, after) <==> t in rows && After(t.key, after)
    decreases |rows|
  {
    if rows != [] {
      ResumeHolds(rows[1..], after, t);
    }
  }

  lemma {:induction false} OfTypeHolds(rows: seq<Turn>, f: Filters, t: Turn)
    ensures t in OfType(rows, f) <==> t in rows && Wanted(f, t)
    decreases |rows|
  {
    if rows != [] {
      OfTypeHolds(rows[1..], f, t);
    }
  }

  lemma AnswerHolds(table: seq<Turn>, f: Filters, after: Option<Key>, t: Turn)
    ensures t in OfType(Query(table, f, after), f) <==> t in table && Asked(f, t) && After(t.key, after)
  {
    OfTypeHolds(Query(table, f, after), f, t);
    ResumeHolds(Selected(table, f), after, t);
    SelectedHolds(table, f, t);
    WantedIsTold(f, t);
  }

  /**
   * A complete walk holds exactly the turns asked for beyond its start, each once, by accepted_seq and then turn id.
   */
  lemma WalkHoldsExactly(table: seq<Turn>, f: Filters, after: Option<Key>, limit: nat, measure: Measure)
    requires Sorted(table) && 0 < limit && Walk(table, f, after, limit, measure).Ok?
    ensures var all := Walk(table, f, after, limit, measure).value;
            && (forall t :: t in all <==> t in table && Asked(f, t) && After(t.key, after))
            && (forall i, j | 0 <= i < j < |all| :: After(all[j].key, Some(all[i].key)))
  {
    WalkIsComplete(table, f, after, limit, measure);
    forall t
      ensures t in Walk(table, f, after, limit, measure).value <==> t in table && Asked(f, t) && After(t.key, after)
    {
      AnswerHolds(table, f, after, t);
    }
  }

  /** Two parts of one sorted list have no turn in common. */
  lemma PartsAreDisjoint(whole: seq<Turn>, front: seq<Turn>, back: seq<Turn>, t: Turn)
    requires Sorted(whole) && whole == front + back && t in front
    ensures t !in back
  {
    var i :| 0 <= i < |front| && front[i] == t;
    forall j | 0 <= j < |back|
      ensures back[j] != t
    {
      assert whole[i] == t && whole[|front| + j] == back[j];
    }
  }

  /** The page's items are the turns asked for after its cursor and up to the next one. */
  ghost predicate PageHolds(table: seq<Turn>, f: Filters, after: Option<Key>, p: Page) {
    && (p.hasMore <==> p.next.Some?)
    && forall t :: t in p.items <==>
         t in table && Asked(f, t) && After(t.key, after) && (p.hasMore ==> !After(t.key, p.next))
  }

  lemma PageHoldsExactly(table: seq<Turn>, f: Filters, after: Option<Key>, limit: nat, measure: Measure, p: Page)
    requires Sorted(table) && 0 < limit && PageOf(table, f, after, limit, measure) == Ok(p)
    ensures PageHolds(table, f, after, p)
  {
    PageIsGood(table, f, after, limit, measure);
    var whole := OfType(Query(table, f, after), f);
    var back := if p.hasMore then OfType(Query(table, f, p.next), f) else [];
    SelectedIsSorted(table, f);
    ResumeSound(Selected(table, f), after);
    OfTypeSound(Query(table, f, after), f);
    forall t
      ensures t in p.items <==>
              t in table && Asked(f, t) && After(t.key, after) && (p.hasMore ==> !After(t.key, p.next))
    {
      AnswerHolds(table, f, after, t);
      AnswerHolds(table, f, p.next, t);
      if t in p.items {
        PartsAreDisjoint(whole, p.items, back, t);
      }
      assert t in whole <==> t in p.items || t in back;
    }
  }

  // ---- which rows fit --------------------------------------------------------------------------

  /** A part whose text the item would carry. */
  predicate Carries(p: Part) {
    p.kind == Text && p.complete && p.hasSource && p.bytes.Some?
  }

  function Read(p: Part): nat {
    if Carries(p) && p.readable then p.bytes.value else 0
  }

  /** The bytes and the number of the texts that can be read. */
  function TextSum(parts: seq<Part>): nat
    decreases |parts|
  {
    if parts == [] then 0
    else
      var p := parts[|parts| - 1];
      TextSum(parts[..|parts| - 1]) + Read(p)
  }

  function TextCount(parts: seq<Part>): nat
    decreases |parts|
  {
    if parts == [] then 0
    else
      var p := parts[|parts| - 1];
      TextCount(parts[..|parts| - 1]) + if Carries(p) && p.readable then 1 else 0
  }

  /** Every text, readable or not, fits what the readable ones before it leave of the budget. */
  predicate TextsFit(parts: seq<Part>, budget: nat) {
    forall i | 0 <= i < |parts| && Carries(parts[i]) :: TextSum(parts[..i]) + parts[i].bytes.value <= budget
  }

  lemma {:induction false} SumsFromFront(p: Part, rest: seq<Part>)
    ensures TextSum([p] + rest) == Read(p) + TextSum(rest)
    ensures TextCount([p] + rest) == (if Carries(p) && p.readable then 1 else 0) + TextCount(rest)
    decreases |rest|
  {
    var all := [p] + rest;
    if rest == [] {
      assert all[..0] == [] && all[|all| - 1] == p;
    } else {
      assert all[..|all| - 1] == [p] + rest[..|rest| - 1] && all[|all| - 1] == rest[|rest| - 1];
      SumsFromFront(p, rest[..|rest| - 1]);
    }
  }

  lemma FitsFromFront(p: Part, rest: seq<Part>, budget: nat)
    requires Read(p) <= budget
    ensures TextsFit([p] + rest, budget) <==>
            (Carries(p) ==> p.bytes.value <= budget) && TextsFit(rest, budget - Read(p))
  {
    var parts := [p] + rest;
    assert parts[..0] == [] && parts[0] == p;
    forall i | 0 <= i < |rest|
      ensures TextSum(parts[..i + 1]) == Read(p) + TextSum(rest[..i]) && parts[i + 1] == rest[i]
    {
      assert parts[..i + 1] == [p] + rest[..i];
      SumsFromFront(p, rest[..i]);
    }
    if !TextsFit(parts, budget) {
      var i :| 0 <= i < |parts| && Carries(parts[i]) && TextSum(parts[..i]) + parts[i].bytes.value > budget;
      if i > 0 {
        assert rest[i - 1] == parts[i];
      }
    }
  }

  lemma TooLargeFirst(p: Part, rest: seq<Part>, budget: nat)
    requires Carries(p) && p.bytes.value > budget
    ensures !TextsFit([p] + rest, budget)
  {
    var parts := [p] + rest;
    assert parts[..0] == [] && Carries(parts[0]);
  }

  lemma {:induction false} WhatTextsTake(parts: seq<Part>, budget: nat)
    ensures ReadTexts(parts, budget) ==
            if TextsFit(parts, budget) then Some((TextSum(parts), TextCount(parts))) else None
    decreases |parts|
  {
    if parts != [] {
      var p, rest := parts[0], parts[1..];
      assert parts == [p] + rest;
      if Carries(p) && p.bytes.value > budget {
        TooLargeFirst(p, rest, budget);
      } else {
        SumsFromFront(p, rest);
        FitsFromFront(p, rest, budget);
        WhatTextsTake(rest, budget - Read(p));
      }
    }
  }

  /**
   * A turn fits exactly when its texts do, one after the other, and its transcript, or the joined texts, and its
   * answer.
   */
  lemma WhenTurnFits(t: Turn, budget: nat)
    ensures Fits(t, budget) <==>
            && TextsFit(t.parts, budget)
            && (Spoken(t) ==> t.transcriptBytes <= budget)
            && (!Spoken(t) && TextCount(t.parts) > 0 ==> TextSum(t.parts) + TextCount(t.parts) - 1 <= budget)
            && t.answerBytes <= budget
  {
    WhatTextsTake(t.parts, budget);
  }

  /**
   * A row joins the page exactly when it fits what the page so far leaves of 16 MiB, and the page then still fits them.
   */
  lemma WhenRowIsAdmitted(measure: Measure, items: seq<Turn>, t: Turn)
    ensures Admitted(measure, items, t) <==>
            && measure(items + [t], None, false) <= 16_777_216
            && var left := 16_777_216 - measure(items, None, true);
               Fits(t, if left > 0 then left else 0)
  {
  }

  // ---- why a page ends -------------------------------------------------------------------------

  /** The scan stops for a reason that can be seen in the rows. */
  predicate EndsForCause(rows: seq<Turn>, f: Filters, limit: nat, measure: Measure, parts: nat, e: ScanEnd)
    requires e.scanned <= |rows|
  {
    match e.stop
    case Exhausted => e.scanned == |rows|
    case PageFull => |e.items| >= limit && e.scanned < |rows|
    case RowLimit => e.scanned >= 2048
    case PartLimit => e.scanned < |rows| && parts + |rows[e.scanned].parts| > 2048
    case Oversize => e.scanned < |rows| && Wanted(f, rows[e.scanned]) && !Admitted(measure, e.items, rows[e.scanned])
  }

  lemma PartsSnoc(rows: seq<Turn>, i: nat)
    requires i < |rows|
    ensures PartsIn(rows[..i + 1]) == PartsIn(rows[..i]) + |rows[i].parts|
  {
    assert rows[..i + 1][..i] == rows[..i];
  }

  lemma {:induction false} WhyScanStops(rows: seq<Turn>, f: Filters, limit: nat, measure: Measure, i: nat,
                                        items: seq<Turn>, e: ScanEnd)
    requires i <= |rows| && Scan(rows, f, limit, measure, i, items, PartsIn(rows[..i])) == Ok(e)
    ensures e.scanned <= |rows| && EndsForCause(rows, f, limit, measure, PartsIn(rows[..e.scanned]), e)
    decreases |rows| - i
  {
    if i < MAX_ROWS && i < |rows| && |items| < limit {
      PartsSnoc(rows, i);
      var t := rows[i];
      if PartsIn(rows[..i]) + |t.parts| <= MAX_PARTS {
        if !Wanted(f, t) {
          WhyScanStops(rows, f, limit, measure, i + 1, items, e);
        } else if Admitted(measure, items, t) {
          WhyScanStops(rows, f, limit, measure, i + 1, items + [t], e);
        }
      }
    }
  }

  function CutAt(p: Page, k: nat): Page
    requires 0 < k < |p.items|
  {
    Page(p.items[..k], Some(p.items[k - 1].key), true)
  }

  /** Trimming drops no more than it must. */
  lemma {:induction false} TrimKeepsMost(p: Page, measure: Measure, q: Page)
    requires Trim(p, measure) == Ok(q)
    ensures if measure(p.items, p.next, p.hasMore) <= MAX_PAGE_BYTES then q == p
            else
              && 0 < |q.items| < |p.items| && q == CutAt(p, |q.items|)
              && forall k | |q.items| < k < |p.items| ::
                   measure(CutAt(p, k).items, CutAt(p, k).next, true) > MAX_PAGE_BYTES
    decreases |p.items|
  {
    if measure(p.items, p.next, p.hasMore) > MAX_PAGE_BYTES {
      var n := |p.items| - 1;
      var m := CutAt(p, n);
      TrimKeepsMost(m, measure, q);
      forall k | 0 < k < n
        ensures CutAt(m, k) == CutAt(p, k)
      {
        assert m.items[..k] == p.items[..k];
      }
    }
  }

  /**
   * A page that has more is full, at a scanning limit, before a row that does not fit, or trimmed to the bytes allowed.
   */
  lemma WhyPageEnds(table: seq<Turn>, f: Filters, after: Option<Key>, limit: nat, measure: Measure, p: Page)
    requires Sorted(table) && 0 < limit && PageOf(table, f, after, limit, measure) == Ok(p)
    ensures var rows := Query(table, f, after);
            exists e: ScanEnd ::
              && e.scanned <= |rows| && EndsForCause(rows, f, limit, measure, PartsIn(rows[..e.scanned]), e)
              && Trim(Envelope(rows, e), measure) == Ok(p)
              && (p.items == e.items
                  || measure(e.items, Envelope(rows, e).next, Envelope(rows, e).hasMore) > MAX_PAGE_BYTES)
  {
    var rows := Query(table, f, after);
    var e := Scan(rows, f, limit, measure, 0, [], 0).value;
    assert rows[..0] == [];
    WhyScanStops(rows, f, limit, measure, 0, [], e);
    TrimKeepsMost(Envelope(rows, e), measure, p);
  }
}
