/** Crash safety of publication and recovery, and what recovery finally cleans up. */
module PublicationSafety {
  import opened Wrappers
  import opened Publication

  predicate Owned(d: Durable, p: Path, b: Blob) {
    var k := (p.channel, p.generation);
    k in d.rows && d.rows[k].path == p && d.rows[k].blob == b
  }

  predicate Covered(d: Durable, p: Path, b: Blob) {
    ReceiptId(p, b) in d.receipts && d.receipts[ReceiptId(p, b)] != Complete
  }

  predicate FilesCovered(d: Durable) {
    forall p | p in d.disk :: Owned(d, p, d.disk[p]) || Covered(d, p, d.disk[p])
  }

  predicate RowsBacked(d: Durable) {
    forall k | k in d.rows ::
      && d.rows[k].path.channel == k.0 && d.rows[k].path.generation == k.1
      && d.rows[k].path in d.disk && d.disk[d.rows[k].path] == d.rows[k].blob
  }

  predicate ChannelsNewest(d: Durable) {
    && (forall k | k in d.rows :: k.0 in d.channels && k.1 <= d.channels[k.0])
    && (forall c | c in d.channels :: (c, d.channels[c]) in d.rows)
  }

  predicate VersionsUnique(d: Durable) {
    forall j, k | j in d.rows && k in d.rows && j.0 == k.0 && d.rows[j].versionCode == d.rows[k].versionCode :: j == k
  }

  /** Holds between any two effects: no stray file, no row without its file, no reused generation or version. */
  predicate Safe(d: Durable) {
    FilesCovered(d) && RowsBacked(d) && ChannelsNewest(d) && VersionsUnique(d)
  }

  /** Nothing published is ever lost, changed or rolled back by going from `d` to `e`. */
  ghost predicate Extends(d: Durable, e: Durable) {
    && (forall k | k in d.rows :: k in e.rows && e.rows[k] == d.rows[k])
    && (forall c | c in d.channels :: c in e.channels && d.channels[c] <= e.channels[c])
  }

  ghost predicate AllGood(d: Durable, trace: seq<Durable>) {
    forall e | e in trace :: Safe(e) && Extends(d, e)
  }

  // ---- recovery ------------------------------------------------------------------------------

  lemma ReferenceMeansOwned(d: Durable, id: ReceiptId)
    requires Safe(d)
    ensures ReferenceState(d, id) == RefOwned <==> Owned(d, id.path, id.blob)
    ensures ReferenceState(d, id) == Unowned <==> forall k | k in d.rows :: d.rows[k].path != id.path
  {
    if Owned(d, id.path, id.blob) {
      assert At(d, (id.path.channel, id.path.generation), id.path);
    }
  }

  lemma ReceiptMoves(d: Durable, id: ReceiptId, s: Status)
    requires Safe(d)
    requires s == Complete ==> Owned(d, id.path, id.blob) || id.path !in d.disk || d.disk[id.path] != id.blob
    ensures Safe(SetReceipt(d, id, s)) && Extends(d, SetReceipt(d, id, s))
  {
    var e := SetReceipt(d, id, s);
    forall p | p in e.disk
      ensures Owned(e, p, e.disk[p]) || Covered(e, p, e.disk[p])
    {
      assert Owned(d, p, d.disk[p]) || Covered(d, p, d.disk[p]);
    }
  }

  /** What recovery of receipt `id` may have done by the time it reaches `e`. */
  ghost predicate RecoveredTo(d: Durable, id: ReceiptId, e: Durable) {
    && Safe(e) && e.rows == d.rows && e.channels == d.channels
    && (e.disk == d.disk || (e.disk == d.disk - {id.path} && UnreferencedCopy(d, id)))
    && e.receipts == d.receipts[id := if id in e.receipts then e.receipts[id] else Pending]
    && (e.receipts[id] == Complete ==> id.path !in e.disk || Owned(e, id.path, id.blob))
  }

  predicate UnreferencedCopy(d: Durable, id: ReceiptId) {
    id.path in d.disk && d.disk[id.path] == id.blob && forall k | k in d.rows :: d.rows[k].path != id.path
  }

  lemma SetReceiptRecovers(d: Durable, c: Durable, id: ReceiptId, s: Status)
    requires RecoveredTo(d, id, c) || (c == d && Safe(d))
    requires s == Complete ==> id.path !in c.disk || Owned(c, id.path, id.blob)
    ensures RecoveredTo(d, id, SetReceipt(c, id, s))
  {
    ReceiptMoves(c, id, s);
  }

  lemma UnlinkRecovers(d: Durable, c: Durable, id: ReceiptId)
    requires RecoveredTo(d, id, c) && c.disk == d.disk && c.receipts[id] != Complete && UnreferencedCopy(d, id)
    ensures RecoveredTo(d, id, Unlink(c, id.path))
  {
    var u := Unlink(c, id.path);
    forall p | p in u.disk
      ensures Owned(u, p, u.disk[p]) || Covered(u, p, u.disk[p])
    {
      assert Owned(c, p, c.disk[p]) || Covered(c, p, c.disk[p]);
    }
  }

  lemma ResolveIsSafe(d: Durable, c: Durable, id: ReceiptId, fault: CleanupFault)
    requires RecoveredTo(d, id, c) && c.disk == d.disk && c.receipts[id] != Complete
    ensures forall e | e in Resolve(c, id, fault) :: RecoveredTo(d, id, e)
  {
    ReferenceMeansOwned(c, id);
    match ReferenceState(c, id)
    case RefOwned => SetReceiptRecovers(d, c, id, Complete);
    case RefConflict => SetReceiptRecovers(d, c, id, Blocked(None));
    case Unowned =>
      if fault == InspectFails {
        SetReceiptRecovers(d, c, id, Pending);
      } else if id.path !in c.disk {
        SetReceiptRecovers(d, c, id, Complete);
      } else if fault == ReadFails {
        SetReceiptRecovers(d, c, id, Pending);
      } else if c.disk[id.path] != id.blob {
        SetReceiptRecovers(d, c, id, Blocked(None));
      } else if fault == UnlinkFails {
        SetReceiptRecovers(d, c, id, Pending);
      } else {
        UnlinkRecovers(d, c, id);
        SetReceiptRecovers(d, Unlink(c, id.path), id, Complete);
      }
  }

  /** Recovery of one receipt, stopped anywhere, is safe; only an unreferenced file of the receipt's content goes. */
  lemma RecoverIsSafe(d: Durable, id: ReceiptId, token: nat, now: int, fault: CleanupFault)
    requires Safe(d)
    ensures forall e | e in RecoverTrace(d, id, token, now, fault) :: RecoveredTo(d, id, e)
  {
    if Claimable(d, id, now) {
      var c := Leased(d, id, token, now);
      SetReceiptRecovers(d, d, id, c.receipts[id]);
      ResolveIsSafe(d, c, id, fault);
    }
  }

  lemma RecoverIsGood(d: Durable, id: ReceiptId, token: nat, now: int, fault: CleanupFault)
    requires Safe(d)
    ensures AllGood(d, RecoverTrace(d, id, token, now, fault))
  {
    RecoverIsSafe(d, id, token, now, fault);
    forall e | e in RecoverTrace(d, id, token, now, fault)
      ensures Safe(e) && Extends(d, e)
    {
      assert RecoveredTo(d, id, e);
    }
  }

  lemma TraceIsGood(d: Durable, id: ReceiptId, token: nat, now: int, fault: CleanupFault, t: seq<Durable>)
    requires Safe(d) && t == RecoverTrace(d, id, token, now, fault)
    ensures AllGood(d, t)
  {
    RecoverIsGood(d, id, token, now, fault);
  }

  lemma ExtendsTransitive(d: Durable, e: Durable, f: Durable)
    requires Extends(d, e) && Extends(e, f)
    ensures Extends(d, f)
  {
  }

  lemma GoodAppends(d: Durable, front: seq<Durable>, back: seq<Durable>)
    requires Safe(d) && AllGood(d, front) && AllGood(Last(d, front), back)
    ensures AllGood(d, front + back)
  {
    forall e | e in front + back
      ensures Safe(e) && Extends(d, e)
    {
      if e !in front {
        ExtendsTransitive(d, Last(d, front), e);
      }
    }
  }

  lemma LastIsSafe(d: Durable, trace: seq<Durable>)
    requires Safe(d) && AllGood(d, trace)
    ensures Safe(Last(d, trace)) && Extends(d, Last(d, trace))
  {
  }

  ghost predicate GoodSteps(step: (Durable, nat) -> seq<Durable>, n: nat) {
    forall u, i: nat | Safe(u) && i < n :: AllGood(u, step(u, i))
  }

  lemma {:induction false} StepsAreGood(d: Durable, step: (Durable, nat) -> seq<Durable>, n: nat)
    requires Safe(d) && GoodSteps(step, n)
    ensures AllGood(d, Steps(d, step, n))
  {
    if n > 0 {
      var front := Steps(d, step, n - 1);
      StepsAreGood(d, step, n - 1);
      LastIsSafe(d, front);
      GoodAppends(d, front, step(Last(d, front), n - 1));
    }
  }

  /** Step `i` recovers receipt `i` of `order`. */
  ghost predicate Recovers(step: (Durable, nat) -> seq<Durable>, order: seq<ReceiptId>, token: nat, now: int,
                           faults: nat -> CleanupFault)
  {
    forall u, i: nat | i < |order| :: step(u, i) == RecoverTrace(u, order[i], token + i, now, faults(i))
  }

  lemma RecoverStepRecovers(order: seq<ReceiptId>, token: nat, now: int, faults: nat -> CleanupFault)
    ensures Recovers(RecoverStep(order, token, now, faults), order, token, now, faults)
  {
  }

  lemma RecoverStepsAreGood(step: (Durable, nat) -> seq<Durable>, order: seq<ReceiptId>, token: nat, now: int,
                            faults: nat -> CleanupFault)
    requires Recovers(step, order, token, now, faults)
    ensures GoodSteps(step, |order|)
  {
    forall u, i: nat | Safe(u) && i < |order|
      ensures AllGood(u, step(u, i))
    {
      TraceIsGood(u, order[i], token + i, now, faults(i), step(u, i));
    }
  }

  lemma RecoverAllIsSafe(d: Durable, order: seq<ReceiptId>, token: nat, now: int, faults: nat -> CleanupFault)
    requires Safe(d)
    ensures AllGood(d, RecoverAllTrace(d, order, token, now, faults))
  {
    var step := RecoverStep(order, token, now, faults);
    RecoverStepRecovers(order, token, now, faults);
    RecoverStepsAreGood(step, order, token, now, faults);
    StepsAreGood(d, step, |order|);
  }

  // ---- publication ---------------------------------------------------------------------------

  lemma LinkIsSafe(d: Durable, q: Request)
    requires Safe(d) && q.Target() !in d.disk && Covered(d, q.Target(), q.blob)
    ensures Safe(Link(d, q)) && Extends(d, Link(d, q))
  {
    var e := Link(d, q);
    forall p | p in e.disk
      ensures Owned(e, p, e.disk[p]) || Covered(e, p, e.disk[p])
    {
      if p != q.Target() {
        assert Owned(d, p, d.disk[p]) || Covered(d, p, d.disk[p]);
      }
    }
  }

  lemma CommitKeepsFiles(d: Durable, q: Request, completes: bool)
    requires Safe(d) && (q.channel, q.generation) !in d.rows
    requires q.Target() in d.disk && d.disk[q.Target()] == q.blob
    ensures FilesCovered(CommitRow(d, q, completes)) && RowsBacked(CommitRow(d, q, completes))
  {
    var e := CommitRow(d, q, completes);
    forall p | p in e.disk
      ensures Owned(e, p, e.disk[p]) || Covered(e, p, e.disk[p])
    {
      if p != q.Target() {
        assert Owned(d, p, d.disk[p]) || Covered(d, p, d.disk[p]);
      }
    }
  }

  lemma CommitKeepsChannels(d: Durable, q: Request, completes: bool)
    requires Safe(d) && Check(d, q) == Ok(Insert)
    ensures ChannelsNewest(CommitRow(d, q, completes))
  {
    assert RowsBacked(d) && ChannelsNewest(d);
  }

  lemma CommitExtends(d: Durable, q: Request, completes: bool)
    requires Check(d, q) == Ok(Insert)
    ensures Extends(d, CommitRow(d, q, completes))
  {
  }

  lemma CommitKeepsVersions(d: Durable, q: Request, completes: bool)
    requires Safe(d) && Check(d, q) == Ok(Insert)
    ensures VersionsUnique(CommitRow(d, q, completes))
  {
    var e := CommitRow(d, q, completes);
    var k := (q.channel, q.generation);
    assert forall j | j in d.rows && j.0 == q.channel :: d.rows[j].versionCode != q.versionCode;
    forall i, j | i in e.rows && j in e.rows && i.0 == j.0 && e.rows[i].versionCode == e.rows[j].versionCode
      ensures i == j
    {
      assert i != k ==> i in d.rows && e.rows[i] == d.rows[i];
      assert j != k ==> j in d.rows && e.rows[j] == d.rows[j];
    }
  }

  lemma CommitIsSafe(d: Durable, q: Request, completes: bool)
    requires Safe(d) && Check(d, q) == Ok(Insert)
    requires q.Target() in d.disk && d.disk[q.Target()] == q.blob
    ensures Safe(CommitRow(d, q, completes)) && Extends(d, CommitRow(d, q, completes))
  {
    CommitKeepsFiles(d, q, completes);
    CommitKeepsChannels(d, q, completes);
    CommitExtends(d, q, completes);
    CommitKeepsVersions(d, q, completes);
  }

  lemma AbortIsSafe(d: Durable, trace: seq<Durable>, q: Request, existed: bool, e: Error, now: int, token: nat,
                    f: Faults)
    requires Safe(d) && AllGood(d, trace)
    ensures AllGood(d, Abort(d, trace, q, existed, e, now, token, f).trace)
  {
    if !existed {
      LastIsSafe(d, trace);
      RecoverIsGood(Last(d, trace), q.Id(), token, now, f.cleanup);
      GoodAppends(d, trace, RecoverTrace(Last(d, trace), q.Id(), token, now, f.cleanup));
    }
  }

  ghost predicate SameCatalogue(d: Durable, trace: seq<Durable>) {
    forall e | e in trace :: e.rows == d.rows && e.channels == d.channels
  }

  /** A publication on the point of opening its transaction. */
  ghost predicate Started(d: Durable, t1: seq<Durable>, q: Request, existed: bool) {
    && Safe(d) && AllGood(d, t1) && SameCatalogue(d, t1) && Last(d, t1).disk == d.disk
    && if existed then q.Target() in d.disk && d.disk[q.Target()] == q.blob
       else q.Target() !in d.disk && q.Id() in Last(d, t1).receipts && Last(d, t1).receipts[q.Id()] == Pending
  }

  lemma StartsWell(d: Durable, q: Request)
    requires Safe(d)
    ensures q.Target() !in d.disk ==> Started(d, [SetReceipt(d, q.Id(), Pending)], q, false)
    ensures q.Target() in d.disk && d.disk[q.Target()] == q.blob ==> Started(d, [], q, true)
  {
    ReceiptMoves(d, q.Id(), Pending);
  }

  lemma LinkedIsSafe(d: Durable, t1: seq<Durable>, q: Request, existed: bool)
    requires Started(d, t1, q, existed)
    ensures var t2 := Linked(d, t1, q, existed);
            && AllGood(d, t2) && SameCatalogue(d, t2)
            && Last(d, t2).disk == d.disk[q.Target() := q.blob]
            && Last(d, t2).receipts == Last(d, t1).receipts
  {
    if existed {
      assert d.disk == d.disk[q.Target() := q.blob];
    } else {
      NewlyLinkedIsSafe(d, t1, q, Last(d, t1));
    }
  }

  lemma NewlyLinkedIsSafe(d: Durable, t1: seq<Durable>, q: Request, c: Durable)
    requires Started(d, t1, q, false) && c == Last(d, t1)
    ensures AllGood(d, t1 + [Link(c, q)]) && SameCatalogue(d, t1 + [Link(c, q)])
  {
    LastIsSafe(d, t1);
    LinkIsSafe(c, q);
    GoodAppends(d, t1, [Link(c, q)]);
    LinkKeepsCatalogue(d, t1, q, c);
  }

  lemma LinkKeepsCatalogue(d: Durable, t1: seq<Durable>, q: Request, c: Durable)
    requires SameCatalogue(d, t1) && c == Last(d, t1)
    ensures SameCatalogue(d, t1 + [Link(c, q)])
  {
    assert c == d || c in t1;
  }

  lemma CommitAppends(d: Durable, t1: seq<Durable>, q: Request, existed: bool)
    requires Started(d, t1, q, existed) && Check(Last(d, t1), q) == Ok(Insert)
    ensures var t2 := Linked(d, t1, q, existed);
            AllGood(d, t2 + [CommitRow(Last(d, t2), q, !existed)])
  {
    var t2 := Linked(d, t1, q, existed);
    LinkedIsSafe(d, t1, q, existed);
    LastIsSafe(d, t2);
    assert Check(Last(d, t2), q) == Check(Last(d, t1), q);
    CommitIsSafe(Last(d, t2), q, !existed);
    GoodAppends(d, t2, [CommitRow(Last(d, t2), q, !existed)]);
  }

  lemma TransactIsSafe(d: Durable, t1: seq<Durable>, q: Request, existed: bool, now: int, token: nat, f: Faults)
    requires Started(d, t1, q, existed)
    ensures AllGood(d, Transact(d, t1, q, existed, now, token, f).trace)
  {
    var plan := Check(Last(d, t1), q);
    if plan.Err? {
      AbortIsSafe(d, t1, q, existed, plan.error, now, token, f);
    } else if plan.value == Insert {
      LinkedIsSafe(d, t1, q, existed);
      CommitAppends(d, t1, q, existed);
      AbortIsSafe(d, t1, q, existed, Unavailable, now, token, f);
      AbortIsSafe(d, Linked(d, t1, q, existed), q, existed, Unavailable, now, token, f);
    }
  }

  /** Every durable state of a publication, whatever fails in it, is safe and keeps all earlier rows. */
  lemma PublishIsSafe(d: Durable, q: Request, now: int, token: nat, f: Faults)
    requires Safe(d)
    ensures AllGood(d, Publish(d, q, now, token, f).trace)
  {
    StartsWell(d, q);
    if q.Target() !in d.disk {
      TransactIsSafe(d, [SetReceipt(d, q.Id(), Pending)], q, false, now, token, f);
    } else if d.disk[q.Target()] == q.blob {
      TransactIsSafe(d, [], q, true, now, token, f);
    }
  }

  /** Any run of publications and recoveries, each crashing after any number of effects, stays safe. */
  lemma {:induction false} RunIsSafe(d: Durable, acts: seq<Act>)
    requires Safe(d)
    ensures Safe(RunActs(d, acts)) && Extends(d, RunActs(d, acts))
    decreases |acts|
  {
    if acts != [] {
      var before := RunActs(d, acts[..|acts| - 1]);
      var a := acts[|acts| - 1];
      RunIsSafe(d, acts[..|acts| - 1]);
      match a {
        case Publishing(q, now, token, f, _) => PublishIsSafe(before, q, now, token, f);
        case Recovering(order, now, token, f, _) => RecoverAllIsSafe(before, order, token, now, f);
      }
      var after := StateAfter(before, ActTrace(before, a), a.effects);
      if after != before {
        ExtendsTransitive(d, before, after);
      }
    }
  }

  const NOTHING := Durable(map[], map[], map[], map[])

  /** Every state reachable from an empty store is safe. */
  lemma ReachableIsSafe(acts: seq<Act>)
    ensures Safe(RunActs(NOTHING, acts))
  {
    RunIsSafe(NOTHING, acts);
  }

  /** In every state a crash can leave, a finished receipt's path holds no unowned file of its content. */
  lemma FinishedReceipts(d: Durable, acts: seq<Act>, id: ReceiptId)
    requires Safe(d)
    requires id in RunActs(d, acts).receipts && RunActs(d, acts).receipts[id] == Complete
    ensures var e := RunActs(d, acts);
            id.path !in e.disk || e.disk[id.path] != id.blob || Owned(e, id.path, id.blob)
  {
    RunIsSafe(d, acts);
  }

  // ---- results -------------------------------------------------------------------------------

  lemma AbortKeepsCatalogue(d: Durable, trace: seq<Durable>, q: Request, existed: bool, e: Error, now: int, token: nat,
                            f: Faults)
    requires Safe(d) && AllGood(d, trace) && SameCatalogue(d, trace)
    ensures SameCatalogue(d, Abort(d, trace, q, existed, e, now, token, f).trace)
  {
    if !existed {
      LastIsSafe(d, trace);
      RecoverIsSafe(Last(d, trace), q.Id(), token, now, f.cleanup);
    }
  }

  lemma FailedTransactKeepsCatalogue(d: Durable, t1: seq<Durable>, q: Request, existed: bool, now: int, token: nat,
                                     f: Faults)
    requires Started(d, t1, q, existed) && Transact(d, t1, q, existed, now, token, f).result.Err?
    ensures SameCatalogue(d, Transact(d, t1, q, existed, now, token, f).trace)
  {
    var plan := Check(Last(d, t1), q);
    if plan.Err? {
      AbortKeepsCatalogue(d, t1, q, existed, plan.error, now, token, f);
    } else {
      LinkedIsSafe(d, t1, q, existed);
      AbortKeepsCatalogue(d, t1, q, existed, Unavailable, now, token, f);
      AbortKeepsCatalogue(d, Linked(d, t1, q, existed), q, existed, Unavailable, now, token, f);
    }
  }

  /** A publication that raises has changed no row and no channel, at any point of its trace. */
  lemma FailedPublishKeepsCatalogue(d: Durable, q: Request, now: int, token: nat, f: Faults)
    requires Safe(d) && Publish(d, q, now, token, f).result.Err?
    ensures SameCatalogue(d, Publish(d, q, now, token, f).trace)
  {
    StartsWell(d, q);
    if q.Target() !in d.disk {
      FailedTransactKeepsCatalogue(d, [SetReceipt(d, q.Id(), Pending)], q, false, now, token, f);
    } else if d.disk[q.Target()] == q.blob {
      FailedTransactKeepsCatalogue(d, [], q, true, now, token, f);
    }
  }

  /** The generation the publisher expected is not the one `d` has; a channel without one counts as 0. */
  predicate Stale(d: Durable, q: Request) {
    if q.channel in d.channels then q.expected != Some(d.channels[q.channel])
    else q.expected.Some? && q.expected != Some(0)
  }

  lemma StaleIsNotInserted(d: Durable, t1: seq<Durable>, q: Request, existed: bool, now: int, token: nat, f: Faults)
    requires Started(d, t1, q, existed) && Stale(d, q)
    ensures Transact(d, t1, q, existed, now, token, f).result.Ok? ==>
              Check(Last(d, t1), q) == Ok(Replay) && Transact(d, t1, q, existed, now, token, f).trace == t1
  {
    assert Check(Last(d, t1), q) != Ok(Insert);
  }

  /** A stale or missing expected generation publishes nothing. */
  lemma StaleGenerationChangesNothing(d: Durable, q: Request, now: int, token: nat, f: Faults)
    requires Safe(d) && Stale(d, q)
    ensures SameCatalogue(d, Publish(d, q, now, token, f).trace)
    ensures Publish(d, q, now, token, f).result.Ok? ==>
              (q.channel, q.generation) in d.rows && d.rows[(q.channel, q.generation)].manifest == q.manifest
  {
    StartsWell(d, q);
    if Publish(d, q, now, token, f).result.Err? {
      FailedPublishKeepsCatalogue(d, q, now, token, f);
    } else if q.Target() !in d.disk {
      StaleIsNotInserted(d, [SetReceipt(d, q.Id(), Pending)], q, false, now, token, f);
    } else {
      StaleIsNotInserted(d, [], q, true, now, token, f);
    }
  }

  /** The row of `q`, its file and, when the row is new, the channel's generation are in place in `e`. */
  ghost predicate InPlace(d: Durable, e: Durable, q: Request) {
    && (q.channel, q.generation) in e.rows && e.rows[(q.channel, q.generation)].manifest == q.manifest
    && q.Target() in e.disk && e.disk[q.Target()] == q.blob
    && ((q.channel, q.generation) !in d.rows ==>
          && q.channel in e.channels && e.channels[q.channel] == q.generation
          && (q.channel in d.channels ==> d.channels[q.channel] < q.generation))
  }

  lemma CommittedIsCurrent(d: Durable, c: Durable, u: Durable, q: Request, completes: bool)
    requires c.rows == d.rows && c.channels == d.channels && Check(c, q) == Ok(Insert)
    requires u.rows == c.rows && u.channels == c.channels && q.Target() in u.disk && u.disk[q.Target()] == q.blob
    ensures InPlace(d, CommitRow(u, q, completes), q)
  {
  }

  lemma TransactedIsCurrent(d: Durable, t1: seq<Durable>, q: Request, existed: bool, now: int, token: nat, f: Faults)
    requires Started(d, t1, q, existed) && Transact(d, t1, q, existed, now, token, f).result.Ok?
    ensures InPlace(d, Last(d, Transact(d, t1, q, existed, now, token, f).trace), q)
  {
    if Check(Last(d, t1), q) == Ok(Insert) {
      LinkedIsSafe(d, t1, q, existed);
      CommittedIsCurrent(d, Last(d, t1), Last(d, Linked(d, t1, q, existed)), q, !existed);
    }
  }

  /** A publication that returns has its row, its file and the channel's newest generation in place. */
  lemma PublishedIsCurrent(d: Durable, q: Request, now: int, token: nat, f: Faults)
    requires Safe(d) && Publish(d, q, now, token, f).result.Ok?
    ensures InPlace(d, Last(d, Publish(d, q, now, token, f).trace), q)
  {
    StartsWell(d, q);
    if q.Target() !in d.disk {
      TransactedIsCurrent(d, [SetReceipt(d, q.Id(), Pending)], q, false, now, token, f);
    } else {
      TransactedIsCurrent(d, [], q, true, now, token, f);
    }
  }

  lemma OwnsItsPath(d: Durable, id: ReceiptId)
    requires RowsBacked(d) && forall k | k in d.rows && d.rows[k].path == id.path :: d.rows[k].blob == id.blob
    ensures Owned(d, id.path, id.blob) || forall k | k in d.rows :: d.rows[k].path != id.path
  {
    forall k | k in d.rows && d.rows[k].path == id.path
      ensures k == (id.path.channel, id.path.generation) && Owned(d, id.path, id.blob)
    {
    }
  }

  lemma CleanRecovery(d: Durable, id: ReceiptId, token: nat, now: int)
    requires Safe(d) && Claimable(d, id, now)
    requires forall k | k in d.rows && d.rows[k].path == id.path :: d.rows[k].blob == id.blob
    requires id.path in d.disk ==> d.disk[id.path] == id.blob
    ensures var e := Last(d, RecoverTrace(d, id, token, now, CleanupFine));
            && id in e.receipts && e.receipts[id] == Complete
            && e.disk == if Owned(d, id.path, id.blob) then d.disk else d.disk - {id.path}
  {
    var c := Leased(d, id, token, now);
    ReceiptMoves(d, id, c.receipts[id]);
    OwnsItsPath(c, id);
    ReferenceMeansOwned(c, id);
  }

  /** Recovery of a pending receipt whose path no row refers to. */
  lemma PendingIsUndone(t: Durable, id: ReceiptId, token: nat, now: int, r: seq<Durable>)
    requires Safe(t) && id in t.receipts && t.receipts[id] == Pending
    requires forall k | k in t.rows :: t.rows[k].path != id.path
    requires id.path in t.disk ==> t.disk[id.path] == id.blob
    requires r == RecoverTrace(t, id, token, now, CleanupFine)
    ensures var e := Last(t, r);
            e.disk == t.disk - {id.path} && id in e.receipts && e.receipts[id] == Complete
  {
    CleanRecovery(t, id, token, now);
  }

  lemma TargetIsCleared(d: Durable, t: Durable, q: Request, token: nat, now: int, r: seq<Durable>)
    requires RowsBacked(d) && q.Target() !in d.disk && Safe(t) && t.rows == d.rows
    requires q.Id() in t.receipts && t.receipts[q.Id()] == Pending
    requires t.disk == d.disk || t.disk == d.disk[q.Target() := q.blob]
    requires r == RecoverTrace(t, q.Id(), token, now, CleanupFine)
    ensures var e := Last(t, r);
            e.disk == d.disk && q.Id() in e.receipts && e.receipts[q.Id()] == Complete
  {
    PendingIsUndone(t, q.Id(), token, now, r);
    assert t.disk - {q.Target()} == d.disk;
  }

  lemma AbortEnds(d: Durable, trace: seq<Durable>, q: Request, e: Error, now: int, token: nat, f: Faults, t: Durable,
                  r: seq<Durable>)
    requires t == Last(d, trace) && r == RecoverTrace(t, q.Id(), token, now, f.cleanup)
    requires q.Id() in Last(t, r).receipts && Last(t, r).receipts[q.Id()] == Complete
    ensures Abort(d, trace, q, false, e, now, token, f) == Outcome(trace + r, Err(e))
    ensures Last(d, trace + r) == Last(t, r)
  {
  }

  lemma AbortUndoes(d: Durable, trace: seq<Durable>, q: Request, e: Error, now: int, token: nat, f: Faults)
    requires Safe(d) && AllGood(d, trace) && SameCatalogue(d, trace) && f.cleanup == CleanupFine
             && q.Target() !in d.disk
    requires q.Id() in Last(d, trace).receipts && Last(d, trace).receipts[q.Id()] == Pending
    requires Last(d, trace).disk == d.disk || Last(d, trace).disk == d.disk[q.Target() := q.blob]
    ensures var o := Abort(d, trace, q, false, e, now, token, f);
            var end := Last(d, o.trace);
            end.disk == d.disk && q.Id() in end.receipts && end.receipts[q.Id()] == Complete && o.result == Err(e)
  {
    var t := Last(d, trace);
    var r := RecoverTrace(t, q.Id(), token, now, f.cleanup);
    LastIsSafe(d, trace);
    assert t.rows == d.rows;
    TargetIsCleared(d, t, q, token, now, r);
    AbortEnds(d, trace, q, e, now, token, f, t, r);
  }

  lemma FailedTransactIsUndone(d: Durable, t1: seq<Durable>, q: Request, now: int, token: nat, f: Faults)
    requires Started(d, t1, q, false) && f.cleanup == CleanupFine
    requires Transact(d, t1, q, false, now, token, f).result.Err?
    ensures var o := Transact(d, t1, q, false, now, token, f);
            var e := Last(d, o.trace);
            && e.disk == d.disk && o.result != Err(CleanupIncomplete)
            && q.Id() in e.receipts && e.receipts[q.Id()] == Complete
  {
    var plan := Check(Last(d, t1), q);
    if plan.Err? {
      AbortUndoes(d, t1, q, plan.error, now, token, f);
    } else {
      LinkedIsSafe(d, t1, q, false);
      AbortUndoes(d, t1, q, Unavailable, now, token, f);
      AbortUndoes(d, Linked(d, t1, q, false), q, Unavailable, now, token, f);
    }
  }

  /** When the cleanup itself meets no fault, a failed publication leaves the disk as it was and its receipt closed. */
  lemma FailedPublishIsUndone(d: Durable, q: Request, now: int, token: nat, f: Faults)
    requires Safe(d) && f.cleanup == CleanupFine && Publish(d, q, now, token, f).result.Err?
    ensures var o := Publish(d, q, now, token, f);
            var e := Last(d, o.trace);
            && e.disk == d.disk && o.result != Err(CleanupIncomplete)
            && (q.Target() !in d.disk ==> q.Id() in e.receipts && e.receipts[q.Id()] == Complete)
  {
    StartsWell(d, q);
    if q.Target() !in d.disk {
      FailedTransactIsUndone(d, [SetReceipt(d, q.Id(), Pending)], q, now, token, f);
    } else if d.disk[q.Target()] == q.blob {
      LinkedIsSafe(d, [], q, true);
    }
  }

  // ---- everything is collected in the end ----------------------------------------------------

  /** Files on disk that no row refers to. */
  function Garbage(d: Durable): set<Path> {
    set p | p in d.disk && !Owned(d, p, d.disk[p])
  }

  function NoFaults(i: nat): CleanupFault {
    CleanupFine
  }

  predicate NoLiveLease(d: Durable, now: int) {
    forall id | id in d.receipts && d.receipts[id].Blocked? && d.receipts[id].lease.Some? ::
      d.receipts[id].lease.value.expires <= now
  }

  /** After a fault-free recovery of `id` its content is no longer garbage at its path; nothing else moved. */
  ghost predicate Collected(d: Durable, e: Durable, done: set<ReceiptId>) {
    && Safe(e) && e.rows == d.rows && e.disk.Keys <= d.disk.Keys
    && (forall p | p in e.disk :: e.disk[p] == d.disk[p])
    && (forall p | p in Garbage(e) :: ReceiptId(p, e.disk[p]) !in done)
    && (forall o | o in d.receipts && o !in done :: o in e.receipts && e.receipts[o] == d.receipts[o])
  }

  lemma CleanRecoveryRemoves(d: Durable, id: ReceiptId, token: nat, now: int)
    requires Safe(d) && Claimable(d, id, now) && id.path in d.disk && d.disk[id.path] == id.blob
             && !Owned(d, id.path, id.blob)
    ensures id.path !in Last(d, RecoverTrace(d, id, token, now, CleanupFine)).disk
  {
    forall k | k in d.rows && d.rows[k].path == id.path
      ensures d.rows[k].blob == id.blob
    {
    }
    CleanRecovery(d, id, token, now);
  }

  lemma RecoverCollects(d: Durable, id: ReceiptId, token: nat, now: int)
    requires Safe(d) && id in d.receipts
    requires d.receipts[id] == Complete || Claimable(d, id, now)
    ensures Collected(d, Last(d, RecoverTrace(d, id, token, now, CleanupFine)), {id})
  {
    RecoverIsSafe(d, id, token, now, CleanupFine);
    var e := Last(d, RecoverTrace(d, id, token, now, CleanupFine));
    if Claimable(d, id, now) {
      assert RecoveredTo(d, id, e);
      if id.path in e.disk && e.disk[id.path] == id.blob && !Owned(e, id.path, id.blob) {
        CleanRecoveryRemoves(d, id, token, now);
      }
    }
  }

  lemma CollectedMore(d: Durable, u: Durable, e: Durable, done: set<ReceiptId>, id: ReceiptId)
    requires Collected(d, u, done) && Collected(u, e, {id})
    ensures Collected(d, e, done + {id})
  {
    forall p | p in Garbage(e)
      ensures ReceiptId(p, e.disk[p]) !in done + {id}
    {
      assert p in Garbage(u);
    }
  }

  function Ids(order: seq<ReceiptId>): set<ReceiptId> {
    set id | id in order
  }

  predicate Distinct(order: seq<ReceiptId>) {
    forall i, j | 0 <= i < j < |order| :: order[i] != order[j]
  }

  ghost predicate CollectingSteps(d: Durable, step: (Durable, nat) -> seq<Durable>, order: seq<ReceiptId>) {
    forall u, i: nat | i < |order| && Collected(d, u, Ids(order[..i])) ::
      Collected(u, Last(u, step(u, i)), {order[i]})
  }

  lemma StepCollects(d: Durable, front: seq<Durable>, back: seq<Durable>, done: set<ReceiptId>, id: ReceiptId)
    requires Collected(d, Last(d, front), done) && Collected(Last(d, front), Last(Last(d, front), back), {id})
    ensures Collected(d, Last(d, front + back), done + {id})
  {
    CollectedMore(d, Last(d, front), Last(Last(d, front), back), done, id);
    assert Last(d, front + back) == Last(Last(d, front), back);
  }

  lemma CollectsAt(d: Durable, step: (Durable, nat) -> seq<Durable>, order: seq<ReceiptId>, i: nat, u: Durable)
    requires CollectingSteps(d, step, order) && i < |order| && Collected(d, u, Ids(order[..i]))
    ensures Collected(u, Last(u, step(u, i)), {order[i]})
  {
  }

  lemma IdsNext(order: seq<ReceiptId>, i: nat)
    requires i < |order|
    ensures Ids(order[..i + 1]) == Ids(order[..i]) + {order[i]}
  {
    assert order[..i + 1] == order[..i] + [order[i]];
  }

  lemma {:induction false} StepsCollect(d: Durable, step: (Durable, nat) -> seq<Durable>, order: seq<ReceiptId>, n: nat)
    requires Safe(d) && n <= |order| && CollectingSteps(d, step, order)
    ensures Collected(d, Last(d, Steps(d, step, n)), Ids(order[..n]))
  {
    if n > 0 {
      StepsCollect(d, step, order, n - 1);
      var front := Steps(d, step, n - 1);
      CollectsAt(d, step, order, n - 1, Last(d, front));
      StepCollects(d, front, step(Last(d, front), n - 1), Ids(order[..n - 1]), order[n - 1]);
      IdsNext(order, n - 1);
    }
  }

  lemma StillClaimable(d: Durable, u: Durable, done: set<ReceiptId>, id: ReceiptId, now: int)
    requires Collected(d, u, done) && id !in done && id in d.receipts && Claimable(d, id, now)
    ensures Safe(u) && Claimable(u, id, now)
  {
  }

  lemma RecoverStepsCollect(d: Durable, step: (Durable, nat) -> seq<Durable>, order: seq<ReceiptId>, token: nat,
                            now: int)
    requires Distinct(order) && Recovers(step, order, token, now, NoFaults)
    requires forall id | id in Ids(order) :: id in d.receipts && Claimable(d, id, now)
    ensures CollectingSteps(d, step, order)
  {
    forall u, i: nat | i < |order| && Collected(d, u, Ids(order[..i]))
      ensures Collected(u, Last(u, step(u, i)), {order[i]})
    {
      assert order[i] in Ids(order) && order[i] !in Ids(order[..i]);
      StillClaimable(d, u, Ids(order[..i]), order[i], now);
      RecoverCollects(u, order[i], token + i, now);
      assert NoFaults(i) == CleanupFine;
    }
  }

  lemma RecoverAllCollects(d: Durable, order: seq<ReceiptId>, token: nat, now: int)
    requires Safe(d) && Distinct(order)
    requires forall id | id in Ids(order) :: id in d.receipts && Claimable(d, id, now)
    ensures Collected(d, Last(d, RecoverAllTrace(d, order, token, now, NoFaults)), Ids(order))
  {
    var step := RecoverStep(order, token, now, NoFaults);
    RecoverStepRecovers(order, token, now, NoFaults);
    RecoverStepsCollect(d, step, order, token, now);
    StepsCollect(d, step, order, |order|);
    assert order[..|order|] == order;
  }

  /**
   * Whatever crashed before, once the old recovery leases have run out a single
   * undisturbed recovery pass leaves no file that a published row does not own.
   */
  lemma RecoveryCollectsEverything(d: Durable, acts: seq<Act>, order: seq<ReceiptId>, token: nat, now: int)
    requires Safe(d) && NoLiveLease(RunActs(d, acts), now)
    requires Distinct(order)
    requires forall id :: id in order <==> id in RunActs(d, acts).receipts && RunActs(d, acts).receipts[id] != Complete
    ensures var e := Last(RunActs(d, acts), RecoverAllTrace(RunActs(d, acts), order, token, now, NoFaults));
            forall p | p in e.disk :: Owned(e, p, e.disk[p])
  {
    RunIsSafe(d, acts);
    var s := RunActs(d, acts);
    forall id | id in Ids(order)
      ensures id in s.receipts && Claimable(s, id, now)
    {
    }
    RecoverAllCollects(s, order, token, now);
    var e := Last(s, RecoverAllTrace(s, order, token, now, NoFaults));
    forall p | p in e.disk
      ensures Owned(e, p, e.disk[p])
    {
      assert Owned(s, p, s.disk[p]) || ReceiptId(p, s.disk[p]) in order;
    }
  }
}
