/**
 * When a publication returns and what it leaves, and what one recovery of a receipt
 * decides, told from the rows, channels, files and receipts before it.
 */
module PublicationOutcomes {
  import opened Wrappers
  import opened Publication
  import opened PublicationSafety

  // ---- publication ---------------------------------------------------------------------------

  /** This very update has been published, and its file is there. */
  predicate Published(d: Durable, q: Request) {
    var k := (q.channel, q.generation);
    && k in d.rows && d.rows[k].manifest == q.manifest && d.rows[k].blob == q.blob
    && q.Target() in d.disk && d.disk[q.Target()] == q.blob
  }

  /** The update is new and moves its channel on from exactly where the publisher believes it to be. */
  predicate Admissible(d: Durable, q: Request) {
    && (q.channel, q.generation) !in d.rows
    && (if q.channel in d.channels
        then q.expected == Some(d.channels[q.channel]) && d.channels[q.channel] < q.generation
        else q.expected == None || q.expected == Some(0))
    && (forall k | k in d.rows && k.0 == q.channel :: d.rows[k].versionCode != q.versionCode)
    && (q.Target() in d.disk ==> d.disk[q.Target()] == q.blob)
  }

  /** No fault meets the effects the publication needs: linking its file, unless it is there, and committing. */
  predicate Undisturbed(d: Durable, q: Request, f: Faults) {
    !f.commitFails && (q.Target() in d.disk || f.link == LinkFine)
  }

  /** The new row, the channel moved on, the file in place and its receipt closed. */
  function Advanced(d: Durable, q: Request): Durable {
    Durable(d.disk[q.Target() := q.blob],
            d.rows[(q.channel, q.generation) := Row(q.Target(), q.blob, q.versionCode, q.manifest)],
            d.channels[q.channel := q.generation],
            if q.Target() in d.disk then d.receipts else d.receipts[q.Id() := Complete])
  }

  lemma ChecksSame(d: Durable, c: Durable, q: Request)
    requires c.rows == d.rows && c.channels == d.channels && c.disk == d.disk
    ensures Check(c, q) == Check(d, q)
  {
  }

  lemma WhenAdmitted(d: Durable, q: Request)
    requires q.Target() in d.disk ==> d.disk[q.Target()] == q.blob
    ensures Check(d, q) == Ok(Replay) <==> Published(d, q)
    ensures Check(d, q) == Ok(Insert) <==> Admissible(d, q)
    ensures Check(d, q).Err? ==> Check(d, q).error == Conflict
  {
    if (q.channel, q.generation) !in d.rows {
      if exists o | o in d.rows :: o.0 == q.channel && d.rows[o].versionCode == q.versionCode {
        assert !Admissible(d, q);
      }
    }
  }

  lemma TransactReturns(d: Durable, t1: seq<Durable>, q: Request, existed: bool, now: int, token: nat, f: Faults)
    requires var c := Last(d, t1); c.rows == d.rows && c.channels == d.channels && c.disk == d.disk
    requires existed <==> q.Target() in d.disk
    requires existed ==> d.disk[q.Target()] == q.blob
    ensures Transact(d, t1, q, existed, now, token, f).result.Ok? <==>
            Published(d, q) || (Admissible(d, q) && Undisturbed(d, q, f))
  {
    ChecksSame(d, Last(d, t1), q);
    WhenAdmitted(d, q);
  }

  lemma TransactAdvances(d: Durable, t1: seq<Durable>, q: Request, existed: bool, now: int, token: nat, f: Faults)
    requires if existed then t1 == [] else t1 == [SetReceipt(d, q.Id(), Pending)]
    requires existed <==> q.Target() in d.disk
    requires existed ==> d.disk[q.Target()] == q.blob
    requires Admissible(d, q) && Undisturbed(d, q, f)
    ensures Last(d, Transact(d, t1, q, existed, now, token, f).trace) == Advanced(d, q)
  {
    var c := Last(d, t1);
    ChecksSame(d, c, q);
    WhenAdmitted(d, q);
    var u := Last(d, Linked(d, t1, q, existed));
    if existed {
      assert d.disk[q.Target() := q.blob] == d.disk;
    } else {
      assert d.receipts[q.Id() := Pending][q.Id() := Complete] == d.receipts[q.Id() := Complete];
    }
    assert CommitRow(u, q, !existed) == Advanced(d, q);
  }

  /**
   * A publication returns exactly if the update has been published already, or is admissible and no fault meets it;
   * the first changes nothing, the second advances the channel.
   */
  lemma WhenPublicationReturns(d: Durable, q: Request, now: int, token: nat, f: Faults)
    ensures var o := Publish(d, q, now, token, f);
            && (o.result.Ok? <==> Published(d, q) || (Admissible(d, q) && Undisturbed(d, q, f)))
            && (o.result.Ok? ==> Last(d, o.trace) == if Published(d, q) then d else Advanced(d, q))
  {
    if q.Target() !in d.disk {
      var t1 := [SetReceipt(d, q.Id(), Pending)];
      TransactReturns(d, t1, q, false, now, token, f);
      if Admissible(d, q) && Undisturbed(d, q, f) {
        TransactAdvances(d, t1, q, false, now, token, f);
      }
    } else if d.disk[q.Target()] == q.blob {
      TransactReturns(d, [], q, true, now, token, f);
      if Published(d, q) {
        ReplayChangesNothing(d, q, now, token, f);
      } else if Admissible(d, q) && Undisturbed(d, q, f) {
        TransactAdvances(d, [], q, true, now, token, f);
      }
    }
  }

  lemma ReplayChangesNothing(d: Durable, q: Request, now: int, token: nat, f: Faults)
    requires Published(d, q)
    ensures Transact(d, [], q, true, now, token, f).trace == []
  {
    WhenAdmitted(d, q);
  }

  lemma WhyTransactRaises(d: Durable, t1: seq<Durable>, q: Request, existed: bool, now: int, token: nat, f: Faults)
    requires Started(d, t1, q, existed) && f.cleanup == CleanupFine
    requires Transact(d, t1, q, existed, now, token, f).result.Err?
    ensures Transact(d, t1, q, existed, now, token, f).result ==
            Err(if Admissible(d, q) then Unavailable else Conflict)
  {
    var c := Last(d, t1);
    assert c.rows == d.rows && c.channels == d.channels;
    ChecksSame(d, c, q);
    WhenAdmitted(d, q);
    if !existed {
      FailedTransactIsUndone(d, t1, q, now, token, f);
    }
  }

  /**
   * What it raises, when the cleanup of its receipt meets no fault: a conflict, unless a fault met an admissible
   * update.
   */
  lemma WhyPublicationRaises(d: Durable, q: Request, now: int, token: nat, f: Faults)
    requires Safe(d) && f.cleanup == CleanupFine && Publish(d, q, now, token, f).result.Err?
    ensures Publish(d, q, now, token, f).result == Err(if Admissible(d, q) then Unavailable else Conflict)
  {
    StartsWell(d, q);
    if q.Target() !in d.disk {
      WhyTransactRaises(d, [SetReceipt(d, q.Id(), Pending)], q, false, now, token, f);
    } else if d.disk[q.Target()] == q.blob {
      WhyTransactRaises(d, [], q, true, now, token, f);
    }
  }

  lemma NewerIsNew(d: Durable, channel: string, generation: nat)
    requires ChannelsNewest(d) && channel in d.channels && d.channels[channel] < generation
    ensures (channel, generation) !in d.rows
  {
  }

  /** A channel can always be moved on: its next generation, with the right expectation, is published. */
  lemma NextGenerationIsPublished(d: Durable, q: Request, now: int, token: nat, f: Faults)
    requires q.channel in d.channels && q.expected == Some(d.channels[q.channel])
    requires Safe(d) && q.generation == d.channels[q.channel] + 1 && q.Target() !in d.disk
    requires forall k | k in d.rows && k.0 == q.channel :: d.rows[k].versionCode != q.versionCode
    requires !f.commitFails && f.link == LinkFine
    ensures Publish(d, q, now, token, f).result == Ok(())
    ensures Last(d, Publish(d, q, now, token, f).trace).channels == d.channels[q.channel := q.generation]
  {
    NewerIsNew(d, q.channel, q.generation);
    WhenPublicationReturns(d, q, now, token, f);
  }

  // ---- recovery of one receipt -----------------------------------------------------------------

  /** The receipt is finished, unknown, or leased to a recovery that may still be at work. */
  predicate HandsOff(d: Durable, id: ReceiptId, now: int) {
    id in d.receipts ==>
      && !d.receipts[id].Pending?
      && (d.receipts[id].Blocked? ==> d.receipts[id].lease.Some? && now < d.receipts[id].lease.value.expires)
  }

  predicate ClaimedByOther(d: Durable, id: ReceiptId) {
    (exists k | k in d.rows :: d.rows[k].path == id.path) &&
    forall k | k in d.rows && d.rows[k].path == id.path :: d.rows[k].blob != id.blob
  }

  predicate HoldsCopy(d: Durable, id: ReceiptId) {
    id.path in d.disk && d.disk[id.path] == id.blob
  }

  predicate NoRow(d: Durable, id: ReceiptId) {
    forall k | k in d.rows :: d.rows[k].path != id.path
  }

  /** The receipt can be closed: its row is in place, or its copy is gone or can be removed. */
  predicate Closable(d: Durable, id: ReceiptId, fault: CleanupFault) {
    || Owned(d, id.path, id.blob)
    || (NoRow(d, id) && fault != InspectFails && id.path !in d.disk)
    || (NoRow(d, id) && HoldsCopy(d, id) && fault == CleanupFine)
  }

  /** Something else lives at the path. */
  predicate Foreign(d: Durable, id: ReceiptId, fault: CleanupFault) {
    || ClaimedByOther(d, id)
    || (NoRow(d, id) && fault != InspectFails && fault != ReadFails && id.path in d.disk && d.disk[id.path] != id.blob)
  }

  lemma RowsAtPath(d: Durable, id: ReceiptId)
    requires Safe(d)
    ensures ReferenceState(d, id) == RefOwned <==> Owned(d, id.path, id.blob)
    ensures ReferenceState(d, id) == RefConflict <==> ClaimedByOther(d, id)
    ensures ReferenceState(d, id) == Unowned <==> NoRow(d, id)
    ensures Owned(d, id.path, id.blob) ==> !ClaimedByOther(d, id) && !NoRow(d, id)
  {
    ReferenceMeansOwned(d, id);
    if Owned(d, id.path, id.blob) {
      assert d.rows[(id.path.channel, id.path.generation)].path == id.path;
    }
    forall k | k in d.rows && d.rows[k].path == id.path
      ensures k == (id.path.channel, id.path.generation) && At(d, k, id.path)
    {
    }
  }

  function Verdict(d: Durable, id: ReceiptId, fault: CleanupFault): Status {
    if Closable(d, id, fault) then Complete else if Foreign(d, id, fault) then Blocked(None) else Pending
  }

  /** The disk once recovery has decided: without the path exactly if an unreferenced copy could be removed. */
  function Cleared(d: Durable, id: ReceiptId, fault: CleanupFault): map<Path, Blob> {
    if NoRow(d, id) && HoldsCopy(d, id) && fault == CleanupFine then d.disk - {id.path} else d.disk
  }

  /** From `c` the receipt has got its verdict, and the disk is cleared accordingly. */
  predicate Decides(c: Durable, id: ReceiptId, fault: CleanupFault, e: Durable) {
    e == Durable(Cleared(c, id, fault), c.rows, c.channels, c.receipts[id := Verdict(c, id, fault)])
  }

  lemma ReferencedDecides(c: Durable, id: ReceiptId, fault: CleanupFault)
    requires Safe(c) && ReferenceState(c, id) != Unowned
    ensures Decides(c, id, fault, Last(c, Resolve(c, id, fault)))
  {
    RowsAtPath(c, id);
    assert Verdict(c, id, fault) == if ReferenceState(c, id) == RefOwned then Complete else Blocked(None);
  }

  lemma UnreferencedDecides(c: Durable, id: ReceiptId, fault: CleanupFault)
    requires Safe(c) && ReferenceState(c, id) == Unowned
    ensures Decides(c, id, fault, Last(c, Resolve(c, id, fault)))
  {
    RowsAtPath(c, id);
    VerdictWithoutRow(c, id, fault);
  }

  lemma VerdictWithoutRow(c: Durable, id: ReceiptId, fault: CleanupFault)
    requires NoRow(c, id) && !Owned(c, id.path, id.blob) && !ClaimedByOther(c, id)
    ensures Verdict(c, id, fault) ==
            match fault
            case InspectFails => Pending
            case ReadFails => if id.path in c.disk then Pending else Complete
            case UnlinkFails =>
              if id.path !in c.disk then Complete else if c.disk[id.path] == id.blob then Pending else Blocked(None)
            case CleanupFine =>
              if id.path !in c.disk || c.disk[id.path] == id.blob then Complete else Blocked(None)
  {
  }

  lemma ResolveDecides(c: Durable, id: ReceiptId, fault: CleanupFault)
    requires Safe(c)
    ensures Decides(c, id, fault, Last(c, Resolve(c, id, fault)))
  {
    if ReferenceState(c, id) == Unowned {
      UnreferencedDecides(c, id, fault);
    } else {
      ReferencedDecides(c, id, fault);
    }
  }

  lemma RecoveryEndsInResolve(d: Durable, id: ReceiptId, token: nat, now: int, fault: CleanupFault, c: Durable,
                              t: seq<Durable>)
    requires !HandsOff(d, id, now) && c == Leased(d, id, token, now) && t == RecoverTrace(d, id, token, now, fault)
    ensures t != [] && t[0] == c && Last(d, t) == Last(c, Resolve(c, id, fault))
  {
  }

  /**
   * Recovery leaves a live lease alone; otherwise it leases the receipt for five minutes, removes the file exactly if
   * no row refers to its path and it is the receipt's copy, and closes, blocks or requeues the receipt.
   */
  lemma WhatRecoveryDecides(d: Durable, id: ReceiptId, token: nat, now: int, fault: CleanupFault)
    requires Safe(d)
    ensures var t := RecoverTrace(d, id, token, now, fault);
            if HandsOff(d, id, now) then t == []
            else
              && t != [] && t[0] == d.(receipts := d.receipts[id := Blocked(Some(Lease(token, now + 300_000)))])
              && Decides(d, id, fault, Last(d, t))
  {
    if !HandsOff(d, id, now) {
      var c := Leased(d, id, token, now);
      RecoveryEndsInResolve(d, id, token, now, fault, c, RecoverTrace(d, id, token, now, fault));
      ReceiptMoves(d, id, c.receipts[id]);
      ResolveDecides(c, id, fault);
      LeasedDecides(d, c, id, fault, Last(c, Resolve(c, id, fault)));
    }
  }

  lemma LeasedDecides(d: Durable, c: Durable, id: ReceiptId, fault: CleanupFault, e: Durable)
    requires Decides(c, id, fault, e) && id in c.receipts && c == d.(receipts := d.receipts[id := c.receipts[id]])
    ensures Decides(d, id, fault, e)
  {
    LeasedSame(d, c, id, fault);
    assert c.receipts[id := Verdict(d, id, fault)] == d.receipts[id := Verdict(d, id, fault)];
  }

  lemma LeasedSame(d: Durable, c: Durable, id: ReceiptId, fault: CleanupFault)
    requires c.rows == d.rows && c.disk == d.disk
    ensures Verdict(c, id, fault) == Verdict(d, id, fault)
    ensures Cleared(c, id, fault) == Cleared(d, id, fault)
  {
  }
}
