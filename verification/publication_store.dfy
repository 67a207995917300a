/**
 * The update store as it runs: disk and tables are changed one durable effect at
 * a time, and the process may die once `effects` of them have happened.
 */
module PublicationStore {
  import opened Wrappers
  import opened Publication
  import opened PublicationSafety
  import opened PublicationOutcomes

  class UpdateStore {
    var disk: map<Path, Blob>
    var rows: map<(string, nat), Row>
    var channels: map<string, nat>
    var receipts: map<ReceiptId, Status>

    function State(): Durable
      reads this
    {
      Durable(disk, rows, channels, receipts)
    }

    constructor ()
      ensures Safe(State())
    {
      disk, rows, channels, receipts := map[], map[], map[], map[];
    }

    /** A receipt's status, set in its own transaction, unless the process dies first. */
    method WriteReceipt(id: ReceiptId, s: Status, left: nat) returns (alive: bool)
      modifies this`receipts
      ensures alive <==> 0 < left
      ensures State() == if alive then SetReceipt(old(State()), id, s) else old(State())
    {
      alive := left > 0;
      if alive {
        receipts := receipts[id := s];
      }
    }

    method LookUpReference(id: ReceiptId) returns (r: Reference)
      ensures r == ReferenceState(State(), id)
    {
      var keys := rows.Keys;
      r := Unowned;
      while keys != {}
        invariant keys <= rows.Keys && r != RefOwned
        invariant r == RefConflict <==> exists k | k in rows.Keys - keys :: At(State(), k, id.path)
        invariant forall k | k in rows.Keys - keys :: !(At(State(), k, id.path) && rows[k].blob == id.blob)
        decreases keys
      {
        var k :| k in keys;
        ghost var seen := rows.Keys - keys;
        keys := keys - {k};
        assert rows.Keys - keys == seen + {k};
        if rows[k].path == id.path {
          assert At(State(), k, id.path);
          if rows[k].blob == id.blob {
            return RefOwned;
          }
          r := RefConflict;
        }
      }
      assert rows.Keys - keys == rows.Keys;
    }

    /** Recovery of one receipt; `left` is what remains of `effects` if the process survives. */
    method RecoverReceipt(id: ReceiptId, token: nat, now: int, fault: CleanupFault, effects: nat)
      returns (alive: bool, left: nat)
      modifies this`disk, this`receipts
      ensures var t := RecoverTrace(old(State()), id, token, now, fault);
              && State() == StateAfter(old(State()), t, effects)
              && (alive <==> |t| <= effects)
              && (alive ==> left == effects - |t| && State() == Last(old(State()), t))
    {
      left := effects;
      if id !in receipts || receipts[id] == Complete {
        return true, left;
      }
      if receipts[id].Blocked? && receipts[id].lease.Some? && receipts[id].lease.value.expires > now {
        return true, left;
      }
      alive := WriteReceipt(id, Blocked(Some(Lease(token, now + CLAIM_LEASE_MS))), left);
      if !alive {
        return;
      }
      left := left - 1;
      var reference := LookUpReference(id);
      var verdict := Complete;
      if reference == RefConflict {
        verdict := Blocked(None);
      } else if reference == Unowned {
        if fault == InspectFails {
          verdict := Pending;
        } else if id.path in disk {
          if fault == ReadFails {
            verdict := Pending;
          } else if disk[id.path] != id.blob {
            verdict := Blocked(None);
          } else if fault == UnlinkFails {
            verdict := Pending;
          } else {
            if left == 0 {
              return false, 0;
            }
            disk := disk - {id.path};
            left := left - 1;
          }
        }
      }
      alive := WriteReceipt(id, verdict, left);
      if alive {
        left := left - 1;
      }
    }

    /** One turn of the recovery loop. */
    method RecoverNext(ghost d: Durable, order: seq<ReceiptId>, i: nat, token: nat, now: int,
                       faults: nat -> CleanupFault, ghost effects: nat, spent: nat) returns (alive: bool, left: nat)
      requires i < |order| && Progress(d, order, i, token, now, faults, effects, State(), true, spent)
      modifies this`disk, this`receipts
      ensures Progress(d, order, i + 1, token, now, faults, effects, State(), alive, left)
    {
      ghost var u := State();
      alive, left := RecoverReceipt(order[i], token + i, now, faults(i), spent);
      ProgressNext(d, order, i, token, now, faults, effects, u, spent, State(), alive, left);
    }

    method RecoverCleanupReceipts(order: seq<ReceiptId>, token: nat, now: int, faults: nat -> CleanupFault,
                                  effects: nat)
      returns (alive: bool)
      modifies this`disk, this`receipts
      ensures PassEnds(old(State()), order, token, now, faults, effects, State(), alive)
    {
      ghost var d := State();
      var left := effects;
      var i := 0;
      alive := true;
      while i < |order| && alive
        invariant 0 <= i <= |order|
        invariant Progress(d, order, i, token, now, faults, effects, State(), alive, left)
      {
        alive, left := RecoverNext(d, order, i, token, now, faults, effects, left);
        i := i + 1;
      }
      ProgressEnds(d, order, i, token, now, faults, effects, State(), alive, left);
    }

    /** Returns exactly for what is published already or admissible and undisturbed, and then leaves it published. */
    method PublishUpdate(q: Request, now: int, token: nat, f: Faults, effects: nat)
      returns (r: Option<Result<(), Error>>)
      modifies this
      ensures var o := Publish(old(State()), q, now, token, f);
              && State() == StateAfter(old(State()), o.trace, effects)
              && r == if effects < |o.trace| then None else Some(o.result)
      ensures var d := old(State());
              r.Some? ==>
                && (r.value.Ok? <==> Published(d, q) || (Admissible(d, q) && Undisturbed(d, q, f)))
                && (r.value.Ok? ==> State() == if Published(d, q) then d else Advanced(d, q))
    {
      ghost var d := State();
      r := RunPublication(q, now, token, f, effects);
      WhenPublicationReturns(d, q, now, token, f);
    }

    /** The rollback receipt of a file that is not there yet, then the transaction. */
    method RunPublication(q: Request, now: int, token: nat, f: Faults, effects: nat)
      returns (r: Option<Result<(), Error>>)
      modifies this
      ensures var o := Publish(old(State()), q, now, token, f);
              && State() == StateAfter(old(State()), o.trace, effects)
              && r == if effects < |o.trace| then None else Some(o.result)
    {
      var target := q.Target();
      if target in disk {
        if disk[target] != q.blob {
          return Some(Err(Conflict));
        }
        r := RunTransaction(q, true, now, token, f, effects);
      } else {
        ghost var d := State();
        TransactPrefix(d, [SetReceipt(d, q.Id(), Pending)], q, false, now, token, f);
        var alive := WriteReceipt(q.Id(), Pending, effects);
        if !alive {
          return None;
        }
        r := RunTransaction(q, false, now, token, f, effects - 1);
      }
    }

    /** The exception path: recover this publication's receipt, then raise. */
    method Raise(q: Request, existed: bool, error: Error, now: int, token: nat, f: Faults, effects: nat)
      returns (r: Option<Result<(), Error>>)
      modifies this`disk, this`receipts
      ensures var o := Abort(old(State()), [], q, existed, error, now, token, f);
              && State() == StateAfter(old(State()), o.trace, effects)
              && r == if effects < |o.trace| then None else Some(o.result)
    {
      if existed {
        return Some(Err(error));
      }
      ghost var t := RecoverTrace(State(), q.Id(), token, now, f.cleanup);
      assert [] + t == t;
      var alive, rest := RecoverReceipt(q.Id(), token, now, f.cleanup, effects);
      if !alive {
        return None;
      }
      var clean := q.Id() in receipts && receipts[q.Id()] == Complete;
      r := Some(Err(if clean then error else CleanupIncomplete));
    }

    /** Everything after the rollback receipt: checks, link, commit, or the exception path. */
    method RunTransaction(q: Request, existed: bool, now: int, token: nat, f: Faults, effects: nat)
      returns (r: Option<Result<(), Error>>)
      modifies this
      ensures var o := Transact(old(State()), [], q, existed, now, token, f);
              && State() == StateAfter(old(State()), o.trace, effects)
              && r == if effects < |o.trace| then None else Some(o.result)
    {
      ghost var d := State();
      var plan := Check(State(), q);
      if plan.Err? {
        r := Raise(q, existed, plan.error, now, token, f, effects);
      } else if plan.value == Replay {
        r := Some(Ok(()));
      } else if existed {
        r := CommitOrRaise(q, true, now, token, f, effects);
      } else {
        r := LinkAndCommit(q, now, token, f, effects);
      }
    }

    /** The file is linked in first, inside the transaction that will refer to it. */
    method LinkAndCommit(q: Request, now: int, token: nat, f: Faults, effects: nat)
      returns (r: Option<Result<(), Error>>)
      requires Check(State(), q) == Ok(Insert)
      modifies this
      ensures var o := Transact(old(State()), [], q, false, now, token, f);
              && State() == StateAfter(old(State()), o.trace, effects)
              && r == if effects < |o.trace| then None else Some(o.result)
    {
      ghost var d := State();
      if f.link == FailsUnlinked {
        r := Raise(q, false, Unavailable, now, token, f, effects);
      } else if effects == 0 {
        r := None;
      } else {
        TransactIsLinkThenFinish(d, q, now, token, f);
        disk := disk[q.Target() := q.blob];
        r := CommitOrRaise(q, false, now, token, f, effects - 1);
      }
    }

    method CommitOrRaise(q: Request, existed: bool, now: int, token: nat, f: Faults, effects: nat)
      returns (r: Option<Result<(), Error>>)
      modifies this
      ensures var o := Finish(old(State()), q, existed, now, token, f);
              && State() == StateAfter(old(State()), o.trace, effects)
              && r == if effects < |o.trace| then None else Some(o.result)
    {
      if (!existed && f.link == FailsLinked) || f.commitFails {
        r := Raise(q, existed, Unavailable, now, token, f, effects);
      } else if effects == 0 {
        r := None;
      } else {
        rows := rows[(q.channel, q.generation) := Row(q.Target(), q.blob, q.versionCode, q.manifest)];
        channels := channels[q.channel := q.generation];
        if !existed {
          receipts := receipts[q.Id() := Complete];
        }
        r := Some(Ok(()));
      }
    }
  }

  /** After the effects of `trace`, or after the first `effects` of them if the process died among them. */
  ghost predicate Reached(d: Durable, trace: seq<Durable>, effects: nat, now: Durable, alive: bool, left: nat) {
    if alive then |trace| + left == effects && now == Last(d, trace)
    else effects < |trace| && now == StateAfter(d, trace, effects)
  }

  lemma ReachedMore(d: Durable, front: seq<Durable>, back: seq<Durable>, effects: nat, u: Durable, spent: nat,
                    v: Durable, alive: bool, left: nat)
    requires Reached(d, front, effects, u, true, spent)
    requires v == StateAfter(u, back, spent) && (alive <==> |back| <= spent) && (alive ==> left == spent - |back|)
    ensures Reached(d, front + back, effects, v, alive, left)
  {
  }

  /** The recovery pass is through its first `i` receipts. */
  ghost predicate Progress(d: Durable, order: seq<ReceiptId>, i: nat, token: nat, now: int, faults: nat -> CleanupFault,
                           effects: nat, u: Durable, alive: bool, left: nat)
  {
    i <= |order| && Reached(d, Steps(d, RecoverStep(order, token, now, faults), i), effects, u, alive, left)
  }

  lemma ProgressNext(d: Durable, order: seq<ReceiptId>, i: nat, token: nat, now: int, faults: nat -> CleanupFault,
                     effects: nat, u: Durable, spent: nat, v: Durable, alive: bool, left: nat)
    requires i < |order| && Progress(d, order, i, token, now, faults, effects, u, true, spent)
    requires var back := RecoverTrace(u, order[i], token + i, now, faults(i));
             v == StateAfter(u, back, spent) && (alive <==> |back| <= spent) && (alive ==> left == spent - |back|)
    ensures Progress(d, order, i + 1, token, now, faults, effects, v, alive, left)
  {
    var step := RecoverStep(order, token, now, faults);
    ReachedMore(d, Steps(d, step, i), step(u, i), effects, u, spent, v, alive, left);
  }

  /** The state a recovery pass leaves, run to its end or cut short after `effects` effects. */
  ghost predicate PassEnds(d: Durable, order: seq<ReceiptId>, token: nat, now: int, faults: nat -> CleanupFault,
                           effects: nat, u: Durable, alive: bool)
  {
    var t := RecoverAllTrace(d, order, token, now, faults);
    u == StateAfter(d, t, effects) && (alive <==> |t| <= effects)
  }

  lemma ProgressEnds(d: Durable, order: seq<ReceiptId>, i: nat, token: nat, now: int, faults: nat -> CleanupFault,
                     effects: nat, u: Durable, alive: bool, left: nat)
    requires Progress(d, order, i, token, now, faults, effects, u, alive, left) && (alive ==> i == |order|)
    ensures PassEnds(d, order, token, now, faults, effects, u, alive)
  {
    if !alive {
      LongerTrace(d, RecoverStep(order, token, now, faults), i, |order|, effects);
    }
  }

  /** A transaction's effects do not depend on how many effects came before it. */
  lemma TransactPrefix(d: Durable, t1: seq<Durable>, q: Request, existed: bool, now: int, token: nat, f: Faults)
    ensures var whole := Transact(d, t1, q, existed, now, token, f);
            var part := Transact(Last(d, t1), [], q, existed, now, token, f);
            whole.trace == t1 + part.trace && whole.result == part.result
  {
    var d1 := Last(d, t1);
    var plan := Check(d1, q);
    assert t1 + [] == t1 && [] + [Link(d1, q)] == [Link(d1, q)];
    if plan.Err? {
      AbortPrefix(d, t1, [], q, existed, plan.error, now, token, f);
    } else if existed || f.link == FailsUnlinked {
      AbortPrefix(d, t1, [], q, existed, Unavailable, now, token, f);
    } else if plan.value == Insert {
      LinkedPrefix(d, t1, q, now, token, f, d1);
    }
  }

  lemma LinkedPrefix(d: Durable, t1: seq<Durable>, q: Request, now: int, token: nat, f: Faults, d1: Durable)
    requires d1 == Last(d, t1) && Check(d1, q) == Ok(Insert) && f.link != FailsUnlinked
    ensures var whole := Transact(d, t1, q, false, now, token, f);
            var part := Transact(d1, [], q, false, now, token, f);
            whole.trace == t1 + part.trace && whole.result == part.result
  {
    assert [] + [Link(d1, q)] == [Link(d1, q)];
    AbortPrefix(d, t1, [Link(d1, q)], q, false, Unavailable, now, token, f);
    CommitPrefix(t1, Link(d1, q), CommitRow(Link(d1, q), q, true));
  }

  /** The end of the transaction, once the file is in place. */
  function Finish(d: Durable, q: Request, existed: bool, now: int, token: nat, f: Faults): Outcome {
    if (!existed && f.link == FailsLinked) || f.commitFails then Abort(d, [], q, existed, Unavailable, now, token, f)
    else Outcome([CommitRow(d, q, !existed)], Ok(()))
  }

  lemma TransactIsLinkThenFinish(d: Durable, q: Request, now: int, token: nat, f: Faults)
    requires Check(d, q) == Ok(Insert) && f.link != FailsUnlinked
    ensures var whole := Transact(d, [], q, false, now, token, f);
            var end := Finish(Link(d, q), q, false, now, token, f);
            whole.trace == [Link(d, q)] + end.trace && whole.result == end.result
  {
    var t2 := Linked(d, [], q, false);
    assert t2 == [Link(d, q)] && t2 + [] == t2;
    AbortPrefix(d, t2, [], q, false, Unavailable, now, token, f);
  }

  lemma CommitPrefix(t: seq<Durable>, x: Durable, y: Durable)
    ensures (t + [x]) + [y] == t + ([x] + [y])
  {
  }

  lemma AbortPrefix(d: Durable, t1: seq<Durable>, t2: seq<Durable>, q: Request, existed: bool, e: Error, now: int,
                    token: nat, f: Faults)
    ensures var whole := Abort(d, t1 + t2, q, existed, e, now, token, f);
            var part := Abort(Last(d, t1), t2, q, existed, e, now, token, f);
            whole.trace == t1 + part.trace && whole.result == part.result
  {
    assert Last(d, t1 + t2) == Last(Last(d, t1), t2);
    var r := RecoverTrace(Last(d, t1 + t2), q.Id(), token, now, f.cleanup);
    assert (t1 + t2) + r == t1 + (t2 + r);
    assert Last(d, t1 + (t2 + r)) == Last(Last(d, t1), t2 + r);
  }

  lemma {:induction false} LongerTrace(d: Durable, step: (Durable, nat) -> seq<Durable>, i: nat, n: nat, effects: nat)
    requires i <= n && effects < |Steps(d, step, i)|
    ensures effects < |Steps(d, step, n)|
    ensures StateAfter(d, Steps(d, step, n), effects) == StateAfter(d, Steps(d, step, i), effects)
  {
    if i < n {
      LongerTrace(d, step, i, n - 1, effects);
    }
  }
}
