/**
 * Publishing an update artifact and recovering its rollback receipt, as the
 * sequence of durable states each leaves behind: one state per file-system or
 * database effect, so that a crash between any two effects stops in one of them.
 *
 * A file is identified by its digest and size. Publication and recovery hold the
 * same write lock, so their effects never interleave; a crash releases it.
 */
module Publication {
  import opened Wrappers

  datatype Path = Path(channel: string, generation: nat, name: string)

  datatype Blob = Blob(sha256: string, size: nat)

  datatype Request = Request(
    channel: string,
    generation: nat,
    name: string,
    versionCode: nat,
    blob: Blob,
    manifest: string,
    expected: Option<nat>)
  {
    function Target(): Path {
      Path(channel, generation, name)
    }

    function Id(): ReceiptId {
      ReceiptId(Target(), blob)
    }
  }

  datatype Row = Row(path: Path, blob: Blob, versionCode: nat, manifest: string)

  /** Receipts are keyed by a hash of operation, path, digest and size. */
  datatype ReceiptId = ReceiptId(path: Path, blob: Blob)

  datatype Lease = Lease(token: nat, expires: int)

  /** A blocked receipt either carries the marker of a recovery in progress or an error text. */
  datatype Status = Pending | Blocked(lease: Option<Lease>) | Complete

  datatype Durable = Durable(
    disk: map<Path, Blob>,
    rows: map<(string, nat), Row>,
    channels: map<string, nat>,
    receipts: map<ReceiptId, Status>)

  datatype Error = Conflict | Unavailable | CleanupIncomplete

  /** Where the outside world makes an effect fail. */
  datatype LinkFault = LinkFine | FailsUnlinked | FailsLinked
  datatype CleanupFault = CleanupFine | InspectFails | ReadFails | UnlinkFails
  datatype Faults = Faults(link: LinkFault, commitFails: bool, cleanup: CleanupFault)

  const CLAIM_LEASE_MS := 300_000

  function Last(d: Durable, trace: seq<Durable>): Durable {
    if trace == [] then d else trace[|trace| - 1]
  }

  /** The state a crash after `effects` durable effects leaves. */
  function StateAfter(d: Durable, trace: seq<Durable>, effects: nat): Durable {
    if effects == 0 || trace == [] then d
    else if effects <= |trace| then trace[effects - 1]
    else trace[|trace| - 1]
  }

  // ---- single effects -------------------------------------------------------------------

  function SetReceipt(d: Durable, id: ReceiptId, s: Status): Durable {
    d.(receipts := d.receipts[id := s])
  }

  function Link(d: Durable, q: Request): Durable {
    d.(disk := d.disk[q.Target() := q.blob])
  }

  function Unlink(d: Durable, p: Path): Durable {
    d.(disk := d.disk - {p})
  }

  function CommitRow(d: Durable, q: Request, completes: bool): Durable {
    d.(rows := d.rows[(q.channel, q.generation) := Row(q.Target(), q.blob, q.versionCode, q.manifest)],
       channels := d.channels[q.channel := q.generation],
       receipts := if completes then d.receipts[q.Id() := Complete] else d.receipts)
  }

  // ---- recovery of one receipt --------------------------------------------------------------

  predicate Claimable(d: Durable, id: ReceiptId, now: int) {
    id in d.receipts &&
    match d.receipts[id]
    case Complete => false
    case Pending => true
    case Blocked(lease) => lease.None? || lease.value.expires <= now
  }

  datatype Reference = RefOwned | RefConflict | Unowned

  predicate At(d: Durable, k: (string, nat), p: Path) {
    k in d.rows && d.rows[k].path == p
  }

  function ReferenceState(d: Durable, id: ReceiptId): Reference {
    if exists k | k in d.rows :: At(d, k, id.path) && d.rows[k].blob == id.blob then RefOwned
    else if exists k | k in d.rows :: At(d, k, id.path) then RefConflict
    else Unowned
  }

  /** What recovery does once it holds the receipt's lease. */
  function Resolve(c: Durable, id: ReceiptId, fault: CleanupFault): seq<Durable> {
    match ReferenceState(c, id)
    case RefOwned => [SetReceipt(c, id, Complete)]
    case RefConflict => [SetReceipt(c, id, Blocked(None))]
    case Unowned =>
      if fault == InspectFails then [SetReceipt(c, id, Pending)]
      else if id.path !in c.disk then [SetReceipt(c, id, Complete)]
      else if fault == ReadFails then [SetReceipt(c, id, Pending)]
      else if c.disk[id.path] != id.blob then [SetReceipt(c, id, Blocked(None))]
      else if fault == UnlinkFails then [SetReceipt(c, id, Pending)]
      else [Unlink(c, id.path), SetReceipt(Unlink(c, id.path), id, Complete)]
  }

  function Leased(d: Durable, id: ReceiptId, token: nat, now: int): Durable {
    SetReceipt(d, id, Blocked(Some(Lease(token, now + CLAIM_LEASE_MS))))
  }

  function RecoverTrace(d: Durable, id: ReceiptId, token: nat, now: int, fault: CleanupFault): seq<Durable> {
    if !Claimable(d, id, now) then []
    else [Leased(d, id, token, now)] + Resolve(Leased(d, id, token, now), id, fault)
  }

  /** Steps 0 to `n` - 1, each from the state the earlier ones left. */
  function Steps(d: Durable, step: (Durable, nat) -> seq<Durable>, n: nat): seq<Durable> {
    if n == 0 then []
    else
      var front := Steps(d, step, n - 1);
      front + step(Last(d, front), n - 1)
  }

  function RecoverStep(order: seq<ReceiptId>, token: nat, now: int, faults: nat -> CleanupFault):
    (Durable, nat) -> seq<Durable>
  {
    (u: Durable, i: nat) => if i < |order| then RecoverTrace(u, order[i], token + i, now, faults(i)) else []
  }

  /** One pass over the unfinished receipts; receipt `i` meets fault `faults(i)`. */
  function RecoverAllTrace(d: Durable, order: seq<ReceiptId>, token: nat, now: int,
                           faults: nat -> CleanupFault): seq<Durable>
  {
    Steps(d, RecoverStep(order, token, now, faults), |order|)
  }

  // ---- publication ------------------------------------------------------------------------------

  datatype Plan = Replay | Insert

  function Check(d: Durable, q: Request): Result<Plan, Error> {
    var k := (q.channel, q.generation);
    if k in d.rows then
      if d.rows[k].manifest != q.manifest || d.rows[k].blob != q.blob then Err(Conflict)
      else if q.Target() in d.disk && d.disk[q.Target()] == q.blob then Ok(Replay)
      else Err(Conflict)
    else if q.channel in d.channels && q.expected.None? then Err(Conflict)
    else if q.expected.Some? &&
            q.expected.value != (if q.channel in d.channels then d.channels[q.channel] else 0) then Err(Conflict)
    else if q.channel in d.channels && q.generation <= d.channels[q.channel] then Err(Conflict)
    else if exists o | o in d.rows :: o.0 == q.channel && d.rows[o].versionCode == q.versionCode then Err(Conflict)
    else Ok(Insert)
  }

  datatype Outcome = Outcome(trace: seq<Durable>, result: Result<(), Error>)

  /** The exception path: a receipt taken out for this publication is recovered before the error leaves. */
  function Abort(d: Durable, trace: seq<Durable>, q: Request, existed: bool, e: Error, now: int, token: nat,
                 f: Faults): Outcome
  {
    if existed then Outcome(trace, Err(e))
    else
      var r := RecoverTrace(Last(d, trace), q.Id(), token, now, f.cleanup);
      var end := Last(d, trace + r);
      var clean := q.Id() in end.receipts && end.receipts[q.Id()] == Complete;
      Outcome(trace + r, Err(if clean then e else CleanupIncomplete))
  }

  /** The publication's transaction, after the effects `t1`. */
  function Transact(d: Durable, t1: seq<Durable>, q: Request, existed: bool, now: int, token: nat, f: Faults): Outcome {
    var d1 := Last(d, t1);
    var plan := Check(d1, q);
    if plan.Err? then Abort(d, t1, q, existed, plan.error, now, token, f)
    else if plan.value == Replay then Outcome(t1, Ok(()))
    else if !existed && f.link == FailsUnlinked then Abort(d, t1, q, existed, Unavailable, now, token, f)
    else
      var t2 := Linked(d, t1, q, existed);
      if (!existed && f.link == FailsLinked) || f.commitFails then Abort(d, t2, q, existed, Unavailable, now, token, f)
      else Outcome(t2 + [CommitRow(Last(d, t2), q, !existed)], Ok(()))
  }

  function Linked(d: Durable, t1: seq<Durable>, q: Request, existed: bool): seq<Durable> {
    if existed then t1 else t1 + [Link(Last(d, t1), q)]
  }

  function Publish(d: Durable, q: Request, now: int, token: nat, f: Faults): Outcome {
    if q.Target() !in d.disk then Transact(d, [SetReceipt(d, q.Id(), Pending)], q, false, now, token, f)
    else if d.disk[q.Target()] == q.blob then Transact(d, [], q, true, now, token, f)
    else Outcome([], Err(Conflict))
  }

  // ---- runs with crashes ---------------------------------------------------------------------------

  datatype Act =
    | Publishing(q: Request, now: int, token: nat, faults: Faults, effects: nat)
    | Recovering(order: seq<ReceiptId>, now: int, token: nat, cleanup: nat -> CleanupFault, effects: nat)

  function ActTrace(d: Durable, a: Act): seq<Durable> {
    match a
    case Publishing(q, now, token, f, _) => Publish(d, q, now, token, f).trace
    case Recovering(order, now, token, f, _) => RecoverAllTrace(d, order, token, now, f)
  }

  /** Each act runs for `effects` durable effects (more than it has: to its end) and then crashes. */
  function RunActs(d: Durable, acts: seq<Act>): Durable
    decreases |acts|
  {
    if acts == [] then d
    else
      var before := RunActs(d, acts[..|acts| - 1]);
      var a := acts[|acts| - 1];
      StateAfter(before, ActTrace(before, a), a.effects)
  }
}
