/**
 * Handler slots and drain counting (recorder_next/http.py:190-231, 314-373; recorder_next/service.py:247-307,
 * 437-446) as a state machine. Every step is one region run under a lock, so a run is any interleaving of
 * connections, background tasks and shutdown requests. A phase says where in its try/finally blocks a
 * connection is; any statement in between may raise, and raising only moves it to the handler's phase.
 */
module Lifecycle {
  import opened Wrappers

  const MAX_HANDLERS: nat := 8

  datatype Phase =
    | Accepted      // the slot is held, the thread is not started
    | Serving       // the thread runs, the request is not admitted
    | Preflight     // the operation is begun, admission checks run
    | Admitted      // admitted; only the finally block releases it
    | Answered      // nothing of the operation is left

  datatype Label = Running | Draining | StoppedLabel

  datatype World = World(
    free: nat,
    connections: map<nat, Phase>,
    times: set<nat>,
    tasks: set<nat>,
    active: nat,
    stopping: bool,
    state: Label)

  const START := World(MAX_HANDLERS, map[], {}, {}, 0, false, Running)

  datatype Step =
    | Arrive(c: nat)                // process_request takes a slot, or drops the connection
    | StartFails(c: nat)            // the thread could not be started
    | StartThread(c: nat)
    | TakeTime(c: nat)              // setup pops the accept time
    | BeginRequest(c: nat)          // admit_http: _begin_operation
    | PreflightRaises(c: nat)       // admit_http: its handler ends the operation
    | PreflightPasses(c: nat)
    | Release(c: nat)               // the finally block of _dispatch
    | CloseConnection(c: nat)       // the finally blocks of process_request_thread
    | BeginTask(t: nat)             // a background loop or a direct call begins an operation
    | EndTask(t: nat)
    | RequestShutdown
    | MarkStopped(backgroundAlive: bool)

  // ---- the locked regions -------------------------------------------------------------------

  function EndOperation(active: nat): nat {
    if active - 1 > 0 then active - 1 else 0
  }

  predicate Holds(w: World, c: nat, p: Phase) {
    c in w.connections && w.connections[c] == p
  }

  predicate Enabled(w: World, s: Step) {
    match s
    case Arrive(c) => c !in w.connections
    case StartFails(c) => Holds(w, c, Accepted)
    case StartThread(c) => Holds(w, c, Accepted)
    case TakeTime(c) => Holds(w, c, Serving)
    case BeginRequest(c) => Holds(w, c, Serving)
    case PreflightRaises(c) => Holds(w, c, Preflight)
    case PreflightPasses(c) => Holds(w, c, Preflight)
    case Release(c) => Holds(w, c, Admitted)
    case CloseConnection(c) => Holds(w, c, Serving) || Holds(w, c, Answered)
    case BeginTask(t) => t !in w.tasks
    case EndTask(t) => t in w.tasks
    case RequestShutdown => true
    case MarkStopped(_) => true
  }

  function Move(w: World, c: nat, p: Phase): World {
    w.(connections := w.connections[c := p])
  }

  function GiveBack(w: World, c: nat): World {
    w.(free := w.free + 1, connections := w.connections - {c}, times := w.times - {c})
  }

  function Next(w: World, s: Step): World {
    if !Enabled(w, s) then w
    else
      match s
      case Arrive(c) =>
        if w.free == 0 then w
        else w.(free := w.free - 1, connections := w.connections[c := Accepted], times := w.times + {c})
      case StartFails(c) => GiveBack(w, c)
      case StartThread(c) => Move(w, c, Serving)
      case TakeTime(c) => w.(times := w.times - {c})
      case BeginRequest(c) =>
        if w.stopping then Move(w, c, Answered) else Move(w.(active := w.active + 1), c, Preflight)
      case PreflightRaises(c) => Move(w.(active := EndOperation(w.active)), c, Answered)
      case PreflightPasses(c) => Move(w, c, Admitted)
      case Release(c) => Move(w.(active := EndOperation(w.active)), c, Answered)
      case CloseConnection(c) => GiveBack(w, c)
      case BeginTask(t) => if w.stopping then w else w.(active := w.active + 1, tasks := w.tasks + {t})
      case EndTask(t) => w.(active := EndOperation(w.active), tasks := w.tasks - {t})
      case RequestShutdown => w.(stopping := true, state := Draining)
      case MarkStopped(alive) => if w.stopping && w.active == 0 && !alive then w.(state := StoppedLabel) else w
  }

  function Run(w: World, steps: seq<Step>): World
    decreases |steps|
  {
    if steps == [] then w else Run(Next(w, steps[0]), steps[1..])
  }

  // ---- the invariant ------------------------------------------------------------------------

  predicate InOperation(p: Phase) {
    p == Preflight || p == Admitted
  }

  function Operating(connections: map<nat, Phase>): set<nat> {
    set c | c in connections && InOperation(connections[c])
  }

  /** Slots and operations are accounted for, one by one. */
  ghost predicate Balanced(w: World) {
    && w.free + |w.connections| == MAX_HANDLERS
    && w.active == |Operating(w.connections)| + |w.tasks|
    && w.times <= w.connections.Keys
  }

  lemma MoveCounts(m: map<nat, Phase>, c: nat, p: Phase)
    requires c in m
    ensures |m[c := p]| == |m|
    ensures |Operating(m[c := p])| ==
            |Operating(m)| + (if InOperation(p) then 1 else 0) - (if InOperation(m[c]) then 1 else 0)
  {
    assert m[c := p].Keys == m.Keys;
    var rest := Operating(m) - {c};
    assert Operating(m) == rest + if InOperation(m[c]) then {c} else {};
    assert Operating(m[c := p]) == rest + if InOperation(p) then {c} else {};
  }

  lemma AddCounts(m: map<nat, Phase>, c: nat)
    requires c !in m
    ensures |m[c := Accepted]| == |m| + 1 && Operating(m[c := Accepted]) == Operating(m)
  {
    assert m[c := Accepted].Keys == m.Keys + {c};
  }

  lemma RemoveCounts(m: map<nat, Phase>, c: nat)
    requires c in m && !InOperation(m[c])
    ensures |m - {c}| == |m| - 1 && Operating(m - {c}) == Operating(m)
  {
    assert (m - {c}).Keys == m.Keys - {c};
  }

  predicate MovesConnection(s: Step) {
    s.StartThread? || s.BeginRequest? || s.PreflightRaises? || s.PreflightPasses? || s.Release?
  }

  lemma MoveKeeps(w: World, c: nat, p: Phase, active: nat)
    requires Balanced(w) && c in w.connections
    requires active == w.active + (if InOperation(p) then 1 else 0) - (if InOperation(w.connections[c]) then 1 else 0)
    ensures Balanced(Move(w.(active := active), c, p))
  {
    MoveCounts(w.connections, c, p);
    assert w.connections[c := p].Keys == w.connections.Keys;
  }

  lemma OperatingCounts(w: World, c: nat)
    requires Balanced(w) && c in Operating(w.connections)
    ensures w.active >= 1
  {
    assert Operating(w.connections) == (Operating(w.connections) - {c}) + {c};
  }

  lemma MoveStepKeeps(w: World, s: Step)
    requires Balanced(w) && MovesConnection(s) && Enabled(w, s)
    ensures Balanced(Next(w, s))
  {
    match s
    case StartThread(c) => MoveKeeps(w, c, Serving, w.active);
    case BeginRequest(c) =>
      if w.stopping {
        MoveKeeps(w, c, Answered, w.active);
      } else {
        MoveKeeps(w, c, Preflight, w.active + 1);
      }
    case PreflightRaises(c) =>
      OperatingCounts(w, c);
      MoveKeeps(w, c, Answered, w.active - 1);
    case PreflightPasses(c) => MoveKeeps(w, c, Admitted, w.active);
    case Release(c) =>
      OperatingCounts(w, c);
      MoveKeeps(w, c, Answered, w.active - 1);
  }

  lemma StepKeeps(w: World, s: Step)
    requires Balanced(w)
    ensures Balanced(Next(w, s))
  {
    if Enabled(w, s) {
      if MovesConnection(s) {
        MoveStepKeeps(w, s);
      } else {
        OtherStepKeeps(w, s);
      }
    }
  }

  lemma ArriveKeeps(w: World, c: nat)
    requires Balanced(w) && c !in w.connections
    ensures Balanced(Next(w, Arrive(c)))
  {
    AddCounts(w.connections, c);
    assert w.connections[c := Accepted].Keys == w.connections.Keys + {c};
  }

  lemma GiveBackKeeps(w: World, c: nat)
    requires Balanced(w) && c in w.connections && !InOperation(w.connections[c])
    ensures Balanced(GiveBack(w, c))
  {
    RemoveCounts(w.connections, c);
    assert (w.connections - {c}).Keys == w.connections.Keys - {c};
  }

  lemma TaskKeeps(w: World, s: Step)
    requires Balanced(w) && Enabled(w, s) && (s.BeginTask? || s.EndTask?)
    ensures Balanced(Next(w, s))
  {
    if s.EndTask? {
      assert w.tasks == (w.tasks - {s.t}) + {s.t};
    }
  }

  lemma OtherStepKeeps(w: World, s: Step)
    requires Balanced(w) && !MovesConnection(s) && Enabled(w, s)
    ensures Balanced(Next(w, s))
  {
    match s
    case Arrive(c) => ArriveKeeps(w, c);
    case StartFails(c) => GiveBackKeeps(w, c);
    case CloseConnection(c) => GiveBackKeeps(w, c);
    case BeginTask(_) => TaskKeeps(w, s);
    case EndTask(_) => TaskKeeps(w, s);
    case _ =>
  }

  lemma {:induction false} RunKeeps(w: World, steps: seq<Step>)
    requires Balanced(w)
    ensures Balanced(Run(w, steps))
    decreases |steps|
  {
    if steps != [] {
      StepKeeps(w, steps[0]);
      RunKeeps(Next(w, steps[0]), steps[1..]);
    }
  }

  // ---- theorems -----------------------------------------------------------------------------

  /** In every interleaving free slots and live handlers add up, and no accept time outlives its connection. */
  lemma SlotsAreConserved(steps: seq<Step>)
    ensures var w := Run(START, steps);
            && w.free + |w.connections| == MAX_HANDLERS
            && w.active == |Operating(w.connections)| + |w.tasks|
            && w.times <= w.connections.Keys
  {
    assert Operating(START.connections) == {};
    RunKeeps(START, steps);
  }

  /** An operation that ends was counted, so the floor at zero is never what is returned for less than zero. */
  lemma EndNeverTruncates(steps: seq<Step>, s: Step)
    requires Enabled(Run(START, steps), s) && (s.PreflightRaises? || s.Release? || s.EndTask?)
    ensures var w := Run(START, steps); w.active >= 1 && Next(w, s).active == w.active - 1
  {
    var w := Run(START, steps);
    SlotsAreConserved(steps);
    if s.EndTask? {
      assert w.tasks == (w.tasks - {s.t}) + {s.t};
    } else {
      assert s.c in Operating(w.connections);
      assert Operating(w.connections) == (Operating(w.connections) - {s.c}) + {s.c};
    }
  }

  /** The semaphore is never released beyond its bound. */
  lemma SlotReturnFits(steps: seq<Step>, s: Step)
    requires Enabled(Run(START, steps), s) && (s.StartFails? || s.CloseConnection?)
    ensures Run(START, steps).free < MAX_HANDLERS
  {
    var w := Run(START, steps);
    SlotsAreConserved(steps);
    assert w.connections.Keys == (w.connections.Keys - {s.c}) + {s.c};
  }

  lemma {:induction false} ActiveFallsAfterShutdown(w: World, steps: seq<Step>)
    requires w.stopping
    ensures Run(w, steps).stopping && Run(w, steps).active <= w.active
    decreases |steps|
  {
    if steps != [] {
      ActiveFallsAfterShutdown(Next(w, steps[0]), steps[1..]);
    }
  }

  /** Once shutdown is requested and the count is zero it is zero in every later state, and nothing is admitted. */
  lemma {:induction false} QuietForever(w: World, steps: seq<Step>)
    requires Balanced(w) && w.stopping && w.active == 0
    ensures var v := Run(w, steps);
            v.stopping && v.active == 0 && v.tasks == {} && Operating(v.connections) == {}
  {
    ActiveFallsAfterShutdown(w, steps);
    RunKeeps(w, steps);
  }

  /** The label, unlike the count, is not stable: it leaves STOPPED exactly at a further shutdown request. */
  lemma WhenLabelLeavesStopped(w: World, s: Step)
    requires w.state == StoppedLabel
    ensures Next(w, s).state != StoppedLabel <==> s.RequestShutdown?
  {
  }

  /**
   * A service is marked STOPPED exactly if it was, or is idle after a shutdown request with no background thread left.
   */
  lemma WhenMarkedStopped(w: World, backgroundAlive: bool)
    ensures Next(w, MarkStopped(backgroundAlive)).state == StoppedLabel <==>
            w.state == StoppedLabel || (w.stopping && w.active == 0 && !backgroundAlive)
    ensures Next(w, MarkStopped(backgroundAlive)).(state := w.state) == w
  {
  }

  /**
   * Once an idle service has been asked to stop, whatever happens next, one more look without background threads stops
   * it.
   */
  lemma IdleServiceStops(w: World, steps: seq<Step>)
    requires Balanced(w) && w.active == 0
    ensures Next(Run(Next(w, RequestShutdown), steps), MarkStopped(false)).state == StoppedLabel
  {
    StepKeeps(w, RequestShutdown);
    QuietForever(Next(w, RequestShutdown), steps);
  }

  /** A connection is served exactly if a handler slot is free. */
  lemma WhenConnectionIsTaken(w: World, c: nat)
    requires c !in w.connections
    ensures c in Next(w, Arrive(c)).connections <==> w.free > 0
    ensures w.free > 0 ==> Holds(Next(w, Arrive(c)), c, Accepted) && Next(w, Arrive(c)).free == w.free - 1
    ensures w.free == 0 ==> Next(w, Arrive(c)) == w
  {
  }

  // ---- exactly once -------------------------------------------------------------------------

  /** How often connection c took a slot, gave it back, began and ended its operation. */
  datatype Tally = Tally(taken: nat, returned: nat, begun: nat, ended: nat)

  function Count(w: World, s: Step, c: nat, t: Tally): Tally {
    if !Enabled(w, s) then t
    else
      match s
      case Arrive(d) => if d == c && w.free > 0 then t.(taken := t.taken + 1) else t
      case StartFails(d) => if d == c then t.(returned := t.returned + 1) else t
      case CloseConnection(d) => if d == c then t.(returned := t.returned + 1) else t
      case BeginRequest(d) => if d == c && !w.stopping then t.(begun := t.begun + 1) else t
      case PreflightRaises(d) => if d == c then t.(ended := t.ended + 1) else t
      case Release(d) => if d == c then t.(ended := t.ended + 1) else t
      case _ => t
  }

  function CountRun(w: World, steps: seq<Step>, c: nat, t: Tally): Tally
    decreases |steps|
  {
    if steps == [] then t else CountRun(Next(w, steps[0]), steps[1..], c, Count(w, steps[0], c, t))
  }

  ghost predicate Settled(w: World, c: nat, t: Tally) {
    && t.taken == t.returned + (if c in w.connections then 1 else 0)
    && t.begun == t.ended + (if c in Operating(w.connections) then 1 else 0)
  }

  lemma {:induction false} SettledRun(w: World, steps: seq<Step>, c: nat, t: Tally)
    requires Settled(w, c, t)
    ensures Settled(Run(w, steps), c, CountRun(w, steps, c, t))
    decreases |steps|
  {
    if steps != [] {
      SettledRun(Next(w, steps[0]), steps[1..], c, Count(w, steps[0], c, t));
    }
  }

  /**
   * Every slot taken is returned exactly once and every operation begun is ended exactly once, once the connection is
   * gone.
   */
  lemma ReleasedExactlyOnce(steps: seq<Step>, c: nat)
    requires c !in Run(START, steps).connections
    ensures var t := CountRun(START, steps, c, Tally(0, 0, 0, 0)); t.taken == t.returned && t.begun == t.ended
  {
    SettledRun(START, steps, c, Tally(0, 0, 0, 0));
  }

  /** The steps by which admission is decided; after a refusal at the first, the second is not enabled. */
  function Admission(c: nat, passes: bool): seq<Step> {
    [BeginRequest(c), if passes then PreflightPasses(c) else PreflightRaises(c)]
  }

  /** What those steps come to: the request is admitted and counted, or nothing of it is left. */
  predicate Decided(w: World, c: nat, passes: bool) {
    var v := Run(w, Admission(c, passes));
    && Holds(v, c, if passes && !w.stopping then Admitted else Answered)
    && v.active == w.active + (if passes && !w.stopping then 1 else 0)
    && v.state == w.state && v.stopping == w.stopping
  }

  lemma AdmissionEnds(w: World, c: nat, passes: bool)
    requires Holds(w, c, Serving)
    ensures Decided(w, c, passes)
  {
    var steps := Admission(c, passes);
    var u := Next(w, steps[0]);
    assert steps[1..] == [steps[1]] && [steps[1]][1..] == [];
    assert Run(u, steps[1..]) == Run(Next(u, steps[1]), []);
  }

  // ---- the service's locked methods -----------------------------------------------------------

  class Service {
    var activeOperations: nat
    var lifecycleState: Label
    var shutdownRequested: bool

    constructor ()
      ensures activeOperations == 0 && lifecycleState == Running && !shutdownRequested
    {
      activeOperations, lifecycleState, shutdownRequested := 0, Running, false;
    }

    /** The service's part of a world. */
    ghost predicate Shows(w: World)
      reads this
    {
      activeOperations == w.active && lifecycleState == w.state && shutdownRequested == w.stopping
    }

    method BeginOperation() returns (ok: bool)
      modifies this`activeOperations
      ensures ok <==> !shutdownRequested
      ensures activeOperations == old(activeOperations) + if ok then 1 else 0
      ensures forall w, t | old(Shows(w)) && t !in w.tasks :: Shows(Next(w, BeginTask(t)))
      ensures forall w, c | old(Shows(w)) && Holds(w, c, Serving) :: Shows(Next(w, BeginRequest(c)))
    {
      if shutdownRequested {
        return false;
      }
      activeOperations := activeOperations + 1;
      ok := true;
    }

    method EndOperation()
      modifies this`activeOperations
      ensures old(activeOperations) > 0 ==> activeOperations == old(activeOperations) - 1
      ensures forall w, t | old(Shows(w)) && t in w.tasks :: Shows(Next(w, EndTask(t)))
      ensures forall w, c | old(Shows(w)) && Holds(w, c, Admitted) :: Shows(Next(w, Release(c)))
      ensures forall w, c | old(Shows(w)) && Holds(w, c, Preflight) :: Shows(Next(w, PreflightRaises(c)))
    {
      activeOperations := if activeOperations - 1 > 0 then activeOperations - 1 else 0;
    }

    /** `passes` is what the admission checks say; a refused request leaves no operation behind. */
    method AdmitHttp(passes: bool) returns (admitted: bool)
      modifies this`activeOperations
      ensures admitted <==> passes && !shutdownRequested
      ensures activeOperations == old(activeOperations) + if admitted then 1 else 0
      ensures forall w, c | old(Shows(w)) && Holds(w, c, Serving) ::
                var v := Run(w, Admission(c, passes));
                Shows(v) && Holds(v, c, if admitted then Admitted else Answered)
    {
      forall w, c | Shows(w) && Holds(w, c, Serving)
        ensures Decided(w, c, passes)
      {
        AdmissionEnds(w, c, passes);
      }
      var ok := BeginOperation();
      if !ok {
        return false;
      }
      if !passes {
        EndOperation();
        return false;
      }
      admitted := true;
    }

    method MarkStoppedIfIdle(backgroundAlive: bool)
      modifies this
      ensures forall w | old(Shows(w)) :: Shows(Next(w, MarkStopped(backgroundAlive)))
      ensures lifecycleState == if old(shutdownRequested) && old(activeOperations) == 0 && !backgroundAlive
                                then StoppedLabel else old(lifecycleState)
      ensures activeOperations == old(activeOperations) && shutdownRequested == old(shutdownRequested)
    {
      if shutdownRequested && activeOperations == 0 && !backgroundAlive {
        lifecycleState := StoppedLabel;
      }
    }

    method RequestShutdown()
      modifies this
      ensures forall w | old(Shows(w)) :: Shows(Next(w, Step.RequestShutdown))
      ensures lifecycleState == Draining && shutdownRequested && activeOperations == old(activeOperations)
    {
      lifecycleState := Draining;
      shutdownRequested := true;
    }
  }
}
