/**
 * The execution tracker that says when a session has come to rest: admitted turns, running nodes,
 * blocking effects that outlive their node, and callbacks deferred until nothing runs.
 */
module Quiescence {

  // Callbacks are named by the order in which they were registered.
  type Callback = nat

  datatype Tracker = Tracker(active: map<string, nat>, turns: nat, open: bool, deferred: seq<Callback>)

  predicate Idle(t: Tracker) {
    t.active == map[] && t.turns == 0
  }

  function CountOf(t: Tracker, node: string): nat {
    if node in t.active then t.active[node] else 0
  }

  // ---------------------------------------------------------------- what each critical section does

  /** The callbacks a critical section takes away with it: all of them, and only at full rest. */
  function Drain(t: Tracker): (Tracker, seq<Callback>) {
    if Idle(t) then (t.(deferred := []), t.deferred) else (t, [])
  }

  function Enter(t: Tracker, node: string): Tracker {
    t.(active := t.active[node := CountOf(t, node) + 1])
  }

  function Leave(t: Tracker, node: string): (Tracker, seq<Callback>)
    requires CountOf(t, node) > 0
  {
    Drain(if t.active[node] > 1 then t.(active := t.active[node := t.active[node] - 1])
          else t.(active := t.active - {node}))
  }

  function Begin(t: Tracker): (Tracker, bool) {
    if t.open then (t.(turns := t.turns + 1), true) else (t, false)
  }

  function End(t: Tracker): (Tracker, seq<Callback>)
    requires t.turns > 0
  {
    Drain(t.(turns := t.turns - 1))
  }

  function Defer(t: Tracker, callback: Callback): (Tracker, bool) {
    if Idle(t) then (t, true) else (t.(deferred := t.deferred + [callback]), false)
  }

  /** The tracker as the program keeps it. Each method is one critical section under its lock. */
  class NodeExecutionTracker {
    var activeByNode: map<string, nat>
    var activeTurns: nat
    var turnAdmissionOpen: bool
    var fullyIdleCallbacks: seq<Callback>

    ghost function State(): Tracker
      reads this
    {
      Tracker(activeByNode, activeTurns, turnAdmissionOpen, fullyIdleCallbacks)
    }

    constructor ()
      ensures State() == Tracker(map[], 0, true, [])
    {
      activeByNode, activeTurns, turnAdmissionOpen, fullyIdleCallbacks := map[], 0, true, [];
    }

    method TakeIdleCallbacks() returns (callbacks: seq<Callback>)
      modifies this`fullyIdleCallbacks
      ensures (State(), callbacks) == Drain(old(State()))
    {
      callbacks := [];
      if activeByNode == map[] {
        if activeTurns == 0 {
          callbacks := fullyIdleCallbacks;
          fullyIdleCallbacks := [];
        }
      }
    }

    method EnterNode(node: string)
      modifies this`activeByNode
      ensures State() == Enter(old(State()), node)
    {
      activeByNode := activeByNode[node := (if node in activeByNode then activeByNode[node] else 0) + 1];
    }

    method LeaveNode(node: string) returns (callbacks: seq<Callback>)
      requires CountOf(State(), node) > 0
      modifies this
      ensures (State(), callbacks) == Leave(old(State()), node)
    {
      var remaining := activeByNode[node] - 1;
      if remaining != 0 {
        activeByNode := activeByNode[node := remaining];
      } else {
        activeByNode := activeByNode - {node};
      }
      callbacks := TakeIdleCallbacks();
    }

    method BeginTurn() returns (admitted: bool)
      modifies this`activeTurns
      ensures (State(), admitted) == Begin(old(State()))
    {
      admitted := turnAdmissionOpen;
      if admitted {
        activeTurns := activeTurns + 1;
      }
    }

    method EndTurn() returns (callbacks: seq<Callback>)
      requires activeTurns > 0
      modifies this
      ensures (State(), callbacks) == End(old(State()))
    {
      activeTurns := activeTurns - 1;
      callbacks := TakeIdleCallbacks();
    }

    method StopTurnAdmission()
      modifies this`turnAdmissionOpen
      ensures State() == old(State()).(open := false)
    {
      turnAdmissionOpen := false;
    }

    method DeferUntilFullyIdle(callback: Callback) returns (runNow: bool)
      modifies this`fullyIdleCallbacks
      ensures (State(), runNow) == Defer(old(State()), callback)
    {
      if activeTurns != 0 || activeByNode != map[] {
        fullyIdleCallbacks := fullyIdleCallbacks + [callback];
        return false;
      }
      return true;
    }
  }

  // ---------------------------------------------------------------- every interleaving

  /**
   * One node call: its span, the blocking effect it may have handed to a worker thread, and whether
   * cancellation left that worker holding the node by itself.
   */
  datatype Job = Job(node: string, span: bool, working: bool, retained: bool)

  // `handed` lists the callbacks given out to be run, in order; `registered` counts registrations; `running`
  // counts the turns that were told they are admitted and have not ended.
  datatype World = World(tracker: Tracker, jobs: seq<Job>, registered: nat, handed: seq<Callback>, running: nat)

  datatype Act =
    | OpenSpan(node: string)
    | StartEffect(j: nat)
    | WorkerExits(j: nat)
    | Detach(j: nat)  // cancelled while awaiting the effect: the worker is given its own hold first
    | CloseSpan(j: nat)
    | Release(j: nat)  // the detached worker's task is done
    | TurnBegins
    | TurnEnds
    | AdmissionStops
    | Registers

  const START := World(Tracker(map[], 0, true, []), [], 0, [], 0)

  predicate Enabled(w: World, a: Act) {
    match a
    case StartEffect(j) => j < |w.jobs| && w.jobs[j].span && !w.jobs[j].working && !w.jobs[j].retained
    case WorkerExits(j) => j < |w.jobs| && w.jobs[j].working
    case Detach(j) => j < |w.jobs| && w.jobs[j].span && !w.jobs[j].retained
    case CloseSpan(j) => j < |w.jobs| && w.jobs[j].span && (w.jobs[j].working ==> w.jobs[j].retained)
                         && CountOf(w.tracker, w.jobs[j].node) > 0
    case Release(j) => j < |w.jobs| && w.jobs[j].retained && !w.jobs[j].working
                       && CountOf(w.tracker, w.jobs[j].node) > 0
    case TurnEnds => w.running > 0 && w.tracker.turns > 0
    case _ => true
  }

  function SetJob(w: World, j: nat, job: Job): World
    requires j < |w.jobs|
  {
    w.(jobs := w.jobs[j := job])
  }

  function Settle(w: World, r: (Tracker, seq<Callback>)): World {
    w.(tracker := r.0, handed := w.handed + r.1)
  }

  function Next(w: World, a: Act): World
    requires Enabled(w, a)
  {
    match a
    case OpenSpan(node) =>
      w.(tracker := Enter(w.tracker, node), jobs := w.jobs + [Job(node, true, false, false)])
    case StartEffect(j) => SetJob(w, j, w.jobs[j].(working := true))
    case WorkerExits(j) => SetJob(w, j, w.jobs[j].(working := false))
    case Detach(j) =>
      SetJob(w, j, w.jobs[j].(retained := true)).(tracker := Enter(w.tracker, w.jobs[j].node))
    case CloseSpan(j) => Settle(SetJob(w, j, w.jobs[j].(span := false)), Leave(w.tracker, w.jobs[j].node))
    case Release(j) => Settle(SetJob(w, j, w.jobs[j].(retained := false)), Leave(w.tracker, w.jobs[j].node))
    case TurnBegins =>
      var (t, admitted) := Begin(w.tracker);
      w.(tracker := t, running := if admitted then w.running + 1 else w.running)
    case TurnEnds => Settle(w.(running := w.running - 1), End(w.tracker))
    case AdmissionStops => w.(tracker := w.tracker.(open := false))
    case Registers =>
      var (t, runNow) := Defer(w.tracker, w.registered);
      w.(tracker := t, registered := w.registered + 1,
         handed := if runNow then w.handed + [w.registered] else w.handed)
  }

  /** How many times a job holds a node: once by its span, once by a detached worker. */
  function Holds(job: Job, node: string): nat {
    if job.node != node then 0 else (if job.span then 1 else 0) + if job.retained then 1 else 0
  }

  function TotalHolds(jobs: seq<Job>, node: string): nat {
    if jobs == [] then 0 else TotalHolds(jobs[..|jobs| - 1], node) + Holds(jobs[|jobs| - 1], node)
  }

  lemma {:induction false} SetHolds(jobs: seq<Job>, j: nat, job: Job, node: string)
    requires j < |jobs|
    ensures TotalHolds(jobs[j := job], node) == TotalHolds(jobs, node) - Holds(jobs[j], node) + Holds(job, node)
    ensures TotalHolds(jobs, node) >= Holds(jobs[j], node)
  {
    var n := |jobs| - 1;
    if j == n {
      assert jobs[j := job][..n] == jobs[..n];
    } else {
      assert jobs[j := job][..n] == jobs[..n][j := job];
      SetHolds(jobs[..n], j, job, node);
    }
  }

  lemma AppendHolds(jobs: seq<Job>, job: Job, node: string)
    ensures TotalHolds(jobs + [job], node) == TotalHolds(jobs, node) + Holds(job, node)
  {
  }

  /** The counters are exactly the holds: no node is listed with nothing holding it. */
  ghost predicate CountsHolds(t: Tracker, jobs: seq<Job>) {
    && (forall node :: CountOf(t, node) == TotalHolds(jobs, node))
    && (forall node :: node in t.active ==> t.active[node] > 0)
  }

  /** Every registered callback is either still deferred or was handed out, exactly once. */
  ghost predicate OnceEach(w: World) {
    Once(w.tracker.deferred, w.handed, w.registered)
  }

  ghost predicate Once(deferred: seq<Callback>, handed: seq<Callback>, registered: nat) {
    forall c: Callback :: multiset(deferred)[c] + multiset(handed)[c] == if c < registered then 1 else 0
  }

  ghost predicate Inv(w: World) {
    && CountsHolds(w.tracker, w.jobs)
    && (forall j :: 0 <= j < |w.jobs| && w.jobs[j].working ==> w.jobs[j].span || w.jobs[j].retained)
    && (w.tracker.deferred != [] ==> !Idle(w.tracker))
    && OnceEach(w)
    && w.running == w.tracker.turns
  }

  /** A run of the tracker from its start: `ws` are the worlds passed through, `acts` the steps between them. */
  ghost predicate IsRun(ws: seq<World>, acts: seq<Act>) {
    && |ws| == |acts| + 1
    && ws[0] == START
    && forall i :: 0 <= i < |acts| ==> Enabled(ws[i], acts[i]) && ws[i + 1] == Next(ws[i], acts[i])
  }

  lemma {:induction false} LeaveCounts(t: Tracker, jobs: seq<Job>, j: nat, job: Job)
    requires CountsHolds(t, jobs) && j < |jobs| && job.node == jobs[j].node
    requires Holds(jobs[j], job.node) == Holds(job, job.node) + 1
    ensures CountOf(t, job.node) > 0 && CountsHolds(Leave(t, job.node).0, jobs[j := job])
  {
    SetHolds(jobs, j, job, job.node);
    var t' := Leave(t, job.node).0;
    forall node
      ensures CountOf(t', node) == TotalHolds(jobs[j := job], node)
    {
      SetHolds(jobs, j, job, node);
    }
  }

  lemma EnterCounts(t: Tracker, jobs: seq<Job>, j: nat, job: Job)
    requires CountsHolds(t, jobs) && j < |jobs| && job.node == jobs[j].node
    requires Holds(job, job.node) == Holds(jobs[j], job.node) + 1
    ensures CountsHolds(Enter(t, job.node), jobs[j := job])
  {
    forall node
      ensures CountOf(Enter(t, job.node), node) == TotalHolds(jobs[j := job], node)
    {
      SetHolds(jobs, j, job, node);
    }
  }

  lemma SameCounts(t: Tracker, jobs: seq<Job>, j: nat, job: Job)
    requires CountsHolds(t, jobs) && j < |jobs| && job.node == jobs[j].node
    requires Holds(job, job.node) == Holds(jobs[j], job.node)
    ensures CountsHolds(t, jobs[j := job])
  {
    forall node
      ensures CountOf(t, node) == TotalHolds(jobs[j := job], node)
    {
      SetHolds(jobs, j, job, node);
    }
  }

  lemma NextKeepsCounts(w: World, a: Act)
    requires CountsHolds(w.tracker, w.jobs) && Enabled(w, a)
    ensures CountsHolds(Next(w, a).tracker, Next(w, a).jobs)
  {
    match a
    case OpenSpan(node) =>
      forall n
        ensures CountOf(Enter(w.tracker, node), n) == TotalHolds(w.jobs + [Job(node, true, false, false)], n)
      {
        AppendHolds(w.jobs, Job(node, true, false, false), n);
      }
    case StartEffect(j) => SameCounts(w.tracker, w.jobs, j, w.jobs[j].(working := true));
    case WorkerExits(j) => SameCounts(w.tracker, w.jobs, j, w.jobs[j].(working := false));
    case Detach(j) => EnterCounts(w.tracker, w.jobs, j, w.jobs[j].(retained := true));
    case CloseSpan(j) => LeaveCounts(w.tracker, w.jobs, j, w.jobs[j].(span := false));
    case Release(j) => LeaveCounts(w.tracker, w.jobs, j, w.jobs[j].(retained := false));
    case _ =>
  }

  /** Handing the whole queue out keeps the count. */
  lemma HandOnce(deferred: seq<Callback>, handed: seq<Callback>, registered: nat)
    requires Once(deferred, handed, registered)
    ensures Once([], handed + deferred, registered)
  {
    assert multiset(handed + deferred) == multiset(handed) + multiset(deferred);
  }

  /** A new callback counts once, queued or run at once. */
  lemma RegisterOnce(deferred: seq<Callback>, handed: seq<Callback>, registered: nat)
    requires Once(deferred, handed, registered)
    ensures Once(deferred + [registered], handed, registered + 1)
    ensures Once(deferred, handed + [registered], registered + 1)
  {
    assert multiset(deferred + [registered]) == multiset(deferred) + multiset{registered};
    assert multiset(handed + [registered]) == multiset(handed) + multiset{registered};
  }

  /** The acts that leave a span, a worker or a turn behind may drain; all others but registering leave callbacks alone. */
  predicate MayDrain(a: Act) {
    a.CloseSpan? || a.Release? || a.TurnEnds?
  }

  lemma OthersLeaveCallbacks(w: World, a: Act)
    requires Enabled(w, a) && !MayDrain(a) && !a.Registers?
    ensures var w' := Next(w, a);
            w'.tracker.deferred == w.tracker.deferred && w'.handed == w.handed && w'.registered == w.registered
  {
  }

  lemma DrainsAllOrNothing(w: World, a: Act)
    requires Enabled(w, a) && MayDrain(a)
    ensures var w' := Next(w, a);
            && w'.registered == w.registered
            && (|| (w'.tracker.deferred == w.tracker.deferred && w'.handed == w.handed)
                || (w'.tracker.deferred == [] && w'.handed == w.handed + w.tracker.deferred))
  {
  }

  lemma RegistersOne(w: World)
    requires Enabled(w, Registers)
    ensures var w' := Next(w, Registers);
            && w'.registered == w.registered + 1
            && (|| (w'.tracker.deferred == w.tracker.deferred + [w.registered] && w'.handed == w.handed)
                || (w'.tracker.deferred == w.tracker.deferred && w'.handed == w.handed + [w.registered]))
  {
  }

  lemma NextKeepsOnce(w: World, a: Act)
    requires OnceEach(w) && Enabled(w, a)
    ensures OnceEach(Next(w, a))
  {
    if MayDrain(a) {
      DrainsAllOrNothing(w, a);
      HandOnce(w.tracker.deferred, w.handed, w.registered);
    } else if a.Registers? {
      RegistersOne(w);
      RegisterOnce(w.tracker.deferred, w.handed, w.registered);
    } else {
      OthersLeaveCallbacks(w, a);
    }
  }

  lemma NextKeepsInv(w: World, a: Act)
    requires Inv(w) && Enabled(w, a)
    ensures Inv(Next(w, a))
  {
    NextKeepsCounts(w, a);
    NextKeepsOnce(w, a);
  }

  /** Every world of every interleaving satisfies the tracker's invariant. */
  lemma {:induction false} RunKeepsInv(ws: seq<World>, acts: seq<Act>, i: nat)
    requires IsRun(ws, acts) && i < |ws|
    ensures Inv(ws[i])
  {
    if i > 0 {
      RunKeepsInv(ws, acts, i - 1);
      NextKeepsInv(ws[i - 1], acts[i - 1]);
    }
  }

  /** A worker that still runs keeps its node counted, whether its call lives on or was cancelled away. */
  lemma RunningEffectIsCounted(w: World, j: nat)
    requires Inv(w) && j < |w.jobs| && w.jobs[j].working
    ensures w.jobs[j].node in w.tracker.active && !Idle(w.tracker)
  {
    SetHolds(w.jobs, j, w.jobs[j], w.jobs[j].node);
    assert CountOf(w.tracker, w.jobs[j].node) == TotalHolds(w.jobs, w.jobs[j].node);
  }

  /** A turn is told it is admitted exactly while admission is open, and is counted from then on exactly if it was told so. */
  lemma TurnToldIffOpen(t: Tracker)
    ensures Begin(t).1 <==> t.open
    ensures Begin(t).0 == t.(turns := t.turns + if t.open then 1 else 0)
  {
  }

  /** Every turn that was told it is admitted stays counted until it ends, and can always end. */
  lemma AdmittedTurnIsCounted(w: World)
    requires Inv(w) && w.running > 0
    ensures !Idle(w.tracker) && Enabled(w, TurnEnds) && Next(w, TurnEnds).running == w.running - 1
  {
  }

  /** Callbacks are handed out only at full rest, and the handing-out step leaves nothing deferred. */
  lemma HandedOnlyAtRest(w: World, a: Act)
    requires Inv(w) && Enabled(w, a) && Next(w, a).handed != w.handed
    ensures Idle(Next(w, a).tracker) && Next(w, a).tracker.deferred == []
    ensures forall j :: 0 <= j < |Next(w, a).jobs| ==>
                          !Next(w, a).jobs[j].working && !Next(w, a).jobs[j].span && !Next(w, a).jobs[j].retained
  {
    var w' := Next(w, a);
    NextKeepsInv(w, a);
    forall j | 0 <= j < |w'.jobs|
      ensures !w'.jobs[j].working && !w'.jobs[j].span && !w'.jobs[j].retained
    {
      SetHolds(w'.jobs, j, w'.jobs[j], w'.jobs[j].node);
      assert CountOf(w'.tracker, w'.jobs[j].node) == TotalHolds(w'.jobs, w'.jobs[j].node);
    }
  }

  /** No callback is handed out twice, and none is still deferred once handed out. */
  lemma HandedAtMostOnce(w: World, i: nat, k: nat)
    requires Inv(w) && i < k < |w.handed|
    ensures w.handed[i] != w.handed[k] && w.handed[i] !in w.tracker.deferred
  {
    var c := w.handed[i];
    assert w.handed == w.handed[..k] + w.handed[k..];
    assert multiset(w.handed) == multiset(w.handed[..k]) + multiset(w.handed[k..]);
    assert c == w.handed[..k][i] && w.handed[k] == w.handed[k..][0];
    assert multiset(w.tracker.deferred)[c] + multiset(w.handed)[c] <= 1;
  }

  /** Nothing is stranded: at rest every registered callback has been handed out. */
  lemma NothingStranded(w: World, c: Callback)
    requires Inv(w) && Idle(w.tracker) && c < w.registered
    ensures c in w.handed
  {
    assert multiset(w.tracker.deferred)[c] + multiset(w.handed)[c] == 1;
  }
}
