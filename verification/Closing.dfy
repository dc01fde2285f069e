/**
 * Closing a session: admission stops, the tracker comes to rest, takeovers drain, and one closer
 * completes, whatever turns, nodes, takeovers and other closers do in between.
 */
module Closing {
  import opened Results
  import opened Quiescence

  // ---------------------------------------------------------------- the takeover gate

  // Closers are named by the order in which they were called.
  type CloserId = nat

  /** `_close_started`, the live takeover leases, and the closers waiting for them to end. */
  datatype Gate = Gate(started: bool, leases: nat, waiting: seq<CloserId>)

  function Acquire(g: Gate): (Gate, bool) {
    if g.started then (g, false) else (g.(leases := g.leases + 1), true)
  }

  function ReleaseLease(g: Gate): (Gate, seq<CloserId>)
    requires g.leases > 0
  {
    if g.leases == 1 then (g.(leases := 0, waiting := []), g.waiting) else (g.(leases := g.leases - 1), [])
  }

  function AwaitLeases(g: Gate, c: CloserId): (Gate, bool) {
    if g.leases > 0 then (g.(waiting := g.waiting + [c]), false) else (g, true)
  }

  /** The part of the caller context behind its close lock, each method one critical section. */
  class CallerContext {
    const tracker: NodeExecutionTracker
    var closeStarted: bool
    var activeTakeovers: nat
    var takeoverIdleCallbacks: seq<CloserId>

    ghost function State(): Gate
      reads this
    {
      Gate(closeStarted, activeTakeovers, takeoverIdleCallbacks)
    }

    constructor (tracker: NodeExecutionTracker)
      ensures this.tracker == tracker && State() == Gate(false, 0, [])
    {
      this.tracker := tracker;
      closeStarted, activeTakeovers, takeoverIdleCallbacks := false, 0, [];
    }

    method AcquireLease() returns (acquired: bool)
      modifies this`activeTakeovers
      ensures (State(), acquired) == Acquire(old(State()))
    {
      acquired := !closeStarted;
      if acquired {
        activeTakeovers := activeTakeovers + 1;
      }
    }

    method EndLease() returns (callbacks: seq<CloserId>)
      requires activeTakeovers > 0
      modifies this
      ensures (State(), callbacks) == ReleaseLease(old(State()))
    {
      callbacks := [];
      activeTakeovers := activeTakeovers - 1;
      if activeTakeovers == 0 {
        callbacks := takeoverIdleCallbacks;
        takeoverIdleCallbacks := [];
      }
    }

    method DeferUntilTakeoversIdle(c: CloserId) returns (runNow: bool)
      modifies this`takeoverIdleCallbacks
      ensures (State(), runNow) == AwaitLeases(old(State()), c)
    {
      if activeTakeovers != 0 {
        takeoverIdleCallbacks := takeoverIdleCallbacks + [c];
        return false;
      }
      return true;
    }

    /** Only the call that starts the close stops admission; both marks are then set for good. */
    method StopTurnAdmission()
      modifies this`closeStarted, tracker`turnAdmissionOpen
      ensures State() == old(State()).(started := true)
      ensures tracker.State() == old(tracker.State()).(open := old(closeStarted) && old(tracker.turnAdmissionOpen))
    {
      if closeStarted {
        return;
      }
      closeStarted := true;
      tracker.StopTurnAdmission();
    }
  }

  // ---------------------------------------------------------------- every interleaving

  datatype Phase =
    | Called
    | Stopping  // holds the close lock between the two marks
    | Stopped
    | Locked  // holds the async close lock and found the session not closed
    | AwaitingRest(callback: Callback)
    | RestSeen
    | AwaitingTakeovers
    | TakeoversSeen
    | Completing
    | Completed
    | FoundClosed
    | Failed  // timed out or raised; a later close may try again

  datatype Session = Session(
    world: World, gate: Gate, closeLock: Option<CloserId>, asyncLock: Option<CloserId>,
    woken: set<CloserId>, closed: bool, completions: nat, closers: seq<Phase>,
    leased: nat)  // takeovers that were told they hold a lease and have not ended

  datatype Step =
    | Graph(act: Act)
    | TakeoverStarts
    | TakeoverEnds
    | CloseCalled
    | StopBegins(c: CloserId)
    | StopEnds(c: CloserId)
    | TakesLock(c: CloserId)
    | AwaitsRest(c: CloserId)
    | SeesRest(c: CloserId)
    | AwaitsTakeovers(c: CloserId)
    | SeesTakeovers(c: CloserId)
    | BeginsCompletion(c: CloserId)
    | Completes(c: CloserId)
    | Fails(c: CloserId)

  const OPENED := Session(Quiescence.START, Gate(false, 0, []), None, None, {}, false, 0, [], 0)

  predicate HoldsAsyncLock(p: Phase) {
    p.Locked? || p.AwaitingRest? || p.RestSeen? || p.AwaitingTakeovers? || p.TakeoversSeen? || p.Completing?
  }

  predicate PastStop(p: Phase) {
    !p.Called? && !p.Stopping?
  }

  predicate At(s: Session, c: CloserId, p: Phase) {
    c < |s.closers| && s.closers[c] == p
  }

  predicate Can(s: Session, step: Step) {
    match step
    case Graph(act) =>
      // Admission is only stopped by closers, and nodes only run inside an admitted turn.
      Enabled(s.world, act) && !act.AdmissionStops? && (act.OpenSpan? ==> s.world.running > 0)
    case TakeoverStarts => s.closeLock.None?
    case TakeoverEnds => s.closeLock.None? && s.leased > 0 && s.gate.leases > 0
    case CloseCalled => true
    case StopBegins(c) => At(s, c, Called) && s.closeLock.None?
    case StopEnds(c) => At(s, c, Stopping)
    case TakesLock(c) => At(s, c, Stopped) && s.asyncLock.None? && s.closeLock.None?
    case AwaitsRest(c) => At(s, c, Locked)
    case SeesRest(c) => c < |s.closers| && s.closers[c].AwaitingRest? && s.closers[c].callback in s.world.handed
    case AwaitsTakeovers(c) => At(s, c, RestSeen) && s.closeLock.None?
    case SeesTakeovers(c) => At(s, c, AwaitingTakeovers) && c in s.woken
    case BeginsCompletion(c) => At(s, c, TakeoversSeen)
    case Completes(c) => At(s, c, Completing) && s.closeLock.None?
    case Fails(c) => c < |s.closers| && HoldsAsyncLock(s.closers[c])
  }

  /** The steps that belong to one closer and change only its phase among the closers. */
  predicate MovesCloser(step: Step) {
    !step.Graph? && !step.TakeoverStarts? && !step.TakeoverEnds? && !step.CloseCalled?
  }

  function Move(s: Session, c: CloserId, p: Phase): Session
    requires c < |s.closers|
  {
    s.(closers := s.closers[c := p])
  }

  function After(s: Session, step: Step): Session
    requires Can(s, step)
  {
    match step
    case Graph(act) => s.(world := Next(s.world, act))
    case TakeoverStarts =>
      var (gate, granted) := Acquire(s.gate);
      s.(gate := gate, leased := if granted then s.leased + 1 else s.leased)
    case TakeoverEnds =>
      var (gate, freed) := ReleaseLease(s.gate);
      s.(gate := gate, leased := s.leased - 1, woken := s.woken + set c | c in freed)
    case CloseCalled => s.(closers := s.closers + [Called])
    case StopBegins(c) =>
      if s.gate.started then Move(s, c, Stopped)
      else Move(s, c, Stopping).(gate := s.gate.(started := true), closeLock := Some(c))
    case StopEnds(c) => Move(s, c, Stopped).(world := Next(s.world, AdmissionStops), closeLock := None)
    case TakesLock(c) => if s.closed then Move(s, c, FoundClosed) else Move(s, c, Locked).(asyncLock := Some(c))
    case AwaitsRest(c) => Move(s, c, AwaitingRest(s.world.registered)).(world := Next(s.world, Registers))
    case SeesRest(c) => Move(s, c, RestSeen)
    case AwaitsTakeovers(c) =>
      var (gate, now) := AwaitLeases(s.gate, c);
      Move(s, c, AwaitingTakeovers).(gate := gate, woken := if now then s.woken + {c} else s.woken)
    case SeesTakeovers(c) => Move(s, c, TakeoversSeen)
    case BeginsCompletion(c) => Move(s, c, Completing)
    case Completes(c) => Move(s, c, Completed).(closed := true, completions := s.completions + 1, asyncLock := None)
    case Fails(c) => Move(s, c, Failed).(asyncLock := None)
  }

  ghost predicate IsRun(ss: seq<Session>, steps: seq<Step>) {
    && |ss| == |steps| + 1
    && ss[0] == OPENED
    && forall i :: 0 <= i < |steps| ==> Can(ss[i], steps[i]) && ss[i + 1] == After(ss[i], steps[i])
  }

  /** Nothing runs and nothing can start: the tracker is at rest with admission shut. */
  predicate AtRest(s: Session) {
    Idle(s.world.tracker) && !s.world.tracker.open
  }

  /** This closer has been told, or could be told now, that the tracker came to rest. */
  predicate RestPromised(s: Session, p: Phase) {
    match p
    case AwaitingRest(callback) => callback in s.world.handed
    case _ => HoldsAsyncLock(p) && !p.Locked?
  }

  ghost predicate LocksOk(s: Session) {
    && (forall c :: 0 <= c < |s.closers| ==> (s.closers[c].Stopping? <==> s.closeLock == Some(c)))
    && (forall c :: 0 <= c < |s.closers| ==> (HoldsAsyncLock(s.closers[c]) <==> s.asyncLock == Some(c)))
    && (s.closeLock.Some? ==> s.gate.started && s.closeLock.value < |s.closers|)
    && (s.asyncLock.Some? ==> !s.closed && s.asyncLock.value < |s.closers|)
    && s.completions == if s.closed then 1 else 0
  }

  ghost predicate StopOk(s: Session) {
    && (!s.world.tracker.open ==> s.gate.started)
    && (s.gate.started && s.closeLock.None? ==> !s.world.tracker.open)
    && (forall c :: 0 <= c < |s.closers| && PastStop(s.closers[c]) ==> s.gate.started && !s.world.tracker.open)
  }

  ghost predicate RestOk(s: Session) {
    && (forall c :: 0 <= c < |s.closers| && s.closers[c].AwaitingRest? ==> s.closers[c].callback < s.world.registered)
    && (forall c :: 0 <= c < |s.closers| && RestPromised(s, s.closers[c]) ==> AtRest(s))
  }

  ghost predicate LeasesOk(s: Session) {
    && s.leased == s.gate.leases
    && (s.woken != {} ==> s.gate.started && s.gate.leases == 0)
    && (s.gate.waiting != [] ==> s.gate.started && s.gate.leases > 0)
    && (forall c :: 0 <= c < |s.closers| && s.closers[c].AwaitingTakeovers? ==> c in s.gate.waiting || c in s.woken)
    && (forall c :: 0 <= c < |s.closers| && (s.closers[c].TakeoversSeen? || s.closers[c].Completing?) ==>
          s.gate.leases == 0)
  }

  ghost predicate Inv(s: Session) {
    Quiescence.Inv(s.world) && LocksOk(s) && StopOk(s) && RestOk(s) && LeasesOk(s)
  }

  // ---------------------------------------------------------------- preservation

  /** With admission shut, a graph that is at rest stays at rest. */
  lemma RestIsStable(w: World, act: Act)
    requires Quiescence.Inv(w) && Idle(w.tracker) && !w.tracker.open
    requires Enabled(w, act) && (act.OpenSpan? ==> w.running > 0)
    ensures Idle(Next(w, act).tracker) && !Next(w, act).tracker.open
  {
    forall j | 0 <= j < |w.jobs|
      ensures !w.jobs[j].span && !w.jobs[j].retained
    {
      SetHolds(w.jobs, j, w.jobs[j], w.jobs[j].node);
      assert CountOf(w.tracker, w.jobs[j].node) == TotalHolds(w.jobs, w.jobs[j].node);
    }
  }

  lemma HandedGrows(w: World, act: Act)
    requires Enabled(w, act)
    ensures w.handed <= Next(w, act).handed && Next(w, act).registered >= w.registered
    ensures !w.tracker.open ==> !Next(w, act).tracker.open
  {
  }

  lemma GraphKeepsRest(s: Session, act: Act)
    requires Inv(s) && Can(s, Graph(act))
    ensures RestOk(After(s, Graph(act)))
  {
    var s' := After(s, Graph(act));
    HandedGrows(s.world, act);
    forall c | 0 <= c < |s'.closers| && RestPromised(s', s'.closers[c])
      ensures AtRest(s')
    {
      if RestPromised(s, s.closers[c]) {
        RestIsStable(s.world, act);
      } else {
        HandedOnlyAtRest(s.world, act);
      }
    }
  }

  lemma AwaitKeepsRest(s: Session, c: CloserId)
    requires Inv(s) && Can(s, AwaitsRest(c))
    ensures RestOk(After(s, AwaitsRest(c)))
  {
    var s' := After(s, AwaitsRest(c));
    HandedGrows(s.world, Registers);
    forall k | 0 <= k < |s'.closers| && RestPromised(s', s'.closers[k])
      ensures AtRest(s')
    {
      if s'.world.handed != s.world.handed {
        HandedOnlyAtRest(s.world, Registers);
      } else if k == c {
        FreshNotHanded(s.world);
      } else {
        assert RestPromised(s, s.closers[k]);
      }
    }
  }

  lemma FreshNotHanded(w: World)
    requires Quiescence.Inv(w)
    ensures w.registered !in w.handed
  {
    assert multiset(w.tracker.deferred)[w.registered] + multiset(w.handed)[w.registered] == 0;
  }

  lemma StepKeepsWorld(s: Session, step: Step)
    requires Inv(s) && Can(s, step)
    ensures Quiescence.Inv(After(s, step).world)
  {
    match step
    case Graph(act) => NextKeepsInv(s.world, act);
    case StopEnds(c) => NextKeepsInv(s.world, AdmissionStops);
    case AwaitsRest(c) => NextKeepsInv(s.world, Registers);
    case _ =>
  }

  lemma StepKeepsLocks(s: Session, step: Step)
    requires LocksOk(s) && Can(s, step)
    ensures LocksOk(After(s, step))
  {
    if MovesCloser(step) {
      MoveKeepsLocks(s, After(s, step), step.c);
    }
  }

  /** A closer that takes or gives up a lock as its phase says leaves every other closer's locks alone. */
  lemma MoveKeepsLocks(s: Session, s': Session, c: CloserId)
    requires LocksOk(s) && c < |s.closers| == |s'.closers| && s'.closers == s.closers[c := s'.closers[c]]
    requires if s'.closers[c].Stopping? then s'.closeLock == Some(c) && (s.closeLock.None? || s.closeLock == Some(c))
             else s'.closeLock == if s.closers[c].Stopping? then None else s.closeLock
    requires if HoldsAsyncLock(s'.closers[c]) then s'.asyncLock == Some(c) && (s.asyncLock.None? || s.asyncLock == Some(c))
             else s'.asyncLock == if HoldsAsyncLock(s.closers[c]) then None else s.asyncLock
    requires s'.closeLock.Some? ==> s'.gate.started
    requires s'.asyncLock.Some? ==> !s'.closed
    requires s'.completions == if s'.closed then 1 else 0
    ensures LocksOk(s')
  {
  }

  /** A closer is past stopping only once admission is shut, and nothing opens it again. */
  lemma MoveKeepsStop(s: Session, s': Session, c: CloserId)
    requires StopOk(s) && c < |s.closers| == |s'.closers| && s'.closers == s.closers[c := s'.closers[c]]
    requires s.gate.started ==> s'.gate.started
    requires !s.world.tracker.open ==> !s'.world.tracker.open
    requires s'.gate.started && s'.closeLock.None? ==> !s'.world.tracker.open
    requires !s'.world.tracker.open ==> s'.gate.started
    requires PastStop(s'.closers[c]) ==> s'.gate.started && !s'.world.tracker.open
    ensures StopOk(s')
  {
    forall k | 0 <= k < |s'.closers| && PastStop(s'.closers[k])
      ensures s'.gate.started && !s'.world.tracker.open
    {
      assert k != c ==> s'.closers[k] == s.closers[k];
    }
  }

  lemma CloserStepKeepsStop(s: Session, step: Step)
    requires LocksOk(s) && StopOk(s) && Can(s, step) && MovesCloser(step)
    ensures StopOk(After(s, step))
  {
    MoveKeepsStop(s, After(s, step), step.c);
  }

  lemma StepKeepsStop(s: Session, step: Step)
    requires LocksOk(s) && StopOk(s) && Can(s, step)
    ensures StopOk(After(s, step))
  {
    if step.Graph? {
      HandedGrows(s.world, step.act);
    } else if MovesCloser(step) {
      CloserStepKeepsStop(s, step);
    }
  }

  lemma StepKeepsRest(s: Session, step: Step)
    requires Inv(s) && Can(s, step)
    ensures RestOk(After(s, step))
  {
    if step.Graph? {
      GraphKeepsRest(s, step.act);
    } else if step.AwaitsRest? {
      AwaitKeepsRest(s, step.c);
    } else if MovesCloser(step) {
      MoveKeepsRest(s, After(s, step), step.c);
    } else {
      OthersKeepRest(s, step);
    }
  }

  lemma OthersKeepRest(s: Session, step: Step)
    requires RestOk(s) && Can(s, step) && !MovesCloser(step) && !step.Graph?
    ensures RestOk(After(s, step))
  {
  }

  /** A closer may only come to rely on rest that was promised to it already. */
  lemma MoveKeepsRest(s: Session, s': Session, c: CloserId)
    requires RestOk(s) && c < |s.closers| == |s'.closers| && s'.closers == s.closers[c := s'.closers[c]]
    requires s'.world.handed == s.world.handed && s'.world.registered == s.world.registered
    requires AtRest(s) ==> AtRest(s')
    requires !s'.closers[c].AwaitingRest? && (RestPromised(s', s'.closers[c]) ==> RestPromised(s, s.closers[c]))
    ensures RestOk(s')
  {
  }

  lemma StepKeepsLeases(s: Session, step: Step)
    requires Inv(s) && Can(s, step)
    ensures LeasesOk(After(s, step))
  {
    if step.TakeoverEnds? {
      ReleaseServesWaiters(s);
    } else if step.AwaitsTakeovers? {
      assert PastStop(s.closers[step.c]);
      QueuedOrWoken(s, step.c);
    } else if MovesCloser(step) {
      MoveKeepsLeases(s, After(s, step), step.c);
    }
  }

  lemma ReleaseServesWaiters(s: Session)
    requires LeasesOk(s) && Can(s, TakeoverEnds)
    ensures LeasesOk(After(s, TakeoverEnds))
  {
  }

  lemma QueuedOrWoken(s: Session, c: CloserId)
    requires LeasesOk(s) && Can(s, AwaitsTakeovers(c)) && s.gate.started
    ensures LeasesOk(After(s, AwaitsTakeovers(c)))
  {
  }

  /** A closer may only rely on drained takeovers if it was woken or relied on them already. */
  lemma MoveKeepsLeases(s: Session, s': Session, c: CloserId)
    requires LeasesOk(s) && c < |s.closers| == |s'.closers| && s'.closers == s.closers[c := s'.closers[c]]
    requires s'.woken == s.woken && s'.leased == s.leased && s'.gate.leases == s.gate.leases && s'.gate.waiting == s.gate.waiting
    requires s.gate.started ==> s'.gate.started
    requires !s'.closers[c].AwaitingTakeovers?
    requires s'.closers[c].TakeoversSeen? ==> c in s.woken
    requires s'.closers[c].Completing? ==> s.closers[c].TakeoversSeen?
    ensures LeasesOk(s')
  {
  }

  lemma StepKeepsInv(s: Session, step: Step)
    requires Inv(s) && Can(s, step)
    ensures Inv(After(s, step))
  {
    StepKeepsWorld(s, step);
    StepKeepsLocks(s, step);
    StepKeepsStop(s, step);
    StepKeepsRest(s, step);
    StepKeepsLeases(s, step);
  }

  /** Every interleaving of turns, nodes, takeovers and closers keeps the closing invariant. */
  lemma {:induction false} RunKeepsInv(ss: seq<Session>, steps: seq<Step>, i: nat)
    requires IsRun(ss, steps) && i < |ss|
    ensures Inv(ss[i]) && ss[i].completions <= 1
  {
    if i > 0 {
      RunKeepsInv(ss, steps, i - 1);
      StepKeepsInv(ss[i - 1], steps[i - 1]);
    }
  }

  // ---------------------------------------------------------------- what closing promises

  /** What a step tells the turn or the takeover that takes it: whether it may go on. */
  function Told(s: Session, step: Step): Option<bool> {
    match step
    case Graph(TurnBegins) => Some(Begin(s.world.tracker).1)
    case TakeoverStarts => Some(Acquire(s.gate).1)
    case _ => None
  }

  /** A takeover is told it holds a lease exactly before the close has started, and is counted exactly if it was told so. */
  lemma TakeoverToldIffNotStarted(g: Gate)
    ensures Acquire(g).1 <==> !g.started
    ensures Acquire(g).0 == g.(leases := g.leases + if g.started then 0 else 1)
  {
  }

  /** Until a close starts, every turn and every takeover is told it may go on, and is counted. */
  lemma EverythingAdmittedBeforeClose(s: Session)
    requires Inv(s) && !s.gate.started
    ensures Told(s, Graph(TurnBegins)) == Some(true) && Told(s, TakeoverStarts) == Some(true)
    ensures After(s, Graph(TurnBegins)).world.running == s.world.running + 1
    ensures Can(s, TakeoverStarts) && After(s, TakeoverStarts).leased == s.leased + 1
  {
    TurnToldIffOpen(s.world.tracker);
    TakeoverToldIffNotStarted(s.gate);
  }

  /** Admission is shut, the close has started, and no more turns run or hold leases than these. */
  ghost predicate Shut(s: Session, running: nat, leased: nat) {
    Inv(s) && s.gate.started && !s.world.tracker.open && s.world.running <= running && s.leased <= leased
  }

  /** From then on no step is told it may go on, and it stays that way. */
  lemma ShutStays(s: Session, step: Step, running: nat, leased: nat)
    requires Shut(s, running, leased) && Can(s, step)
    ensures Told(s, step) != Some(true)
    ensures Shut(After(s, step), running, leased)
  {
    StepKeepsInv(s, step);
    TurnToldIffOpen(s.world.tracker);
    TakeoverToldIffNotStarted(s.gate);
    if step.Graph? {
      ShutTurnsRefused(s.world, step.act);
    }
  }

  lemma ShutTurnsRefused(w: World, act: Act)
    requires Enabled(w, act) && !w.tracker.open
    ensures Next(w, act).running <= w.running && !Next(w, act).tracker.open
  {
    HandedGrows(w, act);
  }

  lemma StopShuts(s: Session, c: CloserId)
    requires Inv(s) && c < |s.closers| && PastStop(s.closers[c])
    ensures Shut(s, s.world.running, s.leased)
  {
  }

  lemma {:induction false} ShutForGood(ss: seq<Session>, steps: seq<Step>, i: nat, k: nat, running: nat, leased: nat)
    requires IsRun(ss, steps) && i <= k < |ss| && Shut(ss[i], running, leased)
    ensures Shut(ss[k], running, leased)
  {
    if i < k {
      ShutForGood(ss, steps, i, k - 1, running, leased);
      ShutStays(ss[k - 1], steps[k - 1], running, leased);
    }
  }

  /**
   * Once any call to stop admission has returned, no later step of the run tells a turn it is admitted or a
   * takeover that it holds a lease, and those that were told so before only become fewer.
   */
  lemma NothingAdmittedAfterStop(ss: seq<Session>, steps: seq<Step>, i: nat, k: nat, c: CloserId)
    requires IsRun(ss, steps) && i <= k < |steps| && c < |ss[i].closers| && PastStop(ss[i].closers[c])
    ensures Told(ss[k], steps[k]) != Some(true)
    ensures ss[k].world.running <= ss[i].world.running && ss[k].leased <= ss[i].leased
  {
    var running, leased := ss[i].world.running, ss[i].leased;
    RunKeepsInv(ss, steps, i);
    StopShuts(ss[i], c);
    ShutForGood(ss, steps, i, k, running, leased);
    ShutStays(ss[k], steps[k], running, leased);
  }

  /** A completing closer has the session to itself: no turn, no node, no worker and no takeover. */
  lemma QuietAtCompletion(s: Session, c: CloserId)
    requires Inv(s) && At(s, c, Completing)
    ensures AtRest(s) && s.world.running == 0 && s.leased == 0 && s.gate.leases == 0 && s.gate.started && !s.closed
    ensures forall j :: 0 <= j < |s.world.jobs| ==> !s.world.jobs[j].working && !s.world.jobs[j].span
    ensures forall k :: 0 <= k < |s.closers| && k != c ==> !HoldsAsyncLock(s.closers[k])
  {
    assert RestPromised(s, s.closers[c]) && PastStop(s.closers[c]);
    forall j | 0 <= j < |s.world.jobs|
      ensures !s.world.jobs[j].span && !s.world.jobs[j].retained
    {
      SetHolds(s.world.jobs, j, s.world.jobs[j], s.world.jobs[j].node);
      assert CountOf(s.world.tracker, s.world.jobs[j].node) == TotalHolds(s.world.jobs, s.world.jobs[j].node);
    }
  }

  /** Nothing runs, nothing holds a lease, and nothing can start. */
  ghost predicate Quiet(s: Session) {
    && Inv(s) && AtRest(s) && s.gate.started
    && s.gate.leases == 0 && s.world.running == 0 && s.leased == 0
  }

  lemma QuietStep(s: Session, step: Step)
    requires Quiet(s) && Can(s, step)
    ensures Quiet(After(s, step))
  {
    StepKeepsInv(s, step);
    match step
    case Graph(act) => RestIsStable(s.world, act);
    case AwaitsRest(_) => RestIsStable(s.world, Registers);
    case _ =>
  }

  /** ... and it stays that way for the rest of the run, through failures and later closes too. */
  lemma {:induction false} QuietFromCompletionOn(ss: seq<Session>, steps: seq<Step>, i: nat, k: nat, c: CloserId)
    requires IsRun(ss, steps) && i <= k < |ss| && At(ss[i], c, Completing)
    ensures Quiet(ss[k])
  {
    if i == k {
      RunKeepsInv(ss, steps, k);
      QuietAtCompletion(ss[k], c);
    } else {
      QuietFromCompletionOn(ss, steps, i, k - 1, c);
      QuietStep(ss[k - 1], steps[k - 1]);
    }
  }

  function Completions(steps: seq<Step>): nat {
    if steps == [] then 0
    else Completions(steps[..|steps| - 1]) + if steps[|steps| - 1].Completes? then 1 else 0
  }

  /** Concurrent and repeated closes complete at most once in a whole run, and the closed mark says whether one did. */
  lemma {:induction false} CompletesAtMostOnce(ss: seq<Session>, steps: seq<Step>, k: nat)
    requires IsRun(ss, steps) && k <= |steps|
    ensures Completions(steps[..k]) == if ss[k].closed then 1 else 0
  {
    RunKeepsInv(ss, steps, k);
    CompletionsCounted(ss, steps, k);
  }

  lemma {:induction false} CompletionsCounted(ss: seq<Session>, steps: seq<Step>, k: nat)
    requires IsRun(ss, steps) && k <= |steps|
    ensures Completions(steps[..k]) == ss[k].completions
  {
    if k > 0 {
      CompletionsCounted(ss, steps, k - 1);
      CompletionsNext(steps, k - 1);
      StepCompletes(ss[k - 1], steps[k - 1]);
    }
  }

  lemma CompletionsNext(steps: seq<Step>, k: nat)
    requires k < |steps|
    ensures Completions(steps[..k + 1]) == Completions(steps[..k]) + if steps[k].Completes? then 1 else 0
  {
    assert steps[..k + 1][..k] == steps[..k];
  }

  lemma StepCompletes(s: Session, step: Step)
    requires Can(s, step)
    ensures After(s, step).completions == s.completions + if step.Completes? then 1 else 0
  {
  }

  /** No closer is stranded: once what it waits for is over, it can go on. */
  lemma WaitingCloserCanGoOn(s: Session, c: CloserId)
    requires Inv(s) && c < |s.closers|
    ensures s.closers[c].AwaitingRest? && Idle(s.world.tracker) ==> Can(s, SeesRest(c))
    ensures s.closers[c].AwaitingTakeovers? && s.gate.leases == 0 ==> Can(s, SeesTakeovers(c))
  {
    if s.closers[c].AwaitingRest? && Idle(s.world.tracker) {
      NothingStranded(s.world, s.closers[c].callback);
    }
  }
}
