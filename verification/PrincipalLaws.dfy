/**
 * Whatever fails while principals change, authority is never shared: the old, the new, or nobody. What a
 * torn-down principal may leave behind is stated exactly.
 */
module PrincipalLaws {
  import opened Results
  import opened Principals
  import V = Verification
  import Routing

  /** No caller authority, and no change of it under way. */
  ghost predicate NoPrincipal(c: Ctx) {
    c.identity.None? && c.granted == {} && c.pending.None?
  }

  /** Nor any caller state that a principal left behind. */
  ghost predicate Nobody(c: Ctx) {
    NoPrincipal(c) && c.ephemeral == EMPTY && c.retirement.None?
  }

  /** The new principal alone: no inherited state or grant, and nothing but its own proof is fresh or will be. */
  ghost predicate NewPrincipalAlone(c: Ctx, t: Transition, since: V.Time) {
    && c.identity == Some(t.identity) && c.granted == {} && c.ephemeral == EMPTY
    && c.retirement.None? && c.pending.None?
    && t.proof.id in c.proofs && c.proofs[t.proof.id] == t.proof
    && forall id, at: V.Time :: since <= at && id in c.proofs && V.Fresh(c.proofs[id], at) ==> id == t.proof.id
  }

  // ---------------------------------------------------------------- one operation

  /** Whether the commit of an invalidation empties the caller state. */
  predicate CommitEmpties(c: Ctx, f: Cleanup) {
    if c.pending.None? then f.finish.Fine? else c.retirement.None? && f.retire.Fine?
  }

  /** Exactly when an invalidation leaves no caller state: it was committed away, discarded, or not there. */
  predicate StateGoes(c: Ctx, f: Cleanup) {
    || CommitEmpties(c, f)
    || (&& (Writes(f.discard) >= 1 || c.ephemeral.cart == [])
        && (Writes(f.discard) >= 2 || c.ephemeral.recent == [])
        && (Writes(f.discard) >= 3 || c.ephemeral.guest == []))
  }

  /** Exactly when it leaves no retirement marker: it was discarded, finished, or never set. */
  predicate MarkerGoes(c: Ctx, f: Cleanup) {
    || Writes(f.discard) >= 4
    || (if c.pending.None? then c.retirement.None?
        else if c.retirement.None? then !f.retire.Fine? || f.finish.Fine?
        else c.retirement == Some(c.pending.value.id) && f.finish.Fine?)
  }

  /**
   * Wherever an invalidation raises or is cancelled, no principal is left. Caller state, retirement marker
   * and proofs are each gone exactly when their own condition holds; a call that returns leaves nothing.
   */
  lemma InvalidationLeavesNoPrincipal(c: Ctx, f: Cleanup)
    ensures var (c', fault) := Invalidate(c, f);
            && NoPrincipal(c')
            && (c'.ephemeral == EMPTY <==> StateGoes(c, f))
            && (c'.retirement.None? <==> MarkerGoes(c, f))
            && (Nobody(c') <==> StateGoes(c, f) && MarkerGoes(c, f))
            && c'.proofs == (if f.otp.Fine? then map[] else c.proofs)
            && (fault.Fine? ==> Nobody(c') && c'.proofs == map[])
  {
  }

  /**
   * Each of the three does survive, for every context that has it: the state and the marker when the commit
   * fails and the discard is cancelled before its first write, the proofs when the provider's cleanup raises.
   */
  lemma FailedCleanupLeavesRemains(c: Ctx)
    requires c.pending.Some? && c.retirement.Some?
    ensures var (c', fault) := Invalidate(c, Cleanup(Raises(false), Raises(false), Stopped(0, true), Raises(false)));
            && NoPrincipal(c') && fault == Raises(false)
            && c'.ephemeral == c.ephemeral && c'.retirement == c.retirement && c'.proofs == c.proofs
            && !Nobody(c')
  {
  }

  /** A transition either changes nothing, or publishes its marker before anything else can be seen changed. */
  lemma TransitionIsMarked(
      c: Ctx, who: Identity, proof: V.Proof, request: Routing.Request, id: TransitionId, now: V.Time, f: TransitionFaults)
    ensures var (c', r) := TransitionPrincipal(c, who, proof, request, id, now, f);
            && (r.Failure? && !r.error.Interrupted? ==> c' == c)
            && (c'.pending.None? ==> c' == c)
            && (c' != c ==> c'.pending == Some(Transition(id, who, proof, request)))
            // old authority is only ever seen with old state, new authority only with none of it
            && (c'.identity != c.identity ==> c'.ephemeral == EMPTY && c'.granted == {} && c'.retirement == Some(id))
            && (c'.identity == Some(who) && c.identity != Some(who) ==> c'.proofs == map[proof.id := proof])
  {
  }

  lemma CoherentStays(c: Ctx, t: Transition, now: V.Time, id: V.ChallengeId, at: V.Time)
    requires Coherent(c, t, now) && now <= at && id in c.proofs && V.Fresh(c.proofs[id], at)
    ensures id == t.proof.id
  {
    assert id in FreshProofs(c, now);
  }

  /** No rotation on record leads back to the thread it left. */
  ghost predicate MovesAway(a: Authority) {
    && (forall id :: id in a.switched ==> a.switched[id].source != a.switched[id].destination)
    && (forall id :: id in a.reserved ==> a.reserved[id].source != a.reserved[id].destination)
  }

  lemma ReserveKeepsPlace(e: Engine, id: TransitionId, revision: nat, unused: Thread, f: Fault)
    requires MovesAway(e.authority) && unused != e.authority.current
    ensures var e' := Reserve(e, id, revision, unused, f).0;
            && MovesAway(e'.authority) && e'.authority.switched == e.authority.switched
            && e' == e.(authority := e'.authority)
  {
  }

  /** The engine left its thread only by a switch on record for `id`, and no record of `id` changed. */
  ghost predicate Recorded(before: Engine, e: Engine, id: TransitionId) {
    && MovesAway(e.authority)
    && (id in before.authority.switched ==>
          id in e.authority.switched && e.authority.switched[id] == before.authority.switched[id])
    && (e.thread != before.thread ==> id in e.authority.switched && e.authority.switched[id].source == before.thread)
  }

  lemma TurnOverMoves(e: Engine, d: Thread, id: TransitionId, coherent: bool, f: RotationFaults)
    requires MovesAway(e.authority)
    ensures Recorded(e, TurnOver(e, d, id, coherent, f).e, id)
  {
  }

  /** A rotation moves the engine only by a switch recorded from where it stood, and records stay. */
  lemma RotationMoves(w: World, now: V.Time, later: V.Time, unused: Thread, f: RotationFaults)
    requires w.c.pending.Some? && MovesAway(w.e.authority) && unused != w.e.authority.current
    ensures Recorded(w.e, Rotate(w, now, later, unused, f).0.e, w.c.pending.value.id)
  {
    var t := w.c.pending.value;
    var (reserved, destination) := Reserve(w.e, t.id, w.c.revision, unused, f.begin);
    ReserveKeepsPlace(w.e, t.id, w.c.revision, unused, f.begin);
    if destination.Some? {
      TurnOverMoves(reserved, destination.value, t.id, Coherent(w.c, t, later), f);
    }
  }

  /** Whether this attempt gets as far as completing the transition, so that only recording it is left. */
  predicate Completes(w: World, now: V.Time, later: V.Time, unused: Thread, f: RotationFaults)
    requires w.c.pending.Some?
  {
    var t := w.c.pending.value;
    var (reserved, destination) := Reserve(w.e, t.id, w.c.revision, unused, f.begin);
    && f.read.Fine? && !w.e.terminal && Coherent(w.c, t, now) && destination.Some?
    && TurnOver(reserved, destination.value, t.id, Coherent(w.c, t, later), f).Reached?
    && w.c.retirement == Some(t.id) && f.complete.Fine?
  }

  /** The context a rotation that fails tears down. */
  function TornFrom(w: World, now: V.Time, later: V.Time, unused: Thread, f: RotationFaults): Ctx
    requires w.c.pending.Some?
  {
    if Completes(w, now, later, unused, f) then CompleteTransition(w.c, w.c.pending.value.id, f.complete).0 else w.c
  }

  /** No principal, and nothing of one except what the failed cleanup is known to leave. */
  ghost predicate TornDown(c: Ctx, f: Cleanup, c': Ctx) {
    NoPrincipal(c') && c' == Invalidate(c, f).0 && (Nobody(c') <==> StateGoes(c, f) && MarkerGoes(c, f))
  }

  /** From a coherent transition, completing it leaves the new principal alone, or what its failure leaves. */
  lemma ConcludeLeaves(w: World, t: Transition, later: V.Time, f: RotationFaults)
    requires w.c.pending == Some(t) && Coherent(w.c, t, later)
    ensures var (w', r) := Conclude(w, t, f);
            var completes := w.c.retirement == Some(t.id) && f.complete.Fine?;
            var from := if completes then CompleteTransition(w.c, t.id, f.complete).0 else w.c;
            || (w'.c == w.c && r.WasCancelled?)
            || TornDown(from, f.cleanup, w'.c)
            || NewPrincipalAlone(w'.c, t, later)
    ensures Conclude(w, t, f).1.RotatedTo? ==> NewPrincipalAlone(Conclude(w, t, f).0.c, t, later)
  {
    forall id, at: V.Time | later <= at && id in w.c.proofs && V.Fresh(w.c.proofs[id], at)
      ensures id == t.proof.id
    {
      CoherentStays(w.c, t, later, id, at);
    }
    InvalidationLeavesNoPrincipal(w.c, f.cleanup);
    InvalidationLeavesNoPrincipal(CompleteTransition(w.c, t.id, f.complete).0, f.cleanup);
  }

  lemma TurnOverIsCoherent(e: Engine, d: Thread, id: TransitionId, coherent: bool, f: RotationFaults)
    requires TurnOver(e, d, id, coherent, f).Reached?
    ensures coherent
  {
  }

  /** Whose authority a rotation attempt leaves: what it found, no principal's, or the new principal's alone. */
  lemma RotationLeaves(w: World, now: V.Time, later: V.Time, unused: Thread, f: RotationFaults)
    requires w.c.pending.Some?
    ensures var t := w.c.pending.value;
            var (w', r) := Rotate(w, now, later, unused, f);
            || (w'.c == w.c && (r.WasCancelled? || r.Raised?))
            || TornDown(TornFrom(w, now, later, unused, f), f.cleanup, w'.c)
            || NewPrincipalAlone(w'.c, t, later)
    ensures Rotate(w, now, later, unused, f).1.RotatedTo? ==>
              NewPrincipalAlone(Rotate(w, now, later, unused, f).0.c, w.c.pending.value, later)
  {
    var t := w.c.pending.value;
    InvalidationLeavesNoPrincipal(w.c, f.cleanup);
    var (reserved, destination) := Reserve(w.e, t.id, w.c.revision, unused, f.begin);
    if destination.Some? {
      var stage := TurnOver(reserved, destination.value, t.id, Coherent(w.c, t, later), f);
      if stage.Reached? {
        TurnOverIsCoherent(reserved, destination.value, t.id, Coherent(w.c, t, later), f);
        ConcludeLeaves(World(w.c, stage.e), t, later, f);
      }
    }
  }

  /** A seed abandoned by a failing rotation stays exactly when a cancellation skipped the cleanup, the invalidation failed, or the drop did. */
  lemma AbandonedSeedStaysIff(w: World, fault: Fault, f: RotationFaults, seed: Thread)
    requires seed in w.e.live
    ensures seed in Leave(w, fault, f, Some(seed)).0.e.live
            <==> fault.Cancelled? || !Invalidate(w.c, f.cleanup).1.Fine? || !Acted(f.drop)
  {
  }

  /** A failure after completion tears down a context that is already empty, so nothing can be left. */
  lemma CompletedLeavesNothing(w: World, now: V.Time, later: V.Time, unused: Thread, f: RotationFaults)
    requires w.c.pending.Some? && Completes(w, now, later, unused, f) && !f.update.Fine? && !f.update.Cancelled?
    ensures Nobody(Rotate(w, now, later, unused, f).0.c)
  {
  }

  /** Once the marker is gone with a principal left, the engine stands on the destination and its source is deleted. */
  lemma RotationThreads(w: World, now: V.Time, later: V.Time, unused: Thread, f: RotationFaults)
    requires w.c.pending.Some? && MovesAway(w.e.authority) && unused != w.e.authority.current
    ensures var w' := Rotate(w, now, later, unused, f).0;
            w'.c.pending.None? && w'.c.identity.Some? ==>
              && w'.e.thread != w.e.thread && w.e.thread !in w'.e.live && w'.e.thread in w'.e.live
  {
  }

  /**
   * From any state with a transition pending, however it was reached and wherever this attempt fails:
   * the marker is still there, or no principal is left, or the new principal is installed alone, the engine
   * is on the destination thread and the thread it came from is deleted.
   */
  lemma RotationOutcome(w: World, now: V.Time, later: V.Time, unused: Thread, f: RotationFaults)
    requires w.c.pending.Some? && MovesAway(w.e.authority) && unused != w.e.authority.current
    ensures var t := w.c.pending.value;
            var w' := Rotate(w, now, later, unused, f).0;
            || w'.c == w.c
            || TornDown(TornFrom(w, now, later, unused, f), f.cleanup, w'.c)
            || (NewPrincipalAlone(w'.c, t, later)
                && w'.e.thread != w.e.thread && w.e.thread !in w'.e.live && w'.e.thread in w'.e.live)
  {
    RotationLeaves(w, now, later, unused, f);
    RotationThreads(w, now, later, unused, f);
  }

  // ---------------------------------------------------------------- whole runs

  datatype Op =
    | Begin(who: Identity, proof: V.Proof, request: Routing.Request, id: TransitionId, at: V.Time, faults: TransitionFaults)
    | Rotation(now: V.Time, later: V.Time, unused: Thread, f: RotationFaults)
    // the second invalidation runs if the first raises; the terminal mark may fail to be written
    | LastResort(first: Cleanup, second: Cleanup, marked: bool)
    // recovery's own teardown of a transition it finds incoherent or mismatched
    | Reconcile(cleanup: Cleanup, marked: bool)
    // anything the session's other work may do to caller state meanwhile, short of rebinding it
    | Work(ephemeral: Ephemeral, granted: set<string>, proofs: map<V.ChallengeId, V.Proof>)

  /** Ids are drawn fresh, and an allocated thread is not the one in use. */
  predicate Can(w: World, op: Op) {
    match op
    case Begin(_, _, _, id, _, _) => id !in w.e.authority.switched && id !in w.e.authority.reserved
    case Rotation(now, later, unused, _) => unused != w.e.thread && unused != w.e.authority.current && now <= later
    case _ => true
  }

  function Do(w: World, op: Op): World {
    match op
    case Begin(who, proof, request, id, at, faults) =>
      World(TransitionPrincipal(w.c, who, proof, request, id, at, faults).0, w.e)
    case Rotation(now, later, unused, f) => Rotate(w, now, later, unused, f).0
    case LastResort(first, second, marked) =>
      if w.c.pending.None? then World(w.c, w.e.(terminal := w.e.terminal || marked))
      else
        var (c, fault) := Invalidate(w.c, first);
        World(if fault.Raises? then Invalidate(c, second).0 else c,
              w.e.(terminal := w.e.terminal || (marked && !Escapes(fault, c, second))))
    case Reconcile(cleanup, marked) =>
      if w.c.pending.None? then w
      else World(Invalidate(w.c, cleanup).0, w.e.(terminal := w.e.terminal || marked))
    case Work(ephemeral, granted, proofs) =>
      World(w.c.(ephemeral := ephemeral, granted := granted, proofs := proofs), w.e)
  }

  /** A cancellation inside the last resort escapes it, before the terminal mark is written. */
  predicate Escapes(first: Fault, c: Ctx, second: Cleanup) {
    first.Cancelled? || (first.Raises? && Invalidate(c, second).1.Cancelled?)
  }

  ghost predicate IsRun(ws: seq<World>, ops: seq<Op>) {
    && |ws| == |ops| + 1
    && forall i :: 0 <= i < |ops| ==> Can(ws[i], ops[i]) && ws[i + 1] == Do(ws[i], ops[i])
  }

  /** A transition is under way from `home`: the engine has left it only for a switch away from it. */
  ghost predicate UnderWay(w: World, t: Transition, home: Thread) {
    && w.c.pending == Some(t)
    && (w.e.thread != home ==> t.id in w.e.authority.switched && w.e.authority.switched[t.id].source == home)
    && MovesAway(w.e.authority)
  }

  /** The new principal alone, on a new thread, with the old principal's thread deleted. */
  ghost predicate Handed(w: World, t: Transition, home: Thread, since: V.Time) {
    NewPrincipalAlone(w.c, t, since) && w.e.thread != home && home !in w.e.live && w.e.thread in w.e.live
  }

  /** The teardown a step ends in, if it tears anything down: the context it starts from and its faults. */
  function Teardown(w: World, op: Op): (Ctx, Cleanup)
    requires w.c.pending.Some?
  {
    match op
    case Rotation(now, later, unused, f) => (TornFrom(w, now, later, unused, f), f.cleanup)
    case LastResort(first, second, _) =>
      var (c, fault) := Invalidate(w.c, first);
      if fault.Raises? then (c, second) else (w.c, first)
    case Reconcile(cleanup, _) => (w.c, cleanup)
    case _ => (w.c, Cleanup(Fine, Fine, Wholly, Fine))
  }

  /**
   * The step `op` from `w` ended the transition: the session is handed over, or it has no principal and
   * keeps some state of one exactly when this step's own teardown failed to remove it.
   */
  ghost predicate Settled(w: World, op: Op, w': World, t: Transition, home: Thread)
    requires w.c.pending.Some?
  {
    || TornDown(Teardown(w, op).0, Teardown(w, op).1, w'.c)
    || exists since: V.Time :: Handed(w', t, home, since)
  }

  lemma RotationKeepsUnderWay(w: World, t: Transition, home: Thread, op: Op)
    requires UnderWay(w, t, home) && Can(w, op) && op.Rotation?
    ensures UnderWay(Do(w, op), t, home) || Settled(w, op, Do(w, op), t, home)
  {
    RotationOutcome(w, op.now, op.later, op.unused, op.f);
    RotationMoves(w, op.now, op.later, op.unused, op.f);
    var w' := Do(w, op);
    if w'.c.pending.None? && !NoPrincipal(w'.c) {
      assert Handed(w', t, w.e.thread, op.later);
    }
  }

  lemma StepKeepsUnderWay(w: World, t: Transition, home: Thread, op: Op)
    requires UnderWay(w, t, home) && Can(w, op)
    ensures UnderWay(Do(w, op), t, home) || Settled(w, op, Do(w, op), t, home)
  {
    match op
    case Rotation(_, _, _, _) => RotationKeepsUnderWay(w, t, home, op);
    case Begin(who, proof, request, id, at, faults) => TransitionIsMarked(w.c, who, proof, request, id, at, faults);
    case LastResort(first, second, _) =>
      InvalidationLeavesNoPrincipal(w.c, first);
      InvalidationLeavesNoPrincipal(Invalidate(w.c, first).0, second);
    case Reconcile(cleanup, _) => InvalidationLeavesNoPrincipal(w.c, cleanup);
    case Work(_, _, _) =>
  }

  /**
   * A whole change of principal, from the call that published its marker, through any failures,
   * cancellations, retried rotations, last resorts and other work in between: at the first moment no
   * marker is pending, the session is handed over completely, or it has no principal and keeps some state
   * of one exactly when the step that ended the change failed to remove it.
   */
  lemma {:induction false} TransitionSettles(ws: seq<World>, ops: seq<Op>, k: nat)
    requires IsRun(ws, ops) && 1 <= k < |ws| && ops[0].Begin?
    requires ws[0].c.pending.None? && MovesAway(ws[0].e.authority)
    requires forall i :: 1 <= i < k ==> ws[i].c.pending.Some?
    ensures ws[1].c.pending.None? ==> ws[1] == ws[0]
    ensures ws[1].c.pending.Some? ==>
              var t := ws[1].c.pending.value;
              || UnderWay(ws[k], t, ws[0].e.thread)
              || (k > 1 && Settled(ws[k - 1], ops[k - 1], ws[k], t, ws[0].e.thread))
  {
    var op := ops[0];
    TransitionIsMarked(ws[0].c, op.who, op.proof, op.request, op.id, op.at, op.faults);
    if k > 1 {
      TransitionSettles(ws, ops, k - 1);
      if UnderWay(ws[k - 1], ws[1].c.pending.value, ws[0].e.thread) {
        StepKeepsUnderWay(ws[k - 1], ws[1].c.pending.value, ws[0].e.thread, ops[k - 1]);
      }
    }
  }

  /** If nothing fails and nothing else interferes, the change does go through. */
  lemma CleanTransitionHandsOver(
      w: World, who: Identity, proof: V.Proof, request: Routing.Request, id: TransitionId, at: V.Time,
      now: V.Time, later: V.Time, unused: Thread, f: RotationFaults)
    requires w.c.pending.None? && !w.e.terminal && w.e.authority.current == w.e.thread && w.e.authority.reserved == map[]
    requires id !in w.e.authority.switched && unused != w.e.thread && MovesAway(w.e.authority)
    requires w.c.identity.Some? ==> w.c.identity.value.customer != who.customer
    requires proof.subject.customer == who.customer && proof.subject.purpose.ForIdentity? && Allowlisted(request)
    requires proof.id in w.c.proofs && w.c.proofs[proof.id] == proof
    requires at <= now <= later < proof.until
    requires f.read.Fine? && f.begin.Fine? && f.seed.Fine? && f.recheck.Fine? && f.turnover.Fine? && f.delete.Fine?
    requires f.recordDeletion.Fine? && f.complete.Fine? && f.update.Fine?
    ensures var (c, r) := TransitionPrincipal(w.c, who, proof, request, id, at, TransitionFaults(Fine, Fine, Fine));
            r.Success? && Rotate(World(c, w.e), now, later, unused, f).1 == RotatedTo(r.value)
            && Handed(Rotate(World(c, w.e), now, later, unused, f).0, r.value, w.e.thread, later)
  {
    var (c, r) := TransitionPrincipal(w.c, who, proof, request, id, at, TransitionFaults(Fine, Fine, Fine));
    var t := Transition(id, who, proof, request);
    assert r == Success(t) && c.pending == Some(t);
    assert FreshProofs(c, now) == {proof.id} && FreshProofs(c, later) == {proof.id};
    RotationOutcome(World(c, w.e), now, later, unused, f);
  }
}
