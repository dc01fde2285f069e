/**
 * What the caller of a principal change is told, and when: every answer of a transition and of a rotation,
 * stated on the fields it is decided by and on the faults it meets.
 */
module PrincipalAnswers {
  import opened Results
  import opened Principals
  import opened PrincipalLaws
  import V = Verification
  import Routing

  // ---------------------------------------------------------------- a transition

  /** The requests that may ask for a change of principal, kind by kind. */
  lemma AllowlistedIff(r: Routing.Request)
    ensures Allowlisted(r) <==>
            match r
            case SwitchAccount => true
            case VerifyIdentity => true
            case ChangeProfile(_, _) => true
            case ListOrders(scope) => scope == Routing.AccountOrders
            case CancelOrders(t) => t.Some? && !t.value.Focused? && !t.value.Recent?
            case RefundOrder(t, _, _) => t.Some? && t.value.ExplicitSet?
            case ReturnOrder(t) => t.Some? && t.value.ExplicitSet?
            case _ => false
  {
  }

  /** The caller holds, unexpired, the very proof that was shown. */
  predicate Shown(c: Ctx, proof: V.Proof, now: V.Time) {
    proof.id in c.proofs && c.proofs[proof.id] == proof && now < proof.until
  }

  /**
   * A transition succeeds exactly for another customer, on an unexpired identity proof of that customer that
   * this session earned, for a request that may ask for it, with none pending and nothing failing; each
   * refusal is told apart.
   */
  lemma TransitionAnswers(
      c: Ctx, who: Identity, proof: V.Proof, request: Routing.Request, id: TransitionId, now: V.Time, f: TransitionFaults)
    ensures var r := TransitionPrincipal(c, who, proof, request, id, now, f).1;
            var same := c.identity.Some? && c.identity.value.customer == who.customer;
            var valid := proof.subject.customer == who.customer && proof.subject.purpose == V.ForIdentity && Allowlisted(request);
            && (r == Failure(SameCustomer) <==> same)
            && (r == Failure(InvalidTransition) <==> !same && !valid)
            && (r == Failure(AlreadyPending) <==> !same && valid && c.pending.Some?)
            && (r.Success? <==>
                  && !same && valid && c.pending.None? && Shown(c, proof, now)
                  && f.retire == Fine && f.retain == Fine && f.record == Fine)
            && (r.Success? ==> r.value == Transition(id, who, proof, request))
  {
  }

  /** What a transition leaves: everything bound anew, or the marker alone over what its first failure stopped at. */
  lemma TransitionLeaves(
      c: Ctx, who: Identity, proof: V.Proof, request: Routing.Request, id: TransitionId, now: V.Time, f: TransitionFaults)
    ensures var (c', r) := TransitionPrincipal(c, who, proof, request, id, now, f);
            var marker := Some(Transition(id, who, proof, request));
            && (r.Failure? && r.error != Interrupted ==> c' == c)
            && (r == Failure(Interrupted) && f.retire != Fine ==> c' == c.(pending := marker))
            && (r == Failure(Interrupted) && f.retire == Fine && (f.retain != Fine || !Shown(c, proof, now)) ==>
                  c' == Ctx(None, {}, c.proofs, EMPTY, Some(id), c.revision + 1, marker))
            && (r.Success? || (r == Failure(Interrupted) && f.retire == Fine && f.retain == Fine && Shown(c, proof, now)) ==>
                  c' == Ctx(Some(who), {}, map[proof.id := proof], EMPTY, Some(id), c.revision + 1, marker))
  {
  }

  /** An inspection calls a transition coherent exactly when its own principal, and only it, is in place. */
  lemma InspectionIff(c: Ctx, now: V.Time)
    ensures Inspect(c, now) == NoTransition <==> c.pending.None?
    ensures Inspect(c, now).IsCoherent? <==> c.pending.Some? && InPlace(c, c.pending.value, now)
    ensures c.pending.Some? ==> Inspect(c, now) == IsCoherent(c.pending.value) || Inspect(c, now) == IsInconsistent(c.pending.value)
  {
    if c.pending.Some? {
      CoherentIff(c, c.pending.value, now);
    }
  }

  /** The transition's own identity and fresh proof, no other fresh proof, no granted order, no caller state. */
  ghost predicate InPlace(c: Ctx, t: Transition, now: V.Time) {
    && c.identity == Some(t.identity) && c.granted == {}
    && c.ephemeral.cart == [] && c.ephemeral.recent == [] && c.ephemeral.guest == []
    && Shown(c, t.proof, now)
    && forall id :: id in c.proofs && now < c.proofs[id].until ==> id == t.proof.id
  }

  lemma CoherentIff(c: Ctx, t: Transition, now: V.Time)
    ensures Coherent(c, t, now) <==> InPlace(c, t, now)
  {
    assert forall id :: id in FreshProofs(c, now) <==> id in c.proofs && now < c.proofs[id].until;
    if Coherent(c, t, now) {
      assert t.proof.id in FreshProofs(c, now);
    }
    if InPlace(c, t, now) {
      assert FreshProofs(c, now) == {t.proof.id};
    }
  }

  // ---------------------------------------------------------------- the authority over threads

  /** The allocation refuses a changed revision of a known change, and a second change while one is open. */
  predicate AllocationRefused(a: Authority, id: TransitionId, revision: nat) {
    if id in a.switched then a.switched[id].revision != revision
    else if id in a.reserved then a.reserved[id].revision != revision
    else a.reserved != map[]
  }

  function DestinationOf(a: Authority, id: TransitionId, unused: Thread): Thread {
    if id in a.switched then a.switched[id].destination
    else if id in a.reserved then a.reserved[id].destination
    else unused
  }

  function SourceOf(a: Authority, id: TransitionId): Thread {
    if id in a.switched then a.switched[id].source
    else if id in a.reserved then a.reserved[id].source
    else a.current
  }

  /** An allocation that is not refused names the same destination however often it is asked for. */
  lemma AllocationAnswers(a: Authority, id: TransitionId, revision: nat, unused: Thread, again: Thread)
    ensures var (a', d) := BeginRotation(a, id, revision, unused);
            && d == (if AllocationRefused(a, id, revision) then None else Some(DestinationOf(a, id, unused)))
            && (AllocationRefused(a, id, revision) ==> a' == a)
            && (d.Some? ==> BeginRotation(a', id, revision, again) == (a', d))
            && a'.current == a.current && a'.switched == a.switched && SourceOf(a', id) == SourceOf(a, id)
  {
  }

  /** A switch happens once, to the destination that was allocated; asking again names the same move. */
  lemma SwitchAnswers(a: Authority, id: TransitionId, revision: nat, unused: Thread)
    requires !AllocationRefused(a, id, revision)
    ensures var a1 := BeginRotation(a, id, revision, unused).0;
            var (a2, m) := SwitchGeneration(a1, id);
            && m.Some? && m.value.source == SourceOf(a, id) && m.value.destination == DestinationOf(a, id, unused)
            && SwitchGeneration(a2, id) == (a2, m)
            && (id !in a.switched ==> a2.current == m.value.destination && id !in a2.reserved)
  {
  }

  // ---------------------------------------------------------------- a rotation

  /** The guarded part begins: nothing failed before it, and the transition was found in place in a live session. */
  predicate Guarded(w: World, t: Transition, now: V.Time, f: RotationFaults) {
    && f.read == Fine && !w.e.terminal && Coherent(w.c, t, now)
    && f.begin == Fine && !AllocationRefused(w.e.authority, t.id, w.c.revision)
  }

  /** The first thing to go wrong in the guarded part, up to completing the transition. */
  function FirstFault(w: World, t: Transition, later: V.Time, f: RotationFaults): Fault {
    if f.seed != Fine then f.seed
    else if f.recheck != Fine then f.recheck
    else if !Coherent(w.c, t, later) then Raises(false)
    else if f.turnover != Fine then f.turnover
    else if SourceOf(w.e.authority, t.id) != w.e.thread then Raises(false)
    else if f.delete != Fine then f.delete
    else if f.recordDeletion != Fine then f.recordDeletion
    else if w.c.retirement != Some(t.id) then Raises(false)
    else f.complete
  }

  /** The fault strikes before the engine has moved, so the new thread is an abandoned seed. */
  predicate BeforeTheMove(w: World, t: Transition, later: V.Time, f: RotationFaults) {
    f.seed != Fine || f.recheck != Fine || !Coherent(w.c, t, later) || f.turnover != Fine
    || SourceOf(w.e.authority, t.id) != w.e.thread
  }

  /** What comes out of a teardown in the guarded part: a failing drop of the seed is swallowed, a cancelled one is not. */
  function GuardedAnswer(w: World, t: Transition, later: V.Time, f: RotationFaults): Rotated {
    if Invalidate(w.c, f.cleanup).1 == Fine && BeforeTheMove(w, t, later, f) && f.drop.Cancelled? then WasCancelled
    else Answer(w.c, f)
  }

  /** Exactly when an attempt leaves the transition standing as it found it. */
  predicate LeavesStanding(w: World, t: Transition, now: V.Time, later: V.Time, f: RotationFaults) {
    || f.read != Fine
    || (!w.e.terminal && Coherent(w.c, t, now)
        && (f.begin != Fine || AllocationRefused(w.e.authority, t.id, w.c.revision)))
    || (Guarded(w, t, now, f) && FirstFault(w, t, later, f).Cancelled?)
  }

  /** Exactly when an attempt gets as far as completing the transition. */
  predicate Finishes(w: World, t: Transition, now: V.Time, later: V.Time, f: RotationFaults) {
    Guarded(w, t, now, f) && FirstFault(w, t, later, f) == Fine
  }

  lemma ReserveAnswers(e: Engine, id: TransitionId, revision: nat, unused: Thread, f: Fault)
    ensures var (e', d) := Reserve(e, id, revision, unused, f);
            && (d.Some? <==> f == Fine && !AllocationRefused(e.authority, id, revision))
            && (d.Some? ==> d.value == DestinationOf(e.authority, id, unused)
                            && e' == e.(authority := BeginRotation(e.authority, id, revision, unused).0))
  {
  }

  /** How far the guarded part gets, read off its faults in order. */
  lemma TurnOverAnswers(e: Engine, id: TransitionId, revision: nat, unused: Thread, coherent: bool, f: RotationFaults)
    requires !AllocationRefused(e.authority, id, revision)
    ensures var d := DestinationOf(e.authority, id, unused);
            var stage := TurnOver(e.(authority := BeginRotation(e.authority, id, revision, unused).0), d, id, coherent, f);
            var fault :=
              if f.seed != Fine then f.seed else if f.recheck != Fine then f.recheck else if !coherent then Raises(false)
              else if f.turnover != Fine then f.turnover
              else if SourceOf(e.authority, id) != e.thread then Raises(false)
              else if f.delete != Fine then f.delete else f.recordDeletion;
            var moved := f.seed == Fine && f.recheck == Fine && coherent && f.turnover == Fine
                         && SourceOf(e.authority, id) == e.thread;
            if fault == Fine then stage.Reached?
            else stage.Halted? && stage.fault == fault && stage.seed == if moved then None else Some(d)
  {
    SwitchAnswers(e.authority, id, revision, unused);
  }

  /** The end of the guarded part, for a transition that is still pending. */
  lemma ConcludeAnswers(w: World, t: Transition, f: RotationFaults)
    requires w.c.pending == Some(t)
    ensures var (w', r) := Conclude(w, t, f);
            var fault := if w.c.retirement != Some(t.id) then Raises(false) else f.complete;
            && w'.e == w.e
            && (fault.Cancelled? ==> w'.c == w.c && r == WasCancelled)
            && (fault.Raises? ==> w'.c == Invalidate(w.c, f.cleanup).0 && r == Answer(w.c, f))
            && (fault == Fine ==>
                  var done := w.c.(retirement := None, revision := w.c.revision + 1, pending := None);
                  if f.update.Raises? then w'.c == Invalidate(done, f.cleanup).0 && r == Answer(done, f)
                  else w'.c == done && r == if f.update == Fine then RotatedTo(t) else WasCancelled)
  {
  }

  /** What comes out of a teardown where no seed is left to drop. */
  function Answer(c: Ctx, f: RotationFaults): Rotated {
    if Invalidate(c, f.cleanup).1.Cancelled? then WasCancelled else Raised
  }

  /** The outcome of a rotation, case by case. */
  lemma RotationAnswers(w: World, now: V.Time, later: V.Time, unused: Thread, f: RotationFaults)
    requires w.c.pending.Some?
    ensures var t := w.c.pending.value;
            var (w', r) := Rotate(w, now, later, unused, f);
            var torn := Invalidate(w.c, f.cleanup);
            // the checkpoint could not be read
            && (f.read != Fine ==> w' == w && r == if f.read.Cancelled? then WasCancelled else Raised)
            // automation has ended
            && (f.read == Fine && w.e.terminal ==>
                  w' == World(torn.0, w.e) && r == if torn.1 == Fine then Ended else Answer(w.c, f))
            // the transition is not in place
            && (f.read == Fine && !w.e.terminal && !Coherent(w.c, t, now) ==>
                  w' == World(torn.0, w.e) && r == Answer(w.c, f))
            // no destination could be allocated
            && (f.read == Fine && !w.e.terminal && Coherent(w.c, t, now) && !Guarded(w, t, now, f) ==>
                  w'.c == w.c && w'.e.thread == w.e.thread && r == if f.begin.Cancelled? then WasCancelled else Raised)
            // the guarded part was cancelled, failed, or completed the transition
            && (Guarded(w, t, now, f) && FirstFault(w, t, later, f).Cancelled? ==> w'.c == w.c && r == WasCancelled)
            && (Guarded(w, t, now, f) && FirstFault(w, t, later, f).Raises? ==>
                  w'.c == torn.0 && r == GuardedAnswer(w, t, later, f))
            && (Finishes(w, t, now, later, f) ==>
                  var done := w.c.(retirement := None, revision := w.c.revision + 1, pending := None);
                  if f.update.Raises? then w'.c == Invalidate(done, f.cleanup).0 && r == Answer(done, f)
                  else w'.c == done && r == if f.update == Fine then RotatedTo(t) else WasCancelled)
  {
    var t := w.c.pending.value;
    ReserveAnswers(w.e, t.id, w.c.revision, unused, f.begin);
    if Guarded(w, t, now, f) {
      GuardedAnswers(w, now, later, unused, f);
    }
  }

  lemma GuardedAnswers(w: World, now: V.Time, later: V.Time, unused: Thread, f: RotationFaults)
    requires w.c.pending.Some? && Guarded(w, w.c.pending.value, now, f)
    ensures var t := w.c.pending.value;
            var (w', r) := Rotate(w, now, later, unused, f);
            var fault := FirstFault(w, t, later, f);
            && (fault.Cancelled? ==> w'.c == w.c && r == WasCancelled)
            && (fault.Raises? ==> w'.c == Invalidate(w.c, f.cleanup).0 && r == GuardedAnswer(w, t, later, f))
            && (fault == Fine ==>
                  var done := w.c.(retirement := None, revision := w.c.revision + 1, pending := None);
                  if f.update.Raises? then w'.c == Invalidate(done, f.cleanup).0 && r == Answer(done, f)
                  else w'.c == done && r == if f.update == Fine then RotatedTo(t) else WasCancelled)
  {
    var t := w.c.pending.value;
    ReserveAnswers(w.e, t.id, w.c.revision, unused, f.begin);
    TurnOverAnswers(w.e, t.id, w.c.revision, unused, Coherent(w.c, t, later), f);
    var (reserved, destination) := Reserve(w.e, t.id, w.c.revision, unused, f.begin);
    var stage := TurnOver(reserved, destination.value, t.id, Coherent(w.c, t, later), f);
    if stage.Reached? {
      ConcludeAnswers(World(w.c, stage.e), t, f);
    }
  }

  /**
   * A rotation leaves a pending transition standing exactly in the cases named above, completes it exactly
   * when nothing goes wrong before, and in every other case tears it down.
   */
  lemma StandingIff(w: World, now: V.Time, later: V.Time, unused: Thread, f: RotationFaults)
    requires w.c.pending.Some?
    ensures var t := w.c.pending.value;
            var (w', r) := Rotate(w, now, later, unused, f);
            && (w'.c.pending.Some? <==> LeavesStanding(w, t, now, later, f))
            && (w'.c == w.c <==> LeavesStanding(w, t, now, later, f))
            && (r.RotatedTo? <==> Finishes(w, t, now, later, f) && f.update == Fine)
            && (!LeavesStanding(w, t, now, later, f) && !Finishes(w, t, now, later, f) ==> TornDown(w.c, f.cleanup, w'.c))
            && (Finishes(w, t, now, later, f) && !f.update.Raises? ==> NewPrincipalAlone(w'.c, t, later))
  {
    RotationAnswers(w, now, later, unused, f);
    InvalidationLeavesNoPrincipal(w.c, f.cleanup);
    var t := w.c.pending.value;
    if Finishes(w, t, now, later, f) {
      FinishedIsAlone(w.c, t, later);
    }
  }

  /** Getting as far as completing the transition is exactly that nothing went wrong before. */
  lemma CompletesIff(w: World, now: V.Time, later: V.Time, unused: Thread, f: RotationFaults)
    requires w.c.pending.Some?
    ensures Completes(w, now, later, unused, f) <==> Finishes(w, w.c.pending.value, now, later, f)
  {
    var t := w.c.pending.value;
    ReserveAnswers(w.e, t.id, w.c.revision, unused, f.begin);
    if !AllocationRefused(w.e.authority, t.id, w.c.revision) {
      TurnOverAnswers(w.e, t.id, w.c.revision, unused, Coherent(w.c, t, later), f);
    }
  }

  lemma FinishedIsAlone(c: Ctx, t: Transition, later: V.Time)
    requires Coherent(c, t, later)
    ensures NewPrincipalAlone(c.(retirement := None, revision := c.revision + 1, pending := None), t, later)
  {
    forall id, at: V.Time | later <= at && id in c.proofs && V.Fresh(c.proofs[id], at)
      ensures id == t.proof.id
    {
      CoherentStays(c, t, later, id, at);
    }
  }

  /** A completion clears the marker exactly when it is this transition's and its own retirement can be finished. */
  lemma CompletionAnswers(c: Ctx, id: TransitionId, f: Fault)
    ensures var (c', done) := CompleteTransition(c, id, f);
            && (done <==> c.pending.Some? && c.pending.value.id == id && c.retirement == Some(id) && f == Fine)
            && c' == if done then c.(retirement := None, revision := c.revision + 1, pending := None) else c
  {
  }

  /** The exception that comes out of an invalidation is its last one: the proofs' cleanup, else the discard, else the commit. */
  lemma InvalidationAnswers(c: Ctx, f: Cleanup)
    ensures var fault := Invalidate(c, f).1;
            var committing :=
              if c.pending.None? then f.finish
              else if c.retirement.None? then if f.retire == Fine then f.finish else f.retire
              else if c.retirement == Some(c.pending.value.id) then f.finish
              else Raises(false);
            && (f.otp != Fine ==> fault == f.otp)
            && (f.otp == Fine && f.discard.Stopped? ==>
                  if f.discard.cancelled then fault.Cancelled? else fault.Raises?)
            && (f.otp == Fine && f.discard == Wholly ==> fault == committing)
  {
  }

  /** Where the engine stands and which threads live, however far the guarded part got. */
  lemma TurnOverEngine(e: Engine, d: Thread, id: TransitionId, coherent: bool, f: RotationFaults)
    requires e.thread != d
    ensures var e' := TurnOver(e, d, id, coherent, f).e;
            var moved := e'.thread != e.thread;
            && (moved ==> e'.thread == d && f.seed == Fine && f.recheck == Fine && coherent && f.turnover == Fine)
            && (d in e'.live <==> d in e.live || Acted(f.seed))
            && (e.thread in e'.live <==> e.thread in e.live && !(moved && Acted(f.delete)))
            && (forall other :: other != d && other != e.thread ==> (other in e'.live <==> other in e.live))
            && e'.terminal == e.terminal
  {
  }
}
