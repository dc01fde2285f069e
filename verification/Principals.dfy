/**
 * Switching the caller: one principal's authority is retired, another's installed, and the reasoning
 * thread rotated, with a failure or a cancellation possible at every await.
 */
module Principals {
  import opened Results
  import V = Verification
  import Routing

  // How an awaited call ends for its caller; `done` says whether the other side acted all the same.
  datatype Fault = Fine | Raises(done: bool) | Cancelled(done: bool)

  predicate Acted(f: Fault) {
    f.Fine? || f.done
  }

  datatype Identity = Identity(customer: string, contact: string)

  /** The caller-scoped state that no principal may inherit: cart, recent orders, guest orders. */
  datatype Ephemeral = Ephemeral(cart: seq<string>, recent: seq<string>, guest: seq<string>)

  const EMPTY := Ephemeral([], [], [])

  type TransitionId = nat

  /** A change of principal that has begun, with the request that asked for it. */
  datatype Transition = Transition(id: TransitionId, identity: Identity, proof: V.Proof, request: Routing.Request)

  /** Requests that go on across the change, on the new principal's thread. */
  predicate ContinuesAcross(r: Routing.Request) {
    || (r.ListOrders? && r.scope.AccountOrders?)
    || (r.CancelOrders? && r.cancelTarget.Some? && (r.cancelTarget.value.CancellableScope? || r.cancelTarget.value.ExplicitSet?))
    || (r.RefundOrder? && r.refundTarget.Some? && r.refundTarget.value.ExplicitSet?)
    || (r.ReturnOrder? && r.returnTarget.Some? && r.returnTarget.value.ExplicitSet?)
    || r.ChangeProfile?
  }

  /** Requests that may ask for a change of principal at all. */
  predicate Allowlisted(r: Routing.Request) {
    r.SwitchAccount? || r.VerifyIdentity? || ContinuesAcross(r)
  }

  datatype Ctx = Ctx(
    identity: Option<Identity>, granted: set<string>, proofs: map<V.ChallengeId, V.Proof>,
    ephemeral: Ephemeral, retirement: Option<TransitionId>, revision: nat, pending: Option<Transition>)

  datatype Refusal = SameCustomer | InvalidTransition | AlreadyPending | Interrupted

  // ---------------------------------------------------------------- the caller context

  function BeginRetirement(c: Ctx, id: TransitionId, f: Fault): (Ctx, bool) {
    if f.Fine? then (c.(ephemeral := EMPTY, retirement := Some(id), revision := c.revision + 1), true) else (c, false)
  }

  function FinishRetirement(c: Ctx, id: TransitionId, f: Fault): (Ctx, bool) {
    if c.retirement == Some(id) && f.Fine? then (c.(retirement := None, revision := c.revision + 1), true)
    else (c, false)
  }

  predicate ProofHeld(c: Ctx, proof: V.Proof, now: V.Time) {
    proof.id in c.proofs && c.proofs[proof.id] == proof && V.Fresh(proof, now)
  }

  /** The validator of a transition: an identity proof of that very customer, and a request that may ask for it. */
  predicate ValidTransition(who: Identity, proof: V.Proof, request: Routing.Request) {
    proof.subject.customer == who.customer && proof.subject.purpose.ForIdentity? && Allowlisted(request)
  }

  /** The awaits of one transition, in order. */
  datatype TransitionFaults = TransitionFaults(retire: Fault, retain: Fault, record: Fault)

  function TransitionPrincipal(
      c: Ctx, who: Identity, proof: V.Proof, request: Routing.Request, id: TransitionId, now: V.Time, f: TransitionFaults)
    : (Ctx, Result<Transition, Refusal>)
  {
    if c.identity.Some? && c.identity.value.customer == who.customer then (c, Failure(SameCustomer))
    else if !ValidTransition(who, proof, request) then
      (c, Failure(InvalidTransition))
    else if c.pending.Some? then (c, Failure(AlreadyPending))
    else
      var t := Transition(id, who, proof, request);
      var (installed, ok) := Install(c.(pending := Some(t)), t, now, f);
      (installed, if ok then Success(t) else Failure(Interrupted))
  }

  /** Under a published marker: the old authority is retired and the new one bound, each step in turn. */
  function Install(c: Ctx, t: Transition, now: V.Time, f: TransitionFaults): (Ctx, bool) {
    var (retired, ok) := BeginRetirement(c, t.id, f.retire);
    if !ok then (retired, false)
    else
      var bare := retired.(identity := None, granted := {});
      if !ProofHeld(bare, t.proof, now) || !f.retain.Fine? then (bare, false)
      else (bare.(proofs := map[t.proof.id := t.proof], identity := Some(t.identity)), f.record.Fine?)
  }

  function FreshProofs(c: Ctx, now: V.Time): set<V.ChallengeId> {
    set id | id in c.proofs && V.Fresh(c.proofs[id], now)
  }

  predicate Coherent(c: Ctx, t: Transition, now: V.Time) {
    && c.identity == Some(t.identity)
    && c.granted == {}
    && FreshProofs(c, now) == {t.proof.id} && c.proofs[t.proof.id] == t.proof
    && c.ephemeral == EMPTY
  }

  /** How discarding the local projection ends: it makes four writes in order, and may stop before any of them. */
  datatype Discard = Wholly | Stopped(writes: nat, cancelled: bool)

  /** What the session says about its pending transition. */
  datatype Inspection = NoTransition | IsCoherent(t: Transition) | IsInconsistent(t: Transition)

  function Inspect(c: Ctx, now: V.Time): Inspection {
    if c.pending.None? then NoTransition
    else if Coherent(c, c.pending.value, now) then IsCoherent(c.pending.value)
    else IsInconsistent(c.pending.value)
  }

  /** The awaits of one invalidation. */
  datatype Cleanup = Cleanup(retire: Fault, finish: Fault, discard: Discard, otp: Fault)

  function Writes(d: Discard): nat {
    if d.Wholly? then 4 else d.writes
  }

  function DiscardFault(d: Discard): Fault {
    if d.Wholly? then Fine else if d.cancelled then Cancelled(false) else Raises(false)
  }

  /** Cart, recent orders, guest orders, then the retirement marker. */
  function DiscardProjection(c: Ctx, d: Discard): Ctx {
    var n := Writes(d);
    c.(ephemeral := Ephemeral(if n >= 1 then [] else c.ephemeral.cart,
                              if n >= 2 then [] else c.ephemeral.recent,
                              if n >= 3 then [] else c.ephemeral.guest),
       retirement := if n >= 4 then None else c.retirement)
  }

  /** What a caller sees when a `finally` block runs after `first`: a failure of its own comes instead. */
  function Outlast(first: Fault, second: Fault): Fault {
    if second.Fine? then first else second
  }

  /** Finishing a retirement raises before it awaits anything when the marker is not its own. */
  function FinishFault(c: Ctx, id: TransitionId, f: Fault): Fault {
    if c.retirement != Some(id) then Raises(false) else f
  }

  /** The commit that an invalidation tries first. */
  function CommitInvalidation(c: Ctx, f: Cleanup): (Ctx, Fault) {
    match c.pending
    case None => (if f.finish.Fine? then c.(ephemeral := EMPTY, revision := c.revision + 1) else c, f.finish)
    case Some(t) =>
      var (begun, ok) := if c.retirement.Some? then (c, true) else BeginRetirement(c, t.id, f.retire);
      if !ok then (begun, f.retire)
      else
        (FinishRetirement(begun, t.id, f.finish).0, FinishFault(begun, t.id, f.finish))
  }

  /** Every step is tried whatever the ones before it did; the last failure is the one that comes out. */
  function Invalidate(c: Ctx, f: Cleanup): (Ctx, Fault) {
    var (committed, fault) := CommitInvalidation(c, f);
    var cleared := DiscardProjection(committed, f.discard).(identity := None, granted := {});
    (cleared.(proofs := if f.otp.Fine? then map[] else cleared.proofs, pending := None),
     Outlast(Outlast(fault, DiscardFault(f.discard)), f.otp))
  }

  function CompleteTransition(c: Ctx, id: TransitionId, f: Fault): (Ctx, bool) {
    if c.pending.None? || c.pending.value.id != id then (c, false)
    else
      var (done, ok) := FinishRetirement(c, id, f);
      if ok then (done.(pending := None), true) else (done, false)
  }

  class PrincipalContext {
    var identity: Option<Identity>
    var grantedOrders: set<string>
    var proofs: map<V.ChallengeId, V.Proof>
    var ephemeral: Ephemeral
    var retirement: Option<TransitionId>
    var revision: nat
    var pendingTransition: Option<Transition>

    function State(): Ctx
      reads this
    {
      Ctx(identity, grantedOrders, proofs, ephemeral, retirement, revision, pendingTransition)
    }

    constructor ()
      ensures State() == Ctx(None, {}, map[], EMPTY, None, 0, None)
    {
      identity, grantedOrders, proofs, ephemeral, retirement := None, {}, map[], EMPTY, None;
      revision, pendingTransition := 0, None;
    }

    method BeginPrincipalRetirement(id: TransitionId, f: Fault) returns (ok: bool)
      modifies this`ephemeral, this`retirement, this`revision
      ensures (State(), ok) == BeginRetirement(old(State()), id, f)
    {
      if !f.Fine? {
        return false;
      }
      ephemeral, retirement, revision := EMPTY, Some(id), revision + 1;
      return true;
    }

    method FinishPrincipalRetirement(id: TransitionId, f: Fault) returns (ok: bool)
      modifies this`retirement, this`revision
      ensures (State(), ok) == FinishRetirement(old(State()), id, f)
    {
      if retirement.None? || retirement.value != id || !f.Fine? {
        return false;
      }
      retirement, revision := None, revision + 1;
      return true;
    }

    method TransitionTo(who: Identity, proof: V.Proof, request: Routing.Request, id: TransitionId, now: V.Time, f: TransitionFaults)
      returns (r: Result<Transition, Refusal>)
      modifies this
      ensures (State(), r) == TransitionPrincipal(old(State()), who, proof, request, id, now, f)
    {
      if identity.Some? && identity.value.customer == who.customer {
        return Failure(SameCustomer);
      }
      if !ValidTransition(who, proof, request) {
        return Failure(InvalidTransition);
      }
      if pendingTransition.Some? {
        return Failure(AlreadyPending);
      }
      // The fail-closed marker is published before the old authority is retired.
      var t := Transition(id, who, proof, request);
      pendingTransition := Some(t);
      var installed := InstallPrincipal(t, now, f);
      return if installed then Success(t) else Failure(Interrupted);
    }

    method InstallPrincipal(t: Transition, now: V.Time, f: TransitionFaults) returns (ok: bool)
      modifies this
      ensures (State(), ok) == Install(old(State()), t, now, f)
    {
      var begun := BeginPrincipalRetirement(t.id, f.retire);
      if !begun {
        return false;
      }
      identity, grantedOrders := None, {};
      if !ProofHeld(State(), t.proof, now) || !f.retain.Fine? {
        return false;
      }
      proofs := map[t.proof.id := t.proof];
      identity := Some(t.identity);
      return f.record.Fine?;
    }

    method InvalidateTransition(f: Cleanup) returns (fault: Fault)
      modifies this
      ensures (State(), fault) == Invalidate(old(State()), f)
    {
      if pendingTransition.None? {
        fault := f.finish;
        if fault.Fine? {
          ephemeral, revision := EMPTY, revision + 1;
        }
      } else {
        var id := pendingTransition.value.id;
        var begun := true;
        if retirement.None? {
          begun := BeginPrincipalRetirement(id, f.retire);
        }
        fault := f.retire;
        if begun {
          fault := FinishFault(State(), id, f.finish);
          var _ := FinishPrincipalRetirement(id, f.finish);
        }
      }
      DiscardLocalProjection(f.discard);
      fault := Outlast(fault, DiscardFault(f.discard));
      identity, grantedOrders := None, {};
      if f.otp.Fine? {
        proofs := map[];
      }
      fault := Outlast(fault, f.otp);
      pendingTransition := None;
    }

    method DiscardLocalProjection(d: Discard)
      modifies this`ephemeral, this`retirement
      ensures State() == DiscardProjection(old(State()), d)
    {
      var n := Writes(d);
      if n >= 1 {
        ephemeral := ephemeral.(cart := []);
      }
      if n >= 2 {
        ephemeral := ephemeral.(recent := []);
      }
      if n >= 3 {
        ephemeral := ephemeral.(guest := []);
      }
      if n >= 4 {
        retirement := None;
      }
    }

    method Complete(id: TransitionId, f: Fault) returns (ok: bool)
      modifies this
      ensures (State(), ok) == CompleteTransition(old(State()), id, f)
    {
      if pendingTransition.None? || pendingTransition.value.id != id {
        return false;
      }
      ok := FinishPrincipalRetirement(id, f);
      if ok {
        pendingTransition := None;
      }
    }
  }

  // ---------------------------------------------------------------- the engine's rotation

  type Thread = nat

  datatype Move = Move(source: Thread, destination: Thread, revision: nat)

  /** The authority over checkpoint generations: one rotation may be allocated, finished ones are kept. */
  datatype Authority = Authority(current: Thread, reserved: map<TransitionId, Move>, switched: map<TransitionId, Move>)

  datatype Engine = Engine(thread: Thread, live: set<Thread>, authority: Authority, terminal: bool)

  datatype World = World(c: Ctx, e: Engine)

  /** The destination of a rotation; repeating the request names the same one. */
  function BeginRotation(a: Authority, id: TransitionId, revision: nat, unused: Thread): (Authority, Option<Thread>) {
    if id in a.switched then
      (a, if a.switched[id].revision == revision then Some(a.switched[id].destination) else None)
    else if id in a.reserved then
      (a, if a.reserved[id].revision == revision then Some(a.reserved[id].destination) else None)
    else if a.reserved != map[] then (a, None)
    else (a.(reserved := map[id := Move(a.current, unused, revision)]), Some(unused))
  }

  function SwitchGeneration(a: Authority, id: TransitionId): (Authority, Option<Move>) {
    if id in a.switched then (a, Some(a.switched[id]))
    else if id !in a.reserved then (a, None)
    else
      var m := a.reserved[id];
      (Authority(m.destination, a.reserved - {id}, a.switched[id := m]), Some(m))
  }

  /** The awaits of one rotation, in order, and the cleanup run if one of them raises, with the drop of its seed. */
  datatype RotationFaults = RotationFaults(
    read: Fault, begin: Fault, seed: Fault, recheck: Fault, turnover: Fault, delete: Fault, recordDeletion: Fault,
    complete: Fault, update: Fault, cleanup: Cleanup, drop: Fault)

  datatype Rotated = NothingPending | RotatedTo(t: Transition) | Ended | Raised | WasCancelled

  /** How a call that meets this fault ends for its own caller. */
  function Thrown(f: Fault): Rotated {
    if f.Cancelled? then WasCancelled else Raised
  }

  /**
   * Leaving the guarded part. A cancellation cleans nothing up. An exception invalidates, and then drops the
   * unused seed: not when the invalidation itself fails, and a failing drop is swallowed.
   */
  function Leave(w: World, f: Fault, faults: RotationFaults, seed: Option<Thread>): (World, Rotated) {
    if f.Cancelled? then (w, WasCancelled)
    else
      var (c, fault) := Invalidate(w.c, faults.cleanup);
      if !fault.Fine? then (World(c, w.e), Thrown(fault))
      else if seed.None? then (World(c, w.e), Raised)
      else
        (World(c, if Acted(faults.drop) then w.e.(live := w.e.live - {seed.value}) else w.e), Thrown(faults.drop))
  }

  /** A check that fails after its await raises. */
  function Failed(f: Fault): Fault {
    if f.Fine? then Raises(false) else f
  }

  /** The destination is allocated before the guarded part begins. */
  function Reserve(e: Engine, id: TransitionId, revision: nat, unused: Thread, f: Fault): (Engine, Option<Thread>) {
    var (a, destination) := if Acted(f) then BeginRotation(e.authority, id, revision, unused) else (e.authority, None);
    (e.(authority := a), if f.Fine? then destination else None)
  }

  /** How far the guarded part gets before the transition is completed. */
  datatype Stage = Reached(e: Engine) | Halted(e: Engine, fault: Fault, seed: Option<Thread>)

  /** Seeding `d`, rechecking the transition, switching to `d` and deleting the thread left behind. */
  function TurnOver(e: Engine, d: Thread, id: TransitionId, coherent: bool, f: RotationFaults): Stage {
    var seeded := e.(live := if Acted(f.seed) then e.live + {d} else e.live);
    if !f.seed.Fine? then Halted(seeded, f.seed, Some(d))
    else if !f.recheck.Fine? || !coherent then Halted(seeded, Failed(f.recheck), Some(d))
    else
      var (a, moved) := if Acted(f.turnover) then SwitchGeneration(seeded.authority, id) else (seeded.authority, None);
      var turned := seeded.(authority := a);
      if !f.turnover.Fine? || moved.None? || moved.value.source != e.thread || moved.value.destination != d then
        Halted(turned, Failed(f.turnover), Some(d))
      else
        var left := turned.(thread := d, live := if Acted(f.delete) then turned.live - {e.thread} else turned.live);
        if !f.delete.Fine? then Halted(left, f.delete, None)
        else if !f.recordDeletion.Fine? then Halted(left, f.recordDeletion, None)
        else Reached(left)
  }

  /** Completing the transition on the new thread and recording its revision there. */
  function Conclude(w: World, t: Transition, f: RotationFaults): (World, Rotated) {
    var (c, completed) := CompleteTransition(w.c, t.id, f.complete);
    if !completed then Leave(w, FinishFault(w.c, t.id, f.complete), f, None)
    else if !f.update.Fine? then Leave(World(c, w.e), f.update, f, None)
    else (World(c, w.e), RotatedTo(t))
  }

  /** `now` and `later` are the clock at the first and the second inspection; `unused` a thread never used before. */
  function Rotate(w: World, now: V.Time, later: V.Time, unused: Thread, f: RotationFaults): (World, Rotated) {
    if w.c.pending.None? then (w, NothingPending)
    else
      var t := w.c.pending.value;
      if !f.read.Fine? then (w, Thrown(f.read))
      else if w.e.terminal || !Coherent(w.c, t, now) then
        var (c, fault) := Invalidate(w.c, f.cleanup);
        (World(c, w.e), if fault.Fine? && w.e.terminal then Ended else Thrown(fault))
      else
        var (reserved, destination) := Reserve(w.e, t.id, w.c.revision, unused, f.begin);
        if destination.None? then (World(w.c, reserved), Thrown(f.begin))
        else
          var stage := TurnOver(reserved, destination.value, t.id, Coherent(w.c, t, later), f);
          if stage.Halted? then Leave(World(w.c, stage.e), stage.fault, f, stage.seed)
          else Conclude(World(w.c, stage.e), t, f)
  }

  class ReasoningEngine {
    const lifecycle: PrincipalContext
    var thread: Thread
    var live: set<Thread>
    var authority: Authority
    var terminal: bool

    function State(): World
      reads this, lifecycle
    {
      World(lifecycle.State(), Engine(thread, live, authority, terminal))
    }

    constructor (lifecycle: PrincipalContext, thread: Thread)
      ensures this.lifecycle == lifecycle
      ensures State() == World(lifecycle.State(), Engine(thread, {thread}, Authority(thread, map[], map[]), false))
    {
      this.lifecycle, this.thread, live := lifecycle, thread, {thread};
      authority, terminal := Authority(thread, map[], map[]), false;
    }

    /** The exception edge of the guarded part. */
    method Abandon(f: Fault, faults: RotationFaults, seed: Option<Thread>) returns (r: Rotated)
      modifies this`live, lifecycle
      ensures (State(), r) == Leave(old(State()), f, faults, seed)
    {
      if f.Cancelled? {
        return WasCancelled;
      }
      var fault := lifecycle.InvalidateTransition(faults.cleanup);
      if !fault.Fine? {
        return Thrown(fault);
      }
      if seed.None? {
        return Raised;
      }
      if Acted(faults.drop) {
        live := live - {seed.value};
      }
      return Thrown(faults.drop);
    }

    method RotatePendingTransition(now: V.Time, later: V.Time, unused: Thread, f: RotationFaults) returns (r: Rotated)
      modifies this, lifecycle
      ensures (State(), r) == Rotate(old(State()), now, later, unused, f)
    {
      if lifecycle.pendingTransition.None? {
        return NothingPending;
      }
      var t := lifecycle.pendingTransition.value;
      if !f.read.Fine? {
        return Thrown(f.read);
      }
      if terminal || !Coherent(lifecycle.State(), t, now) {
        var fault := lifecycle.InvalidateTransition(f.cleanup);
        return if fault.Fine? && terminal then Ended else Thrown(fault);
      }
      var home := thread;
      var destination: Option<Thread> := None;
      if Acted(f.begin) {
        var begun := BeginRotation(authority, t.id, lifecycle.revision, unused);
        authority, destination := begun.0, begun.1;
      }
      if !f.begin.Fine? || destination.None? {
        return Thrown(f.begin);
      }
      var d := destination.value;
      if Acted(f.seed) {
        live := live + {d};
      }
      if !f.seed.Fine? {
        r := Abandon(f.seed, f, Some(d));
        return;
      }
      if !f.recheck.Fine? || !Coherent(lifecycle.State(), t, later) {
        r := Abandon(Failed(f.recheck), f, Some(d));
        return;
      }
      var switched: Option<Move> := None;
      if Acted(f.turnover) {
        var turned := SwitchGeneration(authority, t.id);
        authority, switched := turned.0, turned.1;
      }
      if !f.turnover.Fine? || switched.None? || switched.value.source != home || switched.value.destination != d {
        r := Abandon(Failed(f.turnover), f, Some(d));
        return;
      }
      thread := d;
      if Acted(f.delete) {
        live := live - {home};
      }
      if !f.delete.Fine? {
        r := Abandon(f.delete, f, None);
        return;
      }
      if !f.recordDeletion.Fine? {
        r := Abandon(f.recordDeletion, f, None);
        return;
      }
      var completion := FinishFault(lifecycle.State(), t.id, f.complete);
      var completed := lifecycle.Complete(t.id, f.complete);
      if !completed {
        r := Abandon(completion, f, None);
        return;
      }
      if !f.update.Fine? {
        r := Abandon(f.update, f, None);
        return;
      }
      return RotatedTo(t);
    }
  }
}
