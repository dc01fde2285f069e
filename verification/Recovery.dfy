/**
 * Failure recovery: who may seed a recovery marker, who checks it, and what recovery concludes from
 * the authoritative ledgers.
 */
module Recovery {
  import opened Results
  import opened Text
  import opened Receipts
  import opened Orders
  import Cart
  import Routing
  import P = Principals
  import V = Verification

  datatype AbortKind =
    | PrincipalWarning | PlacementConfirmation | RefundVerification | RefundConfirmation | CancelConfirmation
    | ReturnConfirmation | ProfileVerification | ProfileConfirmation | IdentityVerification

  datatype Action =
    | SafeAbort | CartReview
    | ReconcilePlacement | ReconcileRefund | ReconcileCancel | ReconcileReturn | ReconcileProfileChange
    | Abort(what: AbortKind)
    | ReconcilePrincipalTransition | Terminal | EngineLastResort

  datatype Abandonment = PureAbort | ReviewCart | AuthoritativeReconcile | LifecycleSpecial | EndsAutomation

  datatype Policy = Policy(onException: Action, onAbandonment: Abandonment)

  function OnCancellation(p: Policy): Action {
    if p.onAbandonment.EndsAutomation? then Terminal else p.onException
  }

  datatype Trigger = NodeException | StreamCancelled | SessionRestored | ConfirmationDetour

  datatype Marker = Marker(origin: string, action: Action, trigger: Trigger, abandoned: Option<string>)

  /** The shape every marker is validated for when it is built. */
  predicate WellFormed(m: Marker) {
    m.origin != "" && if m.trigger.StreamCancelled? then m.abandoned.Some? && Strip(m.abandoned.value) != ""
                      else m.abandoned.None?
  }

  // ---------------------------------------------------------------- the registry

  datatype ConsentKind = Standard | ForCancel

  datatype RegisterError = Finalized | Duplicate | ConsentNeedsLifecycle | RestoreNeedsConsent

  datatype Registry = Registry(
    policies: map<string, Policy>, infrastructure: set<string>, handled: set<string>,
    consent: map<string, ConsentKind>, restorable: set<string>)

  /** Every node whose failure is ordinary has an error handler; restorable nodes pause for consent. */
  ghost predicate RegistryOk(r: Registry) {
    && r.handled <= r.policies.Keys
    && (forall n :: n in r.policies ==> (n in r.handled <==> !r.policies[n].onException.EngineLastResort?))
    && r.restorable <= r.consent.Keys <= r.policies.Keys
    && (forall n :: n in r.consent ==> r.policies[n].onAbandonment.LifecycleSpecial?)
    && r.policies.Keys !! r.infrastructure
  }

  function Registered(r: Registry, name: string, p: Policy, consent: Option<ConsentKind>, restorable: bool): Registry {
    Registry(r.policies[name := p], r.infrastructure,
             if p.onException.EngineLastResort? then r.handled else r.handled + {name},
             if consent.Some? then r.consent[name := consent.value] else r.consent,
             if restorable then r.restorable + {name} else r.restorable)
  }

  /** A registration under the stated conditions keeps the registry sound. */
  lemma RegisteredOk(r: Registry, name: string, p: Policy, consent: Option<ConsentKind>, restorable: bool)
    requires RegistryOk(r) && name !in r.policies && name !in r.infrastructure
    requires (consent.Some? ==> p.onAbandonment.LifecycleSpecial?) && (restorable ==> consent.Some?)
    ensures RegistryOk(Registered(r, name, p, consent, restorable))
  {
  }

  class NodePolicyRegistry {
    var policies: map<string, Policy>
    var infrastructure: set<string>
    var handled: set<string>
    var consentInterruptKinds: map<string, ConsentKind>
    var restoreReconfirmationNodes: set<string>
    var finalized: bool

    ghost function State(): Registry
      reads this
    {
      Registry(policies, infrastructure, handled, consentInterruptKinds, restoreReconfirmationNodes)
    }

    constructor ()
      ensures RegistryOk(State()) && State() == Registry(map[], {}, {}, map[], {}) && !finalized
    {
      policies, infrastructure, handled, consentInterruptKinds, restoreReconfirmationNodes := map[], {}, {}, map[], {};
      finalized := false;
    }

    method Register(name: string, onException: Action, onAbandonment: Abandonment, consent: Option<ConsentKind>,
                    restorable: bool)
      returns (r: Result<(), RegisterError>)
      requires RegistryOk(State())
      modifies this
      ensures RegistryOk(State()) && finalized == old(finalized)
      ensures r.Success? <==> !old(finalized) && name !in old(policies) && name !in old(infrastructure)
                              && (consent.Some? ==> onAbandonment.LifecycleSpecial?) && (restorable ==> consent.Some?)
      ensures r == Failure(Finalized) <==> old(finalized)
      ensures r == Failure(Duplicate) <==> !old(finalized) && (name in old(policies) || name in old(infrastructure))
      ensures r == Failure(ConsentNeedsLifecycle) <==>
                !old(finalized) && name !in old(policies) && name !in old(infrastructure)
                && consent.Some? && !onAbandonment.LifecycleSpecial?
      ensures r.Failure? ==> State() == old(State())
      ensures r.Success? ==>
                State() == Registered(old(State()), name, Policy(onException, onAbandonment), consent, restorable)
    {
      if finalized {
        return Failure(Finalized);
      }
      if name in policies || name in infrastructure {
        return Failure(Duplicate);
      }
      if consent.Some? && !onAbandonment.LifecycleSpecial? {
        return Failure(ConsentNeedsLifecycle);
      }
      if restorable && consent.None? {
        return Failure(RestoreNeedsConsent);
      }
      var policy := Policy(onException, onAbandonment);
      RegisteredOk(State(), name, policy, consent, restorable);
      policies := policies[name := policy];
      if consent.Some? {
        consentInterruptKinds := consentInterruptKinds[name := consent.value];
      }
      if restorable {
        restoreReconfirmationNodes := restoreReconfirmationNodes + {name};
      }
      if !policy.onException.EngineLastResort? {
        handled := handled + {name};
      }
      return Success(());
    }
  }

  // ---------------------------------------------------------------- checkpoints

  datatype Task = Task(name: string, failed: bool, interrupts: seq<string>)

  /** A frozen cancellation batch: each target's key and order, and the orders already settled. */
  datatype CancelBatch = CancelBatch(targets: seq<Effect>, settled: seq<string>)

  /** The parts of the reasoning state that recovery reads. */
  datatype Auto = Auto(
    consumed: seq<string>, marker: Option<Marker>, terminal: bool, latestIsTurn: Option<string>,
    placement: Option<Effect>, refund: Option<Effect>, ret: Option<Effect>, batch: Option<CancelBatch>,
    mutation: Option<PendingMutation>, identity: Option<P.Identity>, request: Option<Routing.Request>)

  datatype PendingMutation = PendingMutation(key: string, request: Cart.Request)

  datatype Snapshot = Snapshot(interrupts: seq<string>, next: seq<string>, tasks: seq<Task>, state: Auto)

  predicate TaskMatches(s: Snapshot, node: string) {
    |s.tasks| == 1 && s.tasks[0].name == node && !s.tasks[0].failed && s.tasks[0].interrupts == []
  }

  function InterruptNode(s: Snapshot, r: Registry): Option<string> {
    if |s.interrupts| != 1 || |s.tasks| != 1 then None
    else
      var task := s.tasks[0];
      if task.name !in r.policies || task.failed || task.interrupts != s.interrupts
         || (s.next != [] && s.next != [task.name])
      then None
      else Some(task.name)
  }

  /** The ordered-set reducer of consumed turn ids. */
  function Merge(consumed: seq<string>, ids: seq<string>): (merged: seq<string>)
    ensures consumed <= merged
    ensures forall id :: id in merged <==> id in consumed || id in ids
    decreases ids
  {
    if ids == [] then consumed
    else Merge(if ids[0] in consumed then consumed else consumed + [ids[0]], ids[1..])
  }

  const ENTRY := "entry"

  const RECOVERY := "recover_node_exception"

  /** What a node's error handler leaves: its marker written, and the recovery node next. */
  function HandlerLeaves(s: Snapshot, m: Marker): Snapshot {
    Snapshot([], [RECOVERY], [Task(RECOVERY, false, [])], s.state.(marker := Some(m)))
  }

  /** A state update written as the graph's start: the entry node is next, and nothing else is scheduled. */
  function Seeded(s: Snapshot, m: Marker, ids: seq<string>): Snapshot {
    Snapshot([], [ENTRY], [Task(ENTRY, false, [])],
             s.state.(marker := Some(m), consumed := Merge(s.state.consumed, ids)))
  }

  // ---------------------------------------------------------------- who seeds a marker

  datatype Disposition = Complete | AtInterrupt | Recover(marker: Marker) | Invalid

  /** What a cancelled stream left behind. */
  function ClassifyCancelled(s: Snapshot, r: Registry, active: set<string>, abandoned: string, resumed: Option<string>)
    : Disposition
  {
    if s.state.marker.Some? then
      if s.state.marker.value.trigger.ConfirmationDetour? then Complete else Invalid
    else if s.interrupts != [] then
      var node := InterruptNode(s, r);
      if node.None? || (active != {} && active != {node.value}) then Invalid
      else if resumed != node then AtInterrupt
      else if s.state.consumed == [] || s.state.consumed[|s.state.consumed| - 1] != abandoned then Invalid
      else CancelledAt(node.value, r, abandoned)
    else if s.next == [] then
      if s.tasks == [] then Complete else Invalid
    else if |s.next| != 1 then Invalid
    else
      var origin := s.next[0];
      if origin in r.infrastructure || origin !in r.policies || !TaskMatches(s, origin)
         || (active != {} && active != {origin})
         || s.state.consumed == [] || s.state.consumed[|s.state.consumed| - 1] != abandoned
      then Invalid
      else CancelledAt(origin, r, abandoned)
  }

  /** A marker the validators of its own type would not build ends like any other contract failure. */
  function CancelledAt(origin: string, r: Registry, abandoned: string): Disposition
    requires origin in r.policies
  {
    var m := Marker(origin, OnCancellation(r.policies[origin]), StreamCancelled, Some(abandoned));
    if WellFormed(m) then Recover(m) else Invalid
  }

  /** The handler registered for `origin`; a failure reported for another node is marked to disagree on purpose. */
  function HandlerMarker(origin: string, p: Policy, failedNode: string): Marker {
    var action := if failedNode == origin then p.onException
                  else if p.onException.Terminal? then SafeAbort else Terminal;
    Marker(origin, action, NodeException, None)
  }

  function RestoreMarker(s: Snapshot, r: Registry): Option<Marker> {
    var node := InterruptNode(s, r);
    if node.None? || node.value !in r.restorable then None
    else Some(Marker(node.value, r.policies[node.value].onException, SessionRestored, None))
  }

  function SessionAheadMarker(s: Snapshot, r: Registry, evidence: bool): Option<Marker> {
    if s.state.marker.Some? || s.state.terminal || s.interrupts != [] || |s.next| != 1 then None
    else
      var origin := s.next[0];
      if origin !in r.policies || origin !in r.handled || !TaskMatches(s, origin) || !evidence then None
      else Some(Marker(origin, r.policies[origin].onException, NodeException, None))
  }

  function DetourMarker(node: string, r: Registry): Option<Marker> {
    if node !in r.restorable || node !in r.policies then None
    else Some(Marker(node, r.policies[node].onException, ConfirmationDetour, None))
  }

  // ---------------------------------------------------------------- who checks it

  /** The engine's check when a turn arrives on a checkpoint that carries a marker. */
  predicate EngineAccepts(s: Snapshot, r: Registry, m: Marker) {
    && m.origin in r.policies
    && (var p := r.policies[m.origin];
        match m.trigger
        case StreamCancelled =>
          && m.action == OnCancellation(p) && m.abandoned.Some? && s.state.consumed != []
          && s.state.consumed[|s.state.consumed| - 1] == m.abandoned.value
        case NodeException => m.origin in r.handled && m.action == p.onException
        case _ => m.origin in r.restorable && m.action == p.onException)
    && s.interrupts == [] && s.next == [ENTRY] && TaskMatches(s, ENTRY)
  }

  /** The recovery node's own check. */
  predicate RecoverAccepts(st: Auto, r: Registry, m: Marker) {
    && m.origin in r.policies
    && (var p := r.policies[m.origin];
        match m.trigger
        case StreamCancelled => m.action == OnCancellation(p) && m.abandoned.Some? && m.abandoned.value in st.consumed
        case NodeException => m.origin in r.handled && m.action == p.onException
        case _ => m.origin in r.restorable && m.action == p.onException)
  }

  // ---------------------------------------------------------------- what recovery concludes

  datatype Outcome =
    | EndsTerminal
    | Reenters(node: string)
    | Finishes(record: Record)  // the flow's own post-commit projection runs on the committed record
    | Reports(action: Action)  // a code-authored line: nothing was committed, or a plain abort
    | SettlesTarget(order: string, voided: Option<Record>)  // one cancellation of a batch is settled
    | ReviewsCart
    | FinishesCart(mutation: Cart.Record)
    | ContinuesWithTurn
    | CompletesPrincipal
    | InvalidatesPrincipal

  function Reconcile(r: Receipt<Record>, action: Action): Outcome {
    match r
    case Committed(record) => Finishes(record)
    case NotCommitted => Reports(action)
    case KeyConflict => EndsTerminal
  }

  /** The profile ledger is read through the same receipt verdicts; its record is not modelled further. */
  function ReconcileProfile(r: Option<Receipt<Record>>): Outcome {
    if r.None? then EndsTerminal else Reconcile(r.value, ReconcileProfileChange)
  }

  function ReconcileBatch(b: CancelBatch, ledger: State): Outcome {
    var done := |b.settled|;
    if done >= |b.targets| || (exists i :: 0 <= i < done && b.settled[i] != TargetOrder(b.targets[i]))
       || !b.targets[done].Cancel?
    then EndsTerminal
    else
      match ReceiptOf(ledger, b.targets[done])
      case Committed(record) => SettlesTarget(TargetOrder(b.targets[done]), Some(record))
      case NotCommitted => SettlesTarget(TargetOrder(b.targets[done]), None)
      case KeyConflict => EndsTerminal
  }

  /** The caller context after recovery: a transition that recovery does not complete is torn down. */
  function CallerAfter(caller: P.Ctx, o: Outcome, f: P.Cleanup): P.Ctx {
    if o.InvalidatesPrincipal? then P.Invalidate(caller, f).0 else caller
  }

  /** A pending cart mutation is finished if it committed; otherwise the caller is asked to review the cart. */
  function ReconcileCart(st: Auto, cart: Cart.Cart): Outcome {
    if st.mutation.None? then ReviewsCart
    else
      var receipt := Cart.MutationReceipt(cart, st.mutation.value.key, st.mutation.value.request);
      if receipt.Failure? then EndsTerminal
      else
        match receipt.value
        case Committed(record) => if st.consumed == [] then EndsTerminal else FinishesCart(record)
        case NotCommitted => ReviewsCart
        case KeyConflict => EndsTerminal
  }

  function TargetOrder(e: Effect): string {
    if e.Cancel? then e.ref else ""
  }

  /**
   * The recovery node. It reads the order ledger and the cart and never has one to write. A read that
   * raises, or a cart finisher without a consumed turn, falls to the handler that ends automation.
   */
  function RecoverNode(
      st: Auto, r: Registry, ledger: State, profile: Option<Receipt<Record>>, cart: Cart.Cart,
      caller: P.Ctx, now: V.Time): Outcome
  {
    if st.marker.None? then EndsTerminal
    else
      var m := st.marker.value;
      if !RecoverAccepts(st, r, m) then EndsTerminal
      else if m.trigger.SessionRestored? || m.trigger.ConfirmationDetour? then Reenters(m.origin)
      else
        match m.action
        case Terminal => EndsTerminal
        case ReconcilePlacement =>
          if st.placement.Some? then Reconcile(ReceiptOf(ledger, st.placement.value), m.action) else EndsTerminal
        case ReconcileRefund =>
          if st.refund.Some? then Reconcile(ReceiptOf(ledger, st.refund.value), m.action) else EndsTerminal
        case ReconcileReturn =>
          if st.ret.Some? then Reconcile(ReceiptOf(ledger, st.ret.value), m.action) else EndsTerminal
        case ReconcileCancel => if st.batch.Some? then ReconcileBatch(st.batch.value, ledger) else EndsTerminal
        case ReconcileProfileChange => ReconcileProfile(profile)
        case ReconcilePrincipalTransition =>
          (match P.Inspect(caller, now)
           case NoTransition => Reports(m.action)
           case IsCoherent(t) =>
             if st.identity == Some(t.identity) && st.request == Some(t.request) then CompletesPrincipal
             else InvalidatesPrincipal
           case IsInconsistent(_) => InvalidatesPrincipal)
        case SafeAbort =>
          if m.trigger.StreamCancelled? && st.consumed != []
             && Some(st.consumed[|st.consumed| - 1]) != m.abandoned
             && st.latestIsTurn == Some(st.consumed[|st.consumed| - 1])
          then ContinuesWithTurn
          else Reports(m.action)
        case CartReview => ReconcileCart(st, cart)
        case Abort(_) => Reports(m.action)
        case EngineLastResort => EndsTerminal
  }
}
