/** The seeders and the checkers of recovery markers agree, and recovery agrees with the ledger. */
module RecoveryLaws {
  import opened Results
  import opened Text
  import Dicts
  import opened Receipts
  import opened Orders
  import opened OrderReceipts
  import opened Recovery
  import Cart
  import P = Principals
  import V = Verification

  lemma MergeKnown(consumed: seq<string>, id: string)
    requires id in consumed
    ensures Merge(consumed, [id]) == consumed
  {
  }

  // ---------------------------------------------------------------- agreement

  /** A marker seeded from a cancelled stream passes both checks, and is the caller's own abandoned turn. */
  lemma CancelledMarkerAgrees(s: Snapshot, r: Registry, active: set<string>, abandoned: string, resumed: Option<string>)
    requires ClassifyCancelled(s, r, active, abandoned, resumed).Recover?
    ensures var m := ClassifyCancelled(s, r, active, abandoned, resumed).marker;
            && WellFormed(m)
            && EngineAccepts(Seeded(s, m, [abandoned]), r, m)
            && RecoverAccepts(Seeded(s, m, [abandoned]).state, r, m)
            && m.abandoned == Some(abandoned) && s.state.marker.None?
  {
    MergeKnown(s.state.consumed, abandoned);
  }

  /** A restored or detoured confirmation re-enters its own gate: both checks pass and recovery goes back to it. */
  lemma RestoredMarkerAgrees(s: Snapshot, r: Registry, node: string, ledger: State, cart: Cart.Cart, caller: P.Ctx, now: V.Time)
    ensures var m := RestoreMarker(s, r);
            m.Some? ==> EngineAccepts(Seeded(s, m.value, []), r, m.value)
                        && RecoverNode(Seeded(s, m.value, []).state, r, ledger, None, cart, caller, now)
                           == Reenters(m.value.origin)
                        && InterruptNode(s, r) == Some(m.value.origin)
    ensures var m := DetourMarker(node, r);
            m.Some? ==> EngineAccepts(Seeded(s, m.value, []), r, m.value)
                        && RecoverNode(Seeded(s, m.value, []).state, r, ledger, None, cart, caller, now) == Reenters(node)
  {
  }

  /** A revision gap is routed to a marker that both checks accept as that node's own failure. */
  lemma SessionAheadMarkerAgrees(s: Snapshot, r: Registry, evidence: bool)
    requires SessionAheadMarker(s, r, evidence).Some?
    ensures var m := SessionAheadMarker(s, r, evidence).value;
            && m == HandlerMarker(m.origin, r.policies[m.origin], m.origin)
            && EngineAccepts(Seeded(s, m, []), r, m) && RecoverAccepts(Seeded(s, m, []).state, r, m)
  {
  }

  /**
   * A node's handler is believed by the recovery node exactly when it reports its own node's failure. The
   * engine's check believes it exactly when, besides, the checkpoint re-enters at the graph's entry. The
   * checkpoint that the handler itself leaves does not: there the recovery node is next, so a turn that
   * finds it before recovery has run is refused.
   */
  lemma HandlerMarkerAgreesIff(s: Snapshot, r: Registry, origin: string, failedNode: string)
    requires RegistryOk(r) && origin in r.handled
    ensures var m := HandlerMarker(origin, r.policies[origin], failedNode);
            && (RecoverAccepts(s.state, r, m) <==> failedNode == origin)
            && (EngineAccepts(s, r, m) <==>
                  failedNode == origin && s.interrupts == [] && s.next == [ENTRY] && TaskMatches(s, ENTRY))
            && (EngineAccepts(Seeded(s, m, []), r, m) <==> failedNode == origin)
            && !EngineAccepts(HandlerLeaves(s, m), r, m)
            && (RecoverAccepts(HandlerLeaves(s, m).state, r, m) <==> failedNode == origin)
  {
    assert ENTRY[0] != RECOVERY[0];
  }

  /** Whatever the engine accepts, the recovery node accepts too, even after later turns were consumed. */
  lemma EngineAcceptsThenRecoverAccepts(s: Snapshot, r: Registry, m: Marker, later: seq<string>)
    requires EngineAccepts(s, r, m)
    ensures RecoverAccepts(s.state.(consumed := Merge(s.state.consumed, later)), r, m)
  {
  }

  /** A marker whose action is not the one the registry holds for its origin and trigger ends terminal. */
  lemma DisagreeingMarkerEndsTerminal(
      st: Auto, r: Registry, m: Marker, ledger: State, profile: Option<Receipt<Record>>, cart: Cart.Cart,
      caller: P.Ctx, now: V.Time)
    requires st.marker == Some(m) && m.origin in r.policies
    requires m.action != if m.trigger.StreamCancelled? then OnCancellation(r.policies[m.origin])
                         else r.policies[m.origin].onException
    ensures RecoverNode(st, r, ledger, profile, cart, caller, now) == EndsTerminal
  {
  }

  // ---------------------------------------------------------------- verdicts

  /** The one pending effect an accepted reconcile marker speaks about. */
  function PendingEffect(st: Auto, action: Action): Option<Effect> {
    match action
    case ReconcilePlacement => st.placement
    case ReconcileRefund => st.refund
    case ReconcileReturn => st.ret
    case _ => None
  }

  /**
   * Recovery from a crash around a placement, refund or return. Whatever the store did for others in
   * between, recovery finishes with the very record the effect committed if it did commit, and
   * reports that nothing happened if it did not.
   */
  lemma RecoveryVerdictAgrees(
      st: Auto, r: Registry, m: Marker, s: State, crash: Crash, others: seq<Effect>,
      profile: Option<Receipt<Record>>, cart: Cart.Cart, caller: P.Ctx, now: V.Time)
    requires st.marker == Some(m) && RecoverAccepts(st, r, m) && (m.trigger.NodeException? || m.trigger.StreamCancelled?)
    requires PendingEffect(st, m.action).Some?
    requires var e := PendingEffect(st, m.action).value;
             ValidAmount(e) && Row(s, e).None? && forall f :: f in others ==> !SameIntent(e, f)
    ensures var e := PendingEffect(st, m.action).value;
            var later := Run(AtCrash(s, e, crash), others);
            RecoverNode(st, r, later, profile, cart, caller, now)
            == if crash.AfterCommit? && Apply(s, e).result.Success? then Finishes(Apply(s, e).result.value)
               else Reports(m.action)
  {
    CrashVerdictAgrees(s, PendingEffect(st, m.action).value, crash, others);
  }

  /** In a cancellation batch the crash settles exactly the target it hit, as voided or as not completed. */
  lemma BatchVerdictAgrees(b: CancelBatch, s: State, crash: Crash, others: seq<Effect>)
    requires |b.settled| < |b.targets| && b.targets[|b.settled|].Cancel?
    requires forall i :: 0 <= i < |b.settled| ==> b.settled[i] == TargetOrder(b.targets[i])
    requires Row(s, b.targets[|b.settled|]).None?
    requires forall f :: f in others ==> !SameIntent(b.targets[|b.settled|], f)
    ensures var e := b.targets[|b.settled|];
            ReconcileBatch(b, Run(AtCrash(s, e, crash), others))
            == SettlesTarget(e.ref, if crash.AfterCommit? && Apply(s, e).result.Success?
                                    then Some(Apply(s, e).result.value) else None)
  {
    CrashVerdictAgrees(s, b.targets[|b.settled|], crash, others);
  }

  /**
   * Recovery from a crash around a confirmed cart mutation. Whatever else changed the cart in between,
   * recovery finishes with the very record the mutation committed if it did and the cart still holds it,
   * and otherwise asks the caller to review the cart.
   */
  lemma CartVerdictAgrees(
      st: Auto, r: Registry, m: Marker, c: Cart.Cart, committed: bool, others: seq<Cart.Step>,
      ledger: State, profile: Option<Receipt<Record>>, caller: P.Ctx, now: V.Time)
    requires st.marker == Some(m) && RecoverAccepts(st, r, m) && (m.trigger.NodeException? || m.trigger.StreamCancelled?)
    requires m.action == CartReview && st.mutation.Some? && st.consumed != []
    requires var p := st.mutation.value;
             && Strip(p.key) != "" && p.request.priceCents >= 0 && Dicts.Get(c.mutations, p.key).None?
             && forall s :: s in others && s.Confirms? ==> s.key != p.key
    ensures var p := st.mutation.value;
            var result := Cart.Confirm(c, p.key, p.request).result;
            var later := Cart.RunFrom(Cart.AtCrash(c, p.key, p.request, committed), others);
            RecoverNode(st, r, ledger, profile, later, caller, now)
            == if committed && result.Success? && Cart.Clears !in others then FinishesCart(result.value) else ReviewsCart
  {
    Cart.CrashReceiptAgrees(c, st.mutation.value.key, st.mutation.value.request, committed, others);
  }

  /** A key held by a different request is never taken for this one: recovery gives up instead. */
  lemma ConflictEndsTerminal(
      st: Auto, r: Registry, m: Marker, ledger: State, cart: Cart.Cart, caller: P.Ctx, now: V.Time)
    requires st.marker == Some(m) && RecoverAccepts(st, r, m) && (m.trigger.NodeException? || m.trigger.StreamCancelled?)
    requires PendingEffect(st, m.action).Some? && ReceiptOf(ledger, PendingEffect(st, m.action).value).KeyConflict?
    ensures RecoverNode(st, r, ledger, None, cart, caller, now) == EndsTerminal
    ensures var e := PendingEffect(st, m.action).value;
            ValidAmount(e) ==> Apply(ledger, e) == Applied(ledger, Failure(KeyReused))
  {
  }
}
