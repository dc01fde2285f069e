/**
 * What recovery does with a marker, action by action, and what a cancelled stream is classified as: every
 * answer stated on the fields it is decided by.
 */
module RecoveryAnswers {
  import opened Results
  import opened Text
  import opened Receipts
  import opened Orders
  import opened Recovery
  import opened RecoveryLaws
  import opened PrincipalLaws
  import opened PrincipalAnswers
  import Cart
  import Dicts
  import P = Principals
  import V = Verification

  // ---------------------------------------------------------------- which markers are believed

  /** The action a registry stands for at a marker's origin: its exception action, or its answer to a cancellation. */
  predicate ActionRegistered(r: Registry, m: Marker) {
    && m.origin in r.policies
    && var p := r.policies[m.origin];
       if m.trigger.StreamCancelled? then
         m.action == if p.onAbandonment == EndsAutomation then Terminal else p.onException
       else
         m.action == p.onException
  }

  /** The recovery node believes a marker exactly when its action is registered and its trigger is one its origin can have. */
  lemma RecoverAcceptsIff(st: Auto, r: Registry, m: Marker)
    ensures RecoverAccepts(st, r, m) <==>
            ActionRegistered(r, m) &&
            match m.trigger
            case NodeException => m.origin in r.handled
            case StreamCancelled => m.abandoned.Some? && m.abandoned.value in st.consumed
            case SessionRestored => m.origin in r.restorable
            case ConfirmationDetour => m.origin in r.restorable
  {
  }

  /** The engine believes it exactly when, besides, the abandoned turn is the last one and the graph is about to start over. */
  lemma EngineAcceptsIff(s: Snapshot, r: Registry, m: Marker)
    ensures EngineAccepts(s, r, m) <==>
            && RecoverAccepts(s.state, r, m)
            && (m.trigger.StreamCancelled? ==> s.state.consumed[|s.state.consumed| - 1] == m.abandoned.value)
            && s.interrupts == [] && s.next == ["entry"] && s.tasks == [Task("entry", false, [])]
  {
    if EngineAccepts(s, r, m) || s.tasks == [Task("entry", false, [])] {
      OneTask(s);
    }
  }

  lemma OneTask(s: Snapshot)
    ensures TaskMatches(s, ENTRY) <==> s.tasks == [Task("entry", false, [])]
  {
    if TaskMatches(s, ENTRY) {
      assert s.tasks == [s.tasks[0]];
    }
  }

  /** A marker of a failure or a cancellation that the recovery node acts on. */
  predicate Acts(st: Auto, r: Registry, m: Marker) {
    st.marker == Some(m) && RecoverAccepts(st, r, m) && (m.trigger.NodeException? || m.trigger.StreamCancelled?)
  }

  /** A marker that is missing or not believed ends automation; a restored or detoured one goes back to its gate. */
  lemma UnbelievedEndsTerminal(
      st: Auto, r: Registry, ledger: State, profile: Option<Receipt<Record>>, cart: Cart.Cart, caller: P.Ctx, now: V.Time)
    ensures var out := RecoverNode(st, r, ledger, profile, cart, caller, now);
            && (st.marker.None? || !RecoverAccepts(st, r, st.marker.value) ==> out == EndsTerminal)
            && (out.Reenters? <==>
                  && st.marker.Some? && RecoverAccepts(st, r, st.marker.value)
                  && (st.marker.value.trigger.SessionRestored? || st.marker.value.trigger.ConfirmationDetour?))
            && (out.Reenters? ==> out.node == st.marker.value.origin)
  {
  }

  // ---------------------------------------------------------------- what it does with the rest

  /**
   * A pending change of principal is completed exactly when its own principal, and only it, is in place and
   * this flow asked for that very principal with that very request. Any other is torn down; with none
   * pending the failure is just reported.
   */
  lemma PrincipalAnswer(
      st: Auto, r: Registry, m: Marker, ledger: State, profile: Option<Receipt<Record>>, cart: Cart.Cart,
      caller: P.Ctx, now: V.Time)
    requires Acts(st, r, m) && m.action == ReconcilePrincipalTransition
    ensures var out := RecoverNode(st, r, ledger, profile, cart, caller, now);
            var mine := caller.pending.Some? && InPlace(caller, caller.pending.value, now)
                        && st.identity == Some(caller.pending.value.identity)
                        && st.request == Some(caller.pending.value.request);
            && (out == CompletesPrincipal <==> mine)
            && (out == InvalidatesPrincipal <==> caller.pending.Some? && !mine)
            && (out == Reports(m.action) <==> caller.pending.None?)
  {
    InspectionIff(caller, now);
  }

  /** So after recovery the session has the principal that was asked for, or none, or had no change pending. */
  lemma PrincipalAfterRecovery(
      st: Auto, r: Registry, m: Marker, ledger: State, profile: Option<Receipt<Record>>, cart: Cart.Cart,
      caller: P.Ctx, now: V.Time, f: P.Cleanup)
    requires Acts(st, r, m) && m.action == ReconcilePrincipalTransition
    ensures var c' := CallerAfter(caller, RecoverNode(st, r, ledger, profile, cart, caller, now), f);
            || (caller.pending.None? && c' == caller)
            || TornDown(caller, f, c')
            || (&& c' == caller && c'.identity.Some? && c'.identity == st.identity
                && InPlace(c', c'.pending.value, now) && st.request == Some(c'.pending.value.request))
  {
    PrincipalAnswer(st, r, m, ledger, profile, cart, caller, now);
    TeardownIsTornDown(caller, f);
  }

  lemma TeardownIsTornDown(c: P.Ctx, f: P.Cleanup)
    ensures TornDown(c, f, P.Invalidate(c, f).0)
  {
    InvalidationLeavesNoPrincipal(c, f);
  }

  /** The row that a pending placement, refund or return left in its ledger decides: it is finished, given up, or reported. */
  lemma EffectAnswer(
      st: Auto, r: Registry, m: Marker, ledger: State, profile: Option<Receipt<Record>>, cart: Cart.Cart,
      caller: P.Ctx, now: V.Time)
    requires Acts(st, r, m)
    requires m.action == ReconcilePlacement || m.action == ReconcileRefund || m.action == ReconcileReturn
    ensures var out := RecoverNode(st, r, ledger, profile, cart, caller, now);
            var e := match m.action
                     case ReconcilePlacement => st.placement
                     case ReconcileRefund => st.refund
                     case _ => st.ret;
            if e.None? then out == EndsTerminal
            else
              var row := Row(ledger, e.value);
              && (row.None? ==> out == Reports(m.action))
              && (row.Some? && Matches(row.value, e.value) ==> out == Finishes(row.value))
              && (row.Some? && !Matches(row.value, e.value) ==> out == EndsTerminal)
  {
  }

  /** The next open target of a cancellation batch is settled by its own row; a batch out of step ends automation. */
  lemma BatchAnswer(
      st: Auto, r: Registry, m: Marker, ledger: State, profile: Option<Receipt<Record>>, cart: Cart.Cart,
      caller: P.Ctx, now: V.Time)
    requires Acts(st, r, m) && m.action == ReconcileCancel
    ensures var out := RecoverNode(st, r, ledger, profile, cart, caller, now);
            if st.batch.None? then out == EndsTerminal
            else
              var b := st.batch.value;
              var done := |b.settled|;
              if done >= |b.targets| || !b.targets[done].Cancel?
                 || exists i :: 0 <= i < done && b.settled[i] != TargetOrder(b.targets[i])
              then out == EndsTerminal
              else
                var row := Row(ledger, b.targets[done]);
                && (row.None? ==> out == SettlesTarget(b.targets[done].ref, None))
                && (row.Some? && Matches(row.value, b.targets[done]) ==>
                      out == SettlesTarget(b.targets[done].ref, Some(row.value)))
                && (row.Some? && !Matches(row.value, b.targets[done]) ==> out == EndsTerminal)
  {
  }

  /** The profile ledger's verdict decides in the same way, and no pending change ends automation. */
  lemma ProfileAnswer(
      st: Auto, r: Registry, m: Marker, ledger: State, profile: Option<Receipt<Record>>, cart: Cart.Cart,
      caller: P.Ctx, now: V.Time)
    requires Acts(st, r, m) && m.action == ReconcileProfileChange
    ensures RecoverNode(st, r, ledger, profile, cart, caller, now)
            == match profile
               case None => EndsTerminal
               case Some(Committed(record)) => Finishes(record)
               case Some(NotCommitted) => Reports(ReconcileProfileChange)
               case Some(KeyConflict) => EndsTerminal
  {
  }

  /**
   * An abandoned safe abort goes on with the caller's next turn exactly when another turn has been admitted
   * since and is the last thing said; otherwise, and after an exception, the caller is asked again.
   */
  lemma SafeAbortAnswer(
      st: Auto, r: Registry, m: Marker, ledger: State, profile: Option<Receipt<Record>>, cart: Cart.Cart,
      caller: P.Ctx, now: V.Time)
    requires Acts(st, r, m) && m.action == SafeAbort
    ensures var out := RecoverNode(st, r, ledger, profile, cart, caller, now);
            var last := if st.consumed == [] then None else Some(st.consumed[|st.consumed| - 1]);
            && (out == ContinuesWithTurn <==>
                  m.trigger == StreamCancelled && last.Some? && last != m.abandoned && st.latestIsTurn == last)
            && (out != ContinuesWithTurn ==> out == Reports(SafeAbort))
  {
  }

  /** A cart review finishes the mutation its receipt shows, gives up on another's, and otherwise shows the cart. */
  lemma CartAnswer(
      st: Auto, r: Registry, m: Marker, ledger: State, profile: Option<Receipt<Record>>, cart: Cart.Cart,
      caller: P.Ctx, now: V.Time)
    requires Acts(st, r, m) && m.action == CartReview
    requires st.mutation.Some? ==> Strip(st.mutation.value.key) != "" && st.mutation.value.request.priceCents >= 0
    ensures var out := RecoverNode(st, r, ledger, profile, cart, caller, now);
            if st.mutation.None? then out == ReviewsCart
            else
              var row := Dicts.Get(cart.mutations, st.mutation.value.key);
              && (row.None? ==> out == ReviewsCart)
              && (row.Some? && row.value.request != st.mutation.value.request ==> out == EndsTerminal)
              && (row.Some? && row.value.request == st.mutation.value.request ==>
                    out == if st.consumed == [] then EndsTerminal else FinishesCart(row.value))
  {
  }

  /** The remaining actions have one answer each. */
  lemma FixedAnswers(
      st: Auto, r: Registry, m: Marker, ledger: State, profile: Option<Receipt<Record>>, cart: Cart.Cart,
      caller: P.Ctx, now: V.Time)
    requires Acts(st, r, m)
    ensures var out := RecoverNode(st, r, ledger, profile, cart, caller, now);
            && (m.action == Terminal || m.action == EngineLastResort ==> out == EndsTerminal)
            && (m.action.Abort? ==> out == Reports(m.action))
  {
  }

  // ---------------------------------------------------------------- what a cancelled stream left

  /** The checkpoint is paused at exactly one registered node, by one unfailed task that holds the interrupt. */
  predicate PausedAt(s: Snapshot, r: Registry, node: string) {
    && |s.interrupts| == 1 && s.tasks == [Task(node, false, s.interrupts)] && node in r.policies
    && (s.next == [] || s.next == [node])
  }

  /** The checkpoint is about to run exactly one registered ordinary node, which has neither failed nor paused. */
  predicate StuckAt(s: Snapshot, r: Registry, node: string) {
    && s.interrupts == [] && s.next == [node] && s.tasks == [Task(node, false, [])]
    && node in r.policies && node !in r.infrastructure
  }

  lemma InterruptNodeIff(s: Snapshot, r: Registry, node: string)
    ensures InterruptNode(s, r) == Some(node) <==> PausedAt(s, r, node)
  {
    if InterruptNode(s, r) == Some(node) {
      assert s.tasks == [s.tasks[0]];
    }
  }

  lemma StuckIff(s: Snapshot, r: Registry, node: string)
    ensures StuckAt(s, r, node) <==>
            && s.interrupts == [] && |s.next| == 1 && s.next[0] == node
            && node in r.policies && node !in r.infrastructure && TaskMatches(s, node)
  {
    if |s.next| == 1 && s.next[0] == node && TaskMatches(s, node) {
      assert s.next == [node] && s.tasks == [s.tasks[0]];
    }
  }

  /** The abandoned turn is the last one consumed, and nobody else's node still runs. */
  predicate Abandons(s: Snapshot, active: set<string>, abandoned: string, node: string) {
    && s.state.consumed != [] && s.state.consumed[|s.state.consumed| - 1] == abandoned
    && (active == {} || active == {node})
  }

  /**
   * Every verdict on a cancelled stream, exactly. A marker already there is only ever a detour; a pause is
   * left standing unless this stream was answering it; a stuck node, or a pause it was answering, is seeded
   * for recovery under its cancellation action; an empty checkpoint is complete; anything else is invalid.
   */
  lemma CancelledAnswers(
      s: Snapshot, r: Registry, active: set<string>, abandoned: string, resumed: Option<string>, node: string)
    ensures var d := ClassifyCancelled(s, r, active, abandoned, resumed);
            && (d == Complete <==>
                  if s.state.marker.Some? then s.state.marker.value.trigger == ConfirmationDetour
                  else s.interrupts == [] && s.next == [] && s.tasks == [])
            && (s.state.marker.None? && PausedAt(s, r, node) ==>
                  (d == AtInterrupt <==> (active == {} || active == {node}) && resumed != Some(node)))
            && (d == AtInterrupt ==> exists n :: PausedAt(s, r, n))
            && (d.Recover? && d.marker.origin == node ==>
                  && s.state.marker.None? && Abandons(s, active, abandoned, node)
                  && (StuckAt(s, r, node) || (PausedAt(s, r, node) && resumed == Some(node))))
            && (s.state.marker.None? && Abandons(s, active, abandoned, node) && node != "" && Strip(abandoned) != ""
                && (StuckAt(s, r, node) || (PausedAt(s, r, node) && resumed == Some(node))) ==>
                  d == Recover(Marker(node, OnCancellation(r.policies[node]), StreamCancelled, Some(abandoned))))
  {
    InterruptNodeIff(s, r, node);
    StuckIff(s, r, node);
    if InterruptNode(s, r).Some? {
      InterruptNodeIff(s, r, InterruptNode(s, r).value);
    }
  }

  // ---------------------------------------------------------------- the other producers

  /** A restored session is marked exactly when it is paused at one restorable node. */
  lemma RestoreMarkerIff(s: Snapshot, r: Registry, node: string)
    ensures RestoreMarker(s, r).Some? && RestoreMarker(s, r).value.origin == node <==> PausedAt(s, r, node) && node in r.restorable
    ensures RestoreMarker(s, r).Some? ==>
              var m := RestoreMarker(s, r).value;
              m.origin in r.policies && m == Marker(m.origin, r.policies[m.origin].onException, SessionRestored, None)
  {
    InterruptNodeIff(s, r, node);
    if InterruptNode(s, r).Some? {
      InterruptNodeIff(s, r, InterruptNode(s, r).value);
    }
  }

  /** A revision gap is marked exactly when an unmarked live session is stuck at one handled node that the evidence names. */
  lemma SessionAheadMarkerIff(s: Snapshot, r: Registry, evidence: bool, node: string)
    ensures SessionAheadMarker(s, r, evidence) ==
            (if node in r.policies
             then Some(Marker(node, r.policies[node].onException, NodeException, None)) else None)
            && node in r.policies
            <==> && evidence && s.state.marker.None? && !s.state.terminal && node in r.handled && node in r.policies
                 && s.interrupts == [] && s.next == [node] && s.tasks == [Task(node, false, [])]
  {
    if |s.next| == 1 && TaskMatches(s, s.next[0]) {
      assert s.next == [s.next[0]] && s.tasks == [s.tasks[0]];
    }
  }

  /** A detoured confirmation is marked exactly when its node is restorable. */
  lemma DetourMarkerIff(r: Registry, node: string)
    ensures DetourMarker(node, r).Some? <==> node in r.restorable && node in r.policies
    ensures DetourMarker(node, r).Some? ==>
              DetourMarker(node, r).value == Marker(node, r.policies[node].onException, ConfirmationDetour, None)
  {
  }

  /** A handler marks its node's own action; a failure of another node is marked terminal, or as an abort where that would agree. */
  lemma HandlerMarkerIs(origin: string, p: Policy, failedNode: string)
    ensures var m := HandlerMarker(origin, p, failedNode);
            && m.origin == origin && m.trigger == NodeException && m.abandoned == None
            && (failedNode == origin ==> m.action == p.onException)
            && (failedNode != origin && p.onException != Terminal ==> m.action == Terminal)
            && (failedNode != origin && p.onException == Terminal ==> m.action == SafeAbort)
  {
  }

  /** The consumed ids are a set in order of arrival: known ids keep their place, new ones go last, none is there twice. */
  lemma {:induction false} MergeKeepsOrder(consumed: seq<string>, ids: seq<string>)
    ensures (forall i, j :: 0 <= i < j < |consumed| ==> consumed[i] != consumed[j]) ==>
              forall i, j :: 0 <= i < j < |Merge(consumed, ids)| ==> Merge(consumed, ids)[i] != Merge(consumed, ids)[j]
    ensures forall id :: Merge(consumed, [id]) == if id in consumed then consumed else consumed + [id]
    decreases ids
  {
    if ids != [] {
      MergeKeepsOrder(if ids[0] in consumed then consumed else consumed + [ids[0]], ids[1..]);
    }
    forall id
      ensures Merge(consumed, [id]) == if id in consumed then consumed else consumed + [id]
    {
      var next := if id in consumed then consumed else consumed + [id];
      assert [id][1..] == [];
      assert Merge(next, []) == next;
    }
  }

  /** What a registration adds to each table. */
  lemma RegisteredSays(
      r: Registry, name: string, p: Policy, consent: Option<ConsentKind>, restorable: bool, other: string)
    ensures var r' := Recovery.Registered(r, name, p, consent, restorable);
            && name in r'.policies && r'.policies[name] == p && r'.infrastructure == r.infrastructure
            && (name in r'.handled <==> name in r.handled || p.onException != EngineLastResort)
            && (consent.Some? ==> name in r'.consent && r'.consent[name] == consent.value)
            && (consent.None? ==> r'.consent == r.consent)
            && (name in r'.restorable <==> name in r.restorable || restorable)
            && (other != name ==>
                  && (other in r'.policies <==> other in r.policies) && (other in r'.handled <==> other in r.handled)
                  && (other in r'.consent <==> other in r.consent) && (other in r'.restorable <==> other in r.restorable)
                  && (other in r.policies ==> r'.policies[other] == r.policies[other])
                  && (other in r.consent ==> r'.consent[other] == r.consent[other]))
  {
  }

  /** What seeding a marker writes: the marker, the arriving turn last among the consumed, the entry node next, and nothing else. */
  lemma SeededSays(s: Snapshot, m: Marker, id: string)
    ensures Seeded(s, m, [id])
            == Snapshot([], ["entry"], [Task("entry", false, [])],
                        s.state.(marker := Some(m),
                                 consumed := if id in s.state.consumed then s.state.consumed else s.state.consumed + [id]))
    ensures Seeded(s, m, []) == Snapshot([], ["entry"], [Task("entry", false, [])], s.state.(marker := Some(m)))
  {
    MergeKeepsOrder(s.state.consumed, [id]);
  }
}
