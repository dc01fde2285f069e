/**
 * Idempotency of the order store: what a receipt read says about an effect before, during and after
 * a crash, and how exact the store's refusals are.
 */
module OrderReceipts {
  import opened Results
  import opened Text
  import opened Dicts
  import opened Amounts
  import opened Receipts
  import opened Orders
  import opened OrderLaws

  // ---------------------------------------------------------------- one effect

  /** Replaying a committed effect returns its first record and changes nothing. */
  lemma ReplayReturnsOriginal(s: State, e: Effect)
    requires ValidAmount(e) && ReceiptOf(s, e).Committed?
    ensures Apply(s, e) == Applied(s, Success(ReceiptOf(s, e).record))
  {
  }

  /** A key reused for another request is refused, and nothing changes. */
  lemma ReusedKeyRefused(s: State, e: Effect)
    requires ValidAmount(e) && ReceiptOf(s, e).KeyConflict?
    ensures Apply(s, e) == Applied(s, Failure(KeyReused))
  {
  }

  /** The one way a ledger can change: an effect of its kind puts a record under a key it did not hold. */
  ghost predicate Grew<R>(d: Dict<R>, d': Dict<R>, key: string) {
    d' == d || (Get(d, key).None? && |d'| == |d| + 1 && d' == Put(d, key, d'[|d|].1))
  }

  ghost predicate Written(s: State, s': State, e: Effect) {
    && (if e.Place? then Grew(s.placed, s'.placed, e.key) else s'.placed == s.placed)
    && (if e.Refund? then Grew(s.refunds, s'.refunds, e.key) else s'.refunds == s.refunds)
    && (if e.Return? then Grew(s.rmas, s'.rmas, e.key) else s'.rmas == s.rmas)
    && (if e.Cancel? then Grew(s.cancels, s'.cancels, e.key) else s'.cancels == s.cancels)
  }

  lemma PlaceWrites(s: State, e: Effect)
    requires e.Place?
    ensures Written(s, PlaceCart(s, e.key, e.lines, e.totalCents).state, e)
  {
  }

  lemma RefundWrites(s: State, e: Effect)
    requires e.Refund?
    ensures Written(s, IssueRefund(s, e.key, e.ref, e.amountCents, e.destination, e.instrument).state, e)
  {
  }

  lemma ReturnWrites(s: State, e: Effect)
    requires e.Return?
    ensures Written(s, CreateReturn(s, e.key, e.ref, e.dueCents, e.destination).state, e)
  {
  }

  lemma CancelWrites(s: State, e: Effect)
    requires e.Cancel?
    ensures Written(s, CancelOrder(s, e.key, e.ref).state, e)
  {
  }

  lemma ApplyWrites(s: State, e: Effect)
    ensures Written(s, Apply(s, e).state, e)
  {
    match e
    case Place(_, _, _) => PlaceWrites(s, e);
    case Refund(_, _, _, _, _) => RefundWrites(s, e);
    case Return(_, _, _, _) => ReturnWrites(s, e);
    case Cancel(_, _) => CancelWrites(s, e);
  }

  lemma RowAfterWrite(s: State, s': State, e: Effect, other: Effect)
    requires Written(s, s', other)
    ensures Row(s, e).Some? ==> Row(s', e) == Row(s, e)
    ensures Row(s, e).None? && !SameIntent(e, other) ==> Row(s', e).None?
  {
  }

  lemma RowAfterApply(s: State, e: Effect)
    ensures Apply(s, e).result.Success? ==> Row(Apply(s, e).state, e) == Some(Apply(s, e).result.value)
                                            && Matches(Apply(s, e).result.value, e) && ValidAmount(e)
    ensures Apply(s, e).result.Failure? ==> Row(Apply(s, e).state, e) == Row(s, e)
  {
    match e
    case Place(key, lines, total) => PlacedRow(s, key, lines, total);
    case Refund(key, ref, amount, destination, instrument) =>
      RefundedRow(s, key, ref, amount, destination, instrument);
    case Return(key, ref, due, destination) => ReturnedRow(s, key, ref, due, destination);
    case Cancel(key, ref) => VoidedRow(s, key, ref);
  }

  lemma PlacedRow(s: State, key: string, lines: seq<CartLine>, total: int)
    ensures var a := PlaceCart(s, key, lines, total);
            if a.result.Success? then
              Get(a.state.placed, key) == Some(a.result.value) && PlacementMatches(a.result.value, lines, total)
            else a.state == s
  {
  }

  lemma RefundedRow(s: State, key: string, ref: string, amount: int, destination: string, instrument: string)
    ensures var a := IssueRefund(s, key, ref, amount, destination, instrument);
            if a.result.Success? then
              && Get(a.state.refunds, key) == Some(a.result.value)
              && RefundMatches(a.result.value, ref, amount, destination, instrument)
            else a.state == s
  {
    var cents := if amount < 0 then 0 else amount;
    var record := RefundRecord(RefundId(s.nextRefund), Canonical(ref), cents, destination, Strip(instrument));
    GetPut(s.refunds, key, record, key);
  }

  lemma ReturnedRow(s: State, key: string, ref: string, due: int, destination: string)
    ensures var a := CreateReturn(s, key, ref, due, destination);
            if a.result.Success? then
              Get(a.state.rmas, key) == Some(a.result.value) && ReturnMatches(a.result.value, ref, due, destination)
            else a.state == s
  {
  }

  lemma VoidedRow(s: State, key: string, ref: string)
    ensures var a := CancelOrder(s, key, ref);
            if a.result.Success? then
              Get(a.state.cancels, key) == Some(a.result.value) && CancelMatches(a.result.value, ref)
            else a.state.cancels == s.cancels
  {
  }

  /** No effect rewrites or drops a committed row, whatever its kind or key. */
  lemma RowSurvivesApply(s: State, e: Effect, other: Effect)
    ensures Row(s, e).Some? ==> Row(Apply(s, other).state, e) == Row(s, e)
    ensures Row(s, e).None? && !SameIntent(e, other) ==> Row(Apply(s, other).state, e).None?
  {
    ApplyWrites(s, other);
    RowAfterWrite(s, Apply(s, other).state, e, other);
  }

  predicate SameIntent(a: Effect, b: Effect) {
    && a.key == b.key
    && a.Place? == b.Place? && a.Refund? == b.Refund? && a.Return? == b.Return?
  }

  lemma {:induction false} RowSurvivesRun(s: State, e: Effect, es: seq<Effect>)
    ensures Row(s, e).Some? ==> Row(Run(s, es), e) == Row(s, e)
    ensures Row(s, e).None? && (forall f :: f in es ==> !SameIntent(e, f)) ==> Row(Run(s, es), e).None?
  {
    if es != [] {
      RowSurvivesRun(s, e, es[..|es| - 1]);
      RowSurvivesApply(Run(s, es[..|es| - 1]), e, es[|es| - 1]);
    }
  }

  // ---------------------------------------------------------------- a crash around the commit

  datatype Crash = BeforeCommit | AfterCommit

  function AtCrash(s: State, e: Effect, c: Crash): State {
    if c.AfterCommit? then Apply(s, e).state else s
  }

  /**
   * Exactly once through a crash. Whatever the store does for others between the crash and the
   * recovery, the receipt says committed exactly when the effect had gone through, names the very
   * record it made, and a retry either returns that record unchanged or is the first to commit.
   */
  lemma CrashVerdictAgrees(s: State, e: Effect, c: Crash, others: seq<Effect>)
    requires ValidAmount(e) && Row(s, e).None?
    requires forall f :: f in others ==> !SameIntent(e, f)
    ensures var later := Run(AtCrash(s, e, c), others);
            if c.AfterCommit? && Apply(s, e).result.Success? then
              && ReceiptOf(later, e) == Committed(Apply(s, e).result.value)
              && Apply(later, e) == Applied(later, Success(Apply(s, e).result.value))
            else
              ReceiptOf(later, e) == NotCommitted
  {
    RowAfterApply(s, e);
    RowSurvivesRun(AtCrash(s, e, c), e, others);
    var later := Run(AtCrash(s, e, c), others);
    if ReceiptOf(later, e).Committed? {
      ReplayReturnsOriginal(later, e);
    }
  }

  /**
   * The same for a crash in a retry, when an earlier attempt had already decided the key: neither the
   * crash nor anything done afterwards, retries of this very intent included, changes the verdict.
   */
  lemma DecidedVerdictStands(s: State, e: Effect, c: Crash, others: seq<Effect>)
    requires ValidAmount(e) && Row(s, e).Some?
    ensures var later := Run(AtCrash(s, e, c), others);
            && ReceiptOf(later, e) == ReceiptOf(s, e) && !ReceiptOf(s, e).NotCommitted?
            && Apply(later, e) == Applied(later, if ReceiptOf(s, e).Committed? then Success(ReceiptOf(s, e).record)
                                                 else Failure(KeyReused))
  {
    RowSurvivesApply(s, e, e);
    RowSurvivesRun(AtCrash(s, e, c), e, others);
    var later := Run(AtCrash(s, e, c), others);
    if ReceiptOf(s, e).Committed? {
      ReplayReturnsOriginal(later, e);
    } else {
      ReusedKeyRefused(later, e);
    }
  }

  /** How many steps of a run first wrote the row of this intent. */
  function Commits(s: State, es: seq<Effect>, e: Effect): nat {
    if es == [] then 0
    else
      var before := Run(s, es[..|es| - 1]);
      Commits(s, es[..|es| - 1], e)
      + if Row(before, e).None? && Row(Apply(before, es[|es| - 1]).state, e).Some? then 1 else 0
  }

  /** However often an intent is retried, at most one step commits it, and the final ledger says whether one did. */
  lemma {:induction false} CommitsAtMostOnce(s: State, es: seq<Effect>, e: Effect)
    ensures Commits(s, es, e) == if Row(s, e).None? && Row(Run(s, es), e).Some? then 1 else 0
  {
    if es != [] {
      CommitsAtMostOnce(s, es[..|es| - 1], e);
      RowSurvivesRun(s, e, es[..|es| - 1]);
      RowSurvivesApply(Run(s, es[..|es| - 1]), e, es[|es| - 1]);
    }
  }

  // ---------------------------------------------------------------- refusals

  /** Exactly when a refused effect still leaves a mark: a fresh cancellation of a live order with a blank id. */
  predicate MarksBlankOrder(s: State, e: Effect) {
    && e.Cancel? && Get(s.cancels, e.key).None?
    && Canonical(e.ref) == "" && Status(s, "") == Some(PROCESSING) && RefundedSoFar(s, "") == 0
  }

  lemma RefusalChangesNothingIff(s: State, e: Effect)
    requires Apply(s, e).result.Failure?
    ensures Apply(s, e).state == s <==> !MarksBlankOrder(s, e)
  {
  }

  /** Under the ledger invariant no order has a blank id, so every refusal is inert. */
  lemma RefusalChangesNothing(s: State, e: Effect)
    requires Inv(s) && Apply(s, e).result.Failure?
    ensures Apply(s, e).state == s
  {
    BlankIsUnknown(s);
    RefusalChangesNothingIff(s, e);
  }

  /** The case the invariant rules out does happen for a fixture keyed by a blank id. */
  lemma BlankFixtureIdLeavesMark()
    ensures var s := Fresh([("", Entry(PROCESSING, 500, "CUST-001"))]);
            var after := CancelOrder(s, "k", "");
            after.result == Failure(InvalidRecord) && after.state.cancelledIds == {""} && after.state.cancels == []
  {
  }

  // ---------------------------------------------------------------- the guards are exact

  /**
   * A refund with a fresh key is accepted exactly when it names a destination and an instrument, recording
   * it would keep the ledger sound, the order did not enter the store already cancelled, and it is not the
   * one thing the guards refuse beyond that: a refund of nothing on an order that is voided or unknown.
   */
  lemma RefundAcceptedIffSound(s: State, key: string, ref: string, amount: nat, destination: string, instrument: string)
    requires Inv(s) && Get(s.refunds, key).None?
    ensures var id := Canonical(ref);
            var r := RefundRecord(RefundId(s.nextRefund), id, amount, destination, Strip(instrument));
            IssueRefund(s, key, ref, amount, destination, instrument).result.Success?
            <==> && destination != "" && Strip(instrument) != ""
                 && Inv(s.(refunds := Put(s.refunds, key, r), nextRefund := s.nextRefund + 1))
                 && BaseStatus(s, id) != Some(CANCELLED)
                 && (amount > 0 || (Captured(s, id).Some? && id !in s.cancelledIds))
  {
    var id := Canonical(ref);
    var r := RefundRecord(RefundId(s.nextRefund), id, amount, destination, Strip(instrument));
    var s' := s.(refunds := Put(s.refunds, key, r), nextRefund := s.nextRefund + 1);
    IssueRefundKeepsInv(s, key, ref, amount, destination, instrument);
    BlankIsUnknown(s);
    if Inv(s') {
      RefundMoney(s, s', key, r);
      OrderConserved(s', id);
      SameOrdersSameReads(s, s');
      if id in s.cancelledIds {
        CancelledExcludesOtherRemedies(s', id);
      }
    }
  }

  /** That one thing, for every such order: a refund of nothing is refused, although its record would break nothing. */
  lemma ZeroRefundIsRefused(s: State, key: string, ref: string, destination: string, instrument: string)
    requires Inv(s) && Get(s.refunds, key).None? && Strip(instrument) != ""
    requires Captured(s, Canonical(ref)).None? || Canonical(ref) in s.cancelledIds
    ensures var r := RefundRecord(RefundId(s.nextRefund), Canonical(ref), 0, destination, Strip(instrument));
            && IssueRefund(s, key, ref, 0, destination, instrument)
               == Applied(s, Failure(if Captured(s, Canonical(ref)).None? then UnknownOrder else OrderCancelled))
            && Inv(s.(refunds := Put(s.refunds, key, r), nextRefund := s.nextRefund + 1))
  {
    var r := RefundRecord(RefundId(s.nextRefund), Canonical(ref), 0, destination, Strip(instrument));
    var s' := s.(refunds := Put(s.refunds, key, r), nextRefund := s.nextRefund + 1);
    RefundKeepsKeys(s, s', key, r);
    ZeroRefundKeepsBalances(s, s', key, r);
  }

  lemma ZeroRefundKeepsBalances(s: State, s': State, key: string, r: RefundRecord)
    requires s' == s.(refunds := Put(s.refunds, key, r), nextRefund := s.nextRefund + 1)
    requires VoidsOk(s) && ReturnsOk(s) && Capped(s) && r.amountCents == 0
    ensures VoidsOk(s') && ReturnsOk(s') && Capped(s')
  {
    var c := Amount(r.orderId, 0);
    assert RefundAmounts(s'.refunds) == RefundAmounts(s.refunds) + [c];
    ForKeyAppend(RefundAmounts(s.refunds), c);
    SameOrdersSameReads(s, s');
    forall i | 0 <= i < |s.cancels|
      ensures VoidOk(s', s.cancels[i].1)
    {
      assert VoidOk(s, s.cancels[i].1);
    }
    forall id
      ensures ForKey(Reversed(s'), id) <= ForKey(Captures(s'), id)
    {
      ReversedSplits(s, id);
      ReversedSplits(s', id);
      assert ForKey(Reversed(s), id) <= ForKey(Captures(s), id);
    }
  }

  lemma RefundMoney(s: State, s': State, key: string, r: RefundRecord)
    requires s' == s.(refunds := Put(s.refunds, key, r), nextRefund := s.nextRefund + 1)
    ensures RefundedSoFar(s', r.orderId) == RefundedSoFar(s, r.orderId) + r.amountCents
  {
    assert RefundAmounts(s'.refunds) == RefundAmounts(s.refunds) + [Amount(r.orderId, r.amountCents)];
    ForKeyAppend(RefundAmounts(s.refunds), Amount(r.orderId, r.amountCents));
  }

  /** What the guards of a return with a fresh key let through, and what they record. */
  lemma ReturnGuards(s: State, key: string, ref: string, due: nat, destination: string)
    requires Get(s.rmas, key).None?
    ensures var a := CreateReturn(s, key, ref, due, destination);
            var id := Canonical(ref);
            && (a.result.Success? <==>
                  && Fulfilled(Status(s, id)) && ReturnFor(s.rmas, id).None?
                  && Captured(s, id).Some? && RefundedSoFar(s, id) + due <= Captured(s, id).value
                  && id != "" && destination != "")
            && (a.result.Success? ==> a.state == WithReturn(s, key, id, due, destination))
  {
  }

  function WithReturn(s: State, key: string, id: string, due: nat, destination: string): State {
    s.(rmas := Put(s.rmas, key, ReturnRecord(RmaId(s.nextReturn), id, due, destination)), nextReturn := s.nextReturn + 1)
  }

  /** A return with a fresh key is accepted exactly when it names a destination and recording it would keep the ledger sound. */
  lemma ReturnAcceptedIffSound(s: State, key: string, ref: string, due: nat, destination: string)
    requires Inv(s) && Get(s.rmas, key).None?
    ensures CreateReturn(s, key, ref, due, destination).result.Success?
            <==> destination != "" && Inv(WithReturn(s, key, Canonical(ref), due, destination))
  {
    var id := Canonical(ref);
    var s' := WithReturn(s, key, id, due, destination);
    CreateReturnKeepsInv(s, key, ref, due, destination);
    ReturnGuards(s, key, ref, due, destination);
    BlankIsUnknown(s);
    if Inv(s') {
      SoundReturnPassesGuards(s, s', key, ReturnRecord(RmaId(s.nextReturn), id, due, destination));
    }
  }

  lemma SoundReturnPassesGuards(s: State, s': State, key: string, r: ReturnRecord)
    requires s' == s.(rmas := Put(s.rmas, key, r), nextReturn := s.nextReturn + 1)
    requires Inv(s')
    ensures Fulfilled(Status(s, r.orderId))
    ensures ReturnFor(s.rmas, r.orderId).None?
    ensures RefundedSoFar(s, r.orderId) + r.dueCents <= Captured(s, r.orderId).value
  {
    var n := |s.rmas|;
    assert s'.rmas[n].1 == r && s'.rmas[..n] == s.rmas;
    SameOrdersSameReads(s, s');
    if r.orderId in s.cancelledIds {
      CancelledExcludesOtherRemedies(s', r.orderId);
    }
    forall i | 0 <= i < n
      ensures s.rmas[i].1.orderId != r.orderId
    {
      assert s'.rmas[i].1.orderId != s'.rmas[n].1.orderId;
    }
    var c := Amount(r.orderId, r.dueCents);
    assert ReturnAmounts(s'.rmas) == ReturnAmounts(s.rmas) + [c];
    ForKeyAppend(ReturnAmounts(s.rmas), c);
    OrderConserved(s', r.orderId);
  }

  /** A cancellation with a fresh key is accepted exactly when some void record would keep the ledger sound. */
  lemma CancelAcceptedIffSound(s: State, key: string, ref: string)
    requires Inv(s) && Get(s.cancels, key).None?
    ensures CancelOrder(s, key, ref).result.Success? <==> exists total: nat :: Inv(WithVoid(s, key, Canonical(ref), total))
  {
    var id := Canonical(ref);
    CancelOrderKeepsInv(s, key, ref);
    BlankIsUnknown(s);
    if CancelOrder(s, key, ref).result.Success? {
      assert CancelOrder(s, key, ref).state == WithVoid(s, key, id, Captured(s, id).value);
    }
    if total: nat :| Inv(WithVoid(s, key, id, total)) {
      SoundVoidPassesGuards(s, key, id, total);
    }
  }

  lemma SoundVoidPassesGuards(s: State, key: string, id: string, total: nat)
    requires VoidsOk(s) && VoidsOk(WithVoid(s, key, id, total))
    ensures Status(s, id) == Some(PROCESSING) && RefundedSoFar(s, id) == 0
  {
    var s' := WithVoid(s, key, id, total);
    var n := |s.cancels|;
    assert s'.cancels[n].1 == CancelRecord(id, total) && VoidOk(s', s'.cancels[n].1);
    SameOrdersSameReads(s, s');
    forall k | 0 <= k < n
      ensures s.cancels[k].1.orderId != id
    {
      assert s'.cancels[k].1.orderId != s'.cancels[n].1.orderId;
    }
  }

  function WithVoid(s: State, key: string, id: string, total: nat): State {
    s.(cancels := Put(s.cancels, key, CancelRecord(id, total)), cancelledIds := s.cancelledIds + {id})
  }
}
