/**
 * What callers of the order store are told, and when: every read and every refusal stated on the fixture
 * entries and ledger rows themselves, and what each accepted effect records.
 */
module OrderAnswers {
  import opened Results
  import opened Text
  import opened Dicts
  import opened Amounts
  import opened Receipts
  import opened Orders
  import opened OrderLaws
  import opened OrderReceipts
  import opened OrderStores

  // ---------------------------------------------------------------- reads

  /** Some committed placement has this order id. */
  ghost predicate PlacedAs(s: State, id: string, order: PlacedOrder) {
    exists i :: 0 <= i < |s.placed| && s.placed[i].1 == order && order.orderId == id
  }

  /**
   * The status of an order: cancelled if it was voided, otherwise what its fixture entry says, otherwise
   * processing if it was placed here, otherwise unknown.
   */
  lemma StatusIs(s: State, id: string)
    ensures id in s.cancelledIds ==> Status(s, id) == Some("cancelled")
    ensures forall entry :: id !in s.cancelledIds && Get(s.orders, id) == Some(entry) ==> Status(s, id) == Some(entry.status)
    ensures forall order :: id !in s.cancelledIds && Get(s.orders, id) == None && PlacedAs(s, id, order) ==>
                              Status(s, id) == Some("processing")
    ensures id !in s.cancelledIds && Get(s.orders, id) == None && (forall order :: !PlacedAs(s, id, order)) ==>
              Status(s, id) == None
  {
    if FindPlaced(s.placed, id).Some? {
      assert PlacedAs(s, id, FindPlaced(s.placed, id).value);
    }
  }

  /** The captured total of an order: its fixture entry's total, or that of its placement, cancelled or not. */
  lemma CapturedIs(s: State, id: string)
    requires FixtureOk(s.orders) && KeysOk(s)
    ensures forall entry :: Get(s.orders, id) == Some(entry) ==> Captured(s, id) == Some(entry.totalCents)
    ensures forall order :: PlacedAs(s, id, order) ==> Captured(s, id) == Some(order.totalCents)
    ensures Get(s.orders, id) == None && (forall order :: !PlacedAs(s, id, order)) ==> Captured(s, id) == None
  {
    forall order | PlacedAs(s, id, order)
      ensures Captured(s, id) == Some(order.totalCents)
    {
      PlacedIsFound(s, id, order);
    }
    if FindPlaced(s.placed, id).Some? {
      assert PlacedAs(s, id, FindPlaced(s.placed, id).value);
    }
  }

  lemma SequenceIdNotInFixture(orders: Dict<Entry>, n: nat, id: string)
    requires FixtureOk(orders) && n >= 9001 && id == OrderId(n)
    ensures Get(orders, id) == None
  {
  }

  lemma PlacedIdsDiffer(s: State, i: nat, j: nat)
    requires Numbered(s) && i < |s.placed| && j < |s.placed| && s.placed[i].1.orderId == s.placed[j].1.orderId
    ensures i == j
  {
    OrderIdInjective(9001 + i, 9001 + j);
  }

  lemma PlacedIsFound(s: State, id: string, order: PlacedOrder)
    requires FixtureOk(s.orders) && KeysOk(s) && PlacedAs(s, id, order)
    ensures Get(s.orders, id) == None && FindPlaced(s.placed, id) == Some(order)
  {
    var i :| 0 <= i < |s.placed| && s.placed[i].1 == order && order.orderId == id;
    SequenceIdNotInFixture(s.orders, 9001 + i, id);
    OnlyPlacement(s, id, i);
  }

  lemma OnlyPlacement(s: State, id: string, i: nat)
    requires Numbered(s) && i < |s.placed| && s.placed[i].1.orderId == id
    ensures FindPlaced(s.placed, id) == Some(s.placed[i].1)
  {
    var found := FindPlaced(s.placed, id);
    assert found.Some?;
    var j :| 0 <= j < |s.placed| && s.placed[j].1 == found.value && found.value.orderId == id;
    PlacedIdsDiffer(s, i, j);
  }

  // ---------------------------------------------------------------- cancelling

  /** Every answer to a cancellation with a fresh key, in the order they are checked. */
  lemma CancelAnswers(s: State, key: string, ref: string)
    requires Get(s.cancels, key).None?
    ensures var r := CancelOrder(s, key, ref).result;
            var id := Canonical(ref);
            var status := Status(s, id);
            && (r == Failure(UnknownOrder) <==> status == None)
            && (r == Failure(NotCancellable) <==> status.Some? && status != Some("processing"))
            && (r == Failure(HasRefunds) <==> status == Some("processing") && RefundedSoFar(s, id) > 0)
            && (r == Failure(InvalidRecord) <==> status == Some("processing") && RefundedSoFar(s, id) == 0 && id == "")
            && (r.Success? <==> status == Some("processing") && RefundedSoFar(s, id) == 0 && id != "")
            && (r.Success? ==> Captured(s, id) == Some(r.value.totalCents) && r.value.orderId == id)
            && (r.Success? ==> CancelOrder(s, key, ref).state == WithVoid(s, key, id, r.value.totalCents))
  {
  }

  /** On a fixture order: a cancellation goes through exactly while its entry says processing, once, and before any refund. */
  lemma FixtureCancelIff(s: State, key: string, ref: string, entry: Entry)
    requires Inv(s) && Get(s.cancels, key).None? && Get(s.orders, Canonical(ref)) == Some(entry)
    ensures var r := CancelOrder(s, key, ref).result;
            var id := Canonical(ref);
            && (r.Success? <==> entry.status == "processing" && id !in s.cancelledIds && RefundedSoFar(s, id) == 0)
            && (r.Success? ==> r.value == CancelRecord(id, entry.totalCents))
  {
    StatusIs(s, Canonical(ref));
    CancelAnswers(s, key, ref);
    BlankIsUnknown(s);
  }

  /** On an order placed here: exactly once, and before any refund. */
  lemma PlacedCancelIff(s: State, key: string, ref: string, order: PlacedOrder)
    requires Inv(s) && Get(s.cancels, key).None? && PlacedAs(s, Canonical(ref), order)
    ensures var r := CancelOrder(s, key, ref).result;
            var id := Canonical(ref);
            && (r.Success? <==> id !in s.cancelledIds && RefundedSoFar(s, id) == 0)
            && (r.Success? ==> r.value == CancelRecord(id, order.totalCents))
  {
    PlacedIsFound(s, Canonical(ref), order);
    CancelAnswers(s, key, ref);
    BlankIsUnknown(s);
  }

  // ---------------------------------------------------------------- returns

  /** Every answer to a return with a fresh key, in the order they are checked. */
  lemma ReturnAnswers(s: State, key: string, ref: string, due: nat, destination: string)
    requires Get(s.rmas, key).None?
    ensures var r := CreateReturn(s, key, ref, due, destination).result;
            var id := Canonical(ref);
            var status := Status(s, id);
            var fulfilled := status == Some("shipped") || status == Some("delivered");
            var isOpen := exists i :: 0 <= i < |s.rmas| && s.rmas[i].1.orderId == id;
            && (r == Failure(UnknownOrder) <==> status == None)
            && (r == Failure(NotFulfilled) <==> status.Some? && !fulfilled)
            && (r == Failure(ReturnOpen) <==> fulfilled && isOpen)
            && (fulfilled && !isOpen && Captured(s, id).Some? ==>
                  var fits := RefundedSoFar(s, id) + due <= Captured(s, id).value;
                  && (r == Failure(OverBalance) <==> !fits)
                  && (r == Failure(InvalidRecord) <==> fits && (id == "" || destination == ""))
                  && (r.Success? <==> fits && id != "" && destination != ""))
            && (r.Success? ==> fulfilled && !isOpen)
            && (r.Success? ==> r.value == ReturnRecord(RmaId(s.nextReturn), id, due, destination)
                               && CreateReturn(s, key, ref, due, destination).state == WithReturn(s, key, id, due, destination))
  {
  }

  /** On a fixture order: a return is opened exactly when its entry says shipped or delivered, once, within what is left. */
  lemma FixtureReturnIff(s: State, key: string, ref: string, due: nat, destination: string, entry: Entry)
    requires Inv(s) && Get(s.rmas, key).None? && Get(s.orders, Canonical(ref)) == Some(entry)
    ensures CreateReturn(s, key, ref, due, destination).result.Success? <==>
            var id := Canonical(ref);
            && (entry.status == "shipped" || entry.status == "delivered")
            && (forall i :: 0 <= i < |s.rmas| ==> s.rmas[i].1.orderId != id)
            && RefundedSoFar(s, id) + due <= entry.totalCents && destination != ""
  {
    var id := Canonical(ref);
    StatusIs(s, id);
    ReturnAnswers(s, key, ref, due, destination);
    BlankIsUnknown(s);
    if id in s.cancelledIds {
      var k :| 0 <= k < |s.cancels| && s.cancels[k].1.orderId == id;
      assert VoidOk(s, s.cancels[k].1);
    }
  }

  // ---------------------------------------------------------------- refunds

  /** Every answer to a refund with a fresh key, in the order they are checked. */
  lemma RefundAnswers(s: State, key: string, ref: string, amount: nat, destination: string, instrument: string)
    requires Get(s.refunds, key).None?
    ensures var a := IssueRefund(s, key, ref, amount, destination, instrument);
            var r := a.result;
            var id := Canonical(ref);
            var blank := Strip(instrument) == "";
            && (r == Failure(EmptyInstrument) <==> blank)
            && (r == Failure(UnknownOrder) <==> !blank && Captured(s, id) == None)
            && (r == Failure(OrderCancelled) <==> !blank && Captured(s, id).Some? && Status(s, id) == Some("cancelled"))
            && (!blank && Captured(s, id).Some? && Status(s, id) != Some("cancelled") ==>
                  var fits := RefundedSoFar(s, id) + ReturnRefundDue(s, id) + amount <= Captured(s, id).value;
                  && (r == Failure(OverBalance) <==> !fits)
                  && (r == Failure(InvalidRecord) <==> fits && (id == "" || destination == ""))
                  && (r.Success? <==> fits && id != "" && destination != ""))
            && (r.Success? ==>
                  && r.value == RefundRecord(RefundId(s.nextRefund), id, amount, destination, Strip(instrument))
                  && a.state == s.(refunds := Put(s.refunds, key, r.value), nextRefund := s.nextRefund + 1))
  {
  }

  /** On a fixture order: a refund is paid exactly within what is left, unless the entry or a void says cancelled. */
  lemma FixtureRefundIff(s: State, key: string, ref: string, amount: nat, destination: string, instrument: string, entry: Entry)
    requires Inv(s) && Get(s.refunds, key).None? && Get(s.orders, Canonical(ref)) == Some(entry)
    ensures IssueRefund(s, key, ref, amount, destination, instrument).result.Success? <==>
            var id := Canonical(ref);
            && entry.status != "cancelled" && id !in s.cancelledIds
            && RefundedSoFar(s, id) + ReturnRefundDue(s, id) + amount <= entry.totalCents
            && Strip(instrument) != "" && destination != ""
  {
    StatusIs(s, Canonical(ref));
    RefundAnswers(s, key, ref, amount, destination, instrument);
    BlankIsUnknown(s);
  }

  // ---------------------------------------------------------------- placing

  /** A placement with a fresh key is refused only for a negative total or an empty cart, and records what it was given. */
  lemma PlaceAnswers(s: State, key: string, lines: seq<CartLine>, total: int)
    requires Get(s.placed, key).None?
    ensures var a := PlaceCart(s, key, lines, total);
            && (a.result == Failure(InvalidAmount) <==> total < 0)
            && (a.result == Failure(InvalidRecord) <==> total >= 0 && lines == [])
            && (a.result.Success? <==> total >= 0 && lines != [])
            && (a.result.Success? ==>
                  && a.result.value == PlacedOrder(OrderId(s.nextSeq), total, lines)
                  && a.state == s.(placed := Put(s.placed, key, a.result.value), nextSeq := s.nextSeq + 1))
  {
  }

  // ---------------------------------------------------------------- reusing a key

  /** Two effects of one kind ask for the same: the same order, amount, destination and instrument, or the same cart. */
  predicate AsksTheSame(a: Effect, b: Effect) {
    match (a, b)
    case (Place(_, lines, total), Place(_, lines', total')) => lines == lines' && total == total'
    case (Refund(_, ref, amount, destination, instrument), Refund(_, ref', amount', destination', instrument')) =>
      Canonical(ref) == Canonical(ref') && amount == amount' && destination == destination'
      && Strip(instrument) == Strip(instrument')
    case (Return(_, ref, due, destination), Return(_, ref', due', destination')) =>
      Canonical(ref) == Canonical(ref') && due == due' && destination == destination'
    case (Cancel(_, ref), Cancel(_, ref')) => Canonical(ref) == Canonical(ref')
    case _ => false
  }

  /** What a ledger row answers to a later effect with its key: field by field, its own request again or a refusal. */
  lemma RowAnswers(s: State, e: Effect)
    requires ValidAmount(e) && Row(s, e).Some?
    ensures Apply(s, e) == Applied(s, if SameFields(Row(s, e).value, e) then Success(Row(s, e).value) else Failure(KeyReused))
  {
  }

  predicate SameFields(r: Record, e: Effect) {
    match e
    case Place(_, lines, total) => r.Placed? && r.placed.lines == lines && r.placed.totalCents == total
    case Refund(_, ref, amount, destination, instrument) =>
      && r.Refunded? && r.refund.orderId == Canonical(ref) && r.refund.amountCents == amount
      && r.refund.destination == destination && r.refund.instrument == Strip(instrument)
    case Return(_, ref, due, destination) =>
      r.Returned? && r.ret.orderId == Canonical(ref) && r.ret.dueCents == due && r.ret.destination == destination
    case Cancel(_, ref) => r.Voided? && r.cancel.orderId == Canonical(ref)
  }

  lemma RecordsItsRequest(s: State, e: Effect)
    requires Row(s, e).None? && Apply(s, e).result.Success?
    ensures ValidAmount(e) && Row(Apply(s, e).state, e) == Some(Apply(s, e).result.value)
    ensures SameFields(Apply(s, e).result.value, e)
  {
    RowAfterApply(s, e);
    match e
    case Place(key, lines, total) => PlaceAnswers(s, key, lines, total);
    case Refund(key, ref, amount, destination, instrument) =>
      if amount >= 0 {
        RefundAnswers(s, key, ref, amount, destination, instrument);
      }
    case Return(key, ref, due, destination) =>
      if due >= 0 {
        ReturnAnswers(s, key, ref, due, destination);
      }
    case Cancel(key, ref) => CancelAnswers(s, key, ref);
  }

  /**
   * After an effect went through, and whatever happened since, its key answers exactly those that ask the
   * same with the first record, and refuses any that differ in a single respect; neither changes anything.
   */
  lemma RetryAnsweredIffSameRequest(s: State, e: Effect, others: seq<Effect>, again: Effect)
    requires Row(s, e).None? && Apply(s, e).result.Success?
    requires SameIntent(e, again) && ValidAmount(again)
    ensures var later := Run(Apply(s, e).state, others);
            Apply(later, again)
            == Applied(later, if AsksTheSame(e, again) then Success(Apply(s, e).result.value) else Failure(KeyReused))
  {
    RecordsItsRequest(s, e);
    RowSurvivesRun(Apply(s, e).state, e, others);
    var later := Run(Apply(s, e).state, others);
    assert Row(later, again) == Row(later, e);
    RowAnswers(later, again);
  }

  // ---------------------------------------------------------------- amounts and listings

  /** A negative amount is refused before anything else is looked at. */
  lemma NegativeAmountRefused(s: State, e: Effect)
    ensures !ValidAmount(e) ==> Apply(s, e) == Applied(s, Failure(InvalidAmount))
    ensures ValidAmount(e) ==> Apply(s, e).result != Failure(InvalidAmount)
    ensures ValidAmount(e) <==>
            match e
            case Place(_, _, total) => total >= 0
            case Refund(_, _, amount, _, _) => amount >= 0
            case Return(_, _, due, _) => due >= 0
            case Cancel(_, _) => true
  {
  }

  /** A caller's listing: each fixture order the customer owns, and no other, in fixture order. */
  lemma {:induction false} OwnedFixtureSplits(orders: Dict<Entry>, customer: string, n: nat)
    requires n <= |orders|
    ensures OwnedFixture(orders, customer) == OwnedFixture(orders[..n], customer) + OwnedFixture(orders[n..], customer)
  {
    if n == 0 {
      assert orders[n..] == orders && orders[..n] == [];
    } else {
      OwnedFixtureSplits(orders[1..], customer, n - 1);
      assert orders[..n][1..] == orders[1..][..n - 1] && orders[n..] == orders[1..][n - 1..];
    }
  }

  lemma {:induction false} OwnedFixtureIs(orders: Dict<Entry>, customer: string, id: string)
    ensures Some(id) in OwnedFixture(orders, customer) <==>
            exists i :: 0 <= i < |orders| && orders[i].0 == id && orders[i].1.customer == customer
    ensures None !in OwnedFixture(orders, customer)
  {
    if orders != [] {
      OwnedFixtureIs(orders[1..], customer, id);
      assert forall i :: 0 < i < |orders| ==> orders[i] == orders[1..][i - 1];
    }
  }

  /** ... then each session reference in its order, or a gap where it names no committed placement. */
  lemma SessionReferencesAre(orders: Dict<Entry>, s: State, customer: string, guestRefs: seq<string>, k: nat)
    requires k < |guestRefs|
    ensures var listing := OwnedOrders(orders, s.placed, customer, guestRefs);
            var n := |OwnedFixture(orders, customer)|;
            && |listing| == n + |guestRefs| && listing[..n] == OwnedFixture(orders, customer)
            && (listing[n + k] == Some(guestRefs[k]) <==> exists order :: PlacedAs(s, guestRefs[k], order))
            && (listing[n + k] == None <==> forall order :: !PlacedAs(s, guestRefs[k], order))
  {
    if FindPlaced(s.placed, guestRefs[k]).Some? {
      assert PlacedAs(s, guestRefs[k], FindPlaced(s.placed, guestRefs[k]).value);
    }
  }
}
