/** What every run of the order store keeps: money is conserved and remedies exclude each other. */
module OrderLaws {
  import opened Results
  import opened Text
  import opened Dicts
  import opened Amounts
  import opened Receipts
  import opened Orders

  /** The fixture is keyed by distinct non-blank ids outside the placed-order sequence. */
  ghost predicate FixtureOk(orders: Dict<Entry>) {
    && UniqueKeys(orders)
    && (forall i :: 0 <= i < |orders| ==> orders[i].0 != "")
    && (forall i, n: nat :: 0 <= i < |orders| && n >= 9001 ==> orders[i].0 != OrderId(n))
  }

  /** What the store captured, one amount an order it knows. */
  function Captures(s: State): (cs: seq<Amount>)
    ensures |cs| == |s.orders| + |s.placed|
  {
    seq(|s.orders|, i requires 0 <= i < |s.orders| => Amount(s.orders[i].0, s.orders[i].1.totalCents))
    + seq(|s.placed|, i requires 0 <= i < |s.placed| => Amount(s.placed[i].1.orderId, s.placed[i].1.totalCents))
  }

  /** Everything the store has sent back or promised: voids, refunds and open returns. */
  function Reversed(s: State): seq<Amount> {
    CancelAmounts(s.cancels) + RefundAmounts(s.refunds) + ReturnAmounts(s.rmas)
  }

  ghost predicate Numbered(s: State) {
    && s.nextSeq == 9001 + |s.placed|
    && s.nextRefund == 7001 + |s.refunds|
    && s.nextReturn == 3001 + |s.rmas|
    && (forall i :: 0 <= i < |s.placed| ==> s.placed[i].1.orderId == OrderId(9001 + i))
    && (forall i :: 0 <= i < |s.refunds| ==> s.refunds[i].1.refundId == RefundId(7001 + i))
    && (forall i :: 0 <= i < |s.rmas| ==> s.rmas[i].1.rmaId == RmaId(3001 + i))
  }

  /** A voided order was in processing, is voided once for all it captured, and has no money refunded. */
  ghost predicate VoidsOk(s: State) {
    && (forall i, j :: 0 <= i < j < |s.cancels| ==> s.cancels[i].1.orderId != s.cancels[j].1.orderId)
    && s.cancelledIds == (set i | 0 <= i < |s.cancels| :: s.cancels[i].1.orderId)
    && (forall i :: 0 <= i < |s.cancels| ==> VoidOk(s, s.cancels[i].1))
  }

  ghost predicate VoidOk(s: State, r: CancelRecord) {
    && BaseStatus(s, r.orderId) == Some(PROCESSING)
    && Captured(s, r.orderId) == Some(r.totalCents)
    && RefundedSoFar(s, r.orderId) == 0
  }

  predicate Fulfilled(status: Option<string>) {
    status == Some(SHIPPED) || status == Some(DELIVERED)
  }

  /** Open returns are on fulfilled orders, one an order. */
  ghost predicate ReturnsOk(s: State) {
    && (forall i, j :: 0 <= i < j < |s.rmas| ==> s.rmas[i].1.orderId != s.rmas[j].1.orderId)
    && (forall i :: 0 <= i < |s.rmas| ==> Fulfilled(BaseStatus(s, s.rmas[i].1.orderId)))
  }

  ghost predicate Capped(s: State) {
    forall id :: ForKey(Reversed(s), id) <= ForKey(Captures(s), id)
  }

  /** Ids are handed out in sequence and every ledger key is used once. */
  ghost predicate KeysOk(s: State) {
    && Numbered(s)
    && UniqueKeys(s.placed) && UniqueKeys(s.refunds) && UniqueKeys(s.rmas) && UniqueKeys(s.cancels)
  }

  ghost predicate Inv(s: State) {
    && FixtureOk(s.orders)
    && KeysOk(s)
    && VoidsOk(s)
    && ReturnsOk(s)
    && Capped(s)
  }

  // ---------------------------------------------------------------- reading the invariant

  lemma OrderIdInjective(m: nat, n: nat)
    ensures OrderId(m) == OrderId(n) ==> m == n
  {
    if OrderId(m) == OrderId(n) {
      assert OrderId(m)[4..] == Decimal(m) && OrderId(n)[4..] == Decimal(n);
      DecimalInjective(m, n);
    }
  }

  ghost predicate DistinctKeys(cs: seq<Amount>) {
    forall i, j :: 0 <= i < j < |cs| ==> cs[i].key != cs[j].key
  }

  lemma CapturesDistinct(s: State)
    requires FixtureOk(s.orders) && KeysOk(s)
    ensures DistinctKeys(Captures(s))
  {
    var n, cs := |s.orders|, Captures(s);
    forall i, j | 0 <= i < j < |cs|
      ensures cs[i].key != cs[j].key
    {
      if n <= i {
        OrderIdInjective(9001 + i - n, 9001 + j - n);
      }
    }
  }

  /** The captured total that guards read is exactly what the order contributes to the store's captures. */
  lemma CapturedIsCaptures(s: State, id: string)
    requires DistinctKeys(Captures(s))
    ensures ForKey(Captures(s), id) == if Captured(s, id).Some? then Captured(s, id).value else 0
  {
    var cs := Captures(s);
    match Get(s.orders, id)
    case Some(entry) =>
      var k :| 0 <= k < |s.orders| && s.orders[k] == (id, entry);
      ForKeyUnique(cs, k);
    case None =>
      match FindPlaced(s.placed, id)
      case Some(order) =>
        var k :| 0 <= k < |s.placed| && s.placed[k].1 == order;
        ForKeyUnique(cs, |s.orders| + k);
      case None => ForKeyAbsent(cs, id);
  }

  function VoidedFor(s: State, id: string): nat {
    ForKey(CancelAmounts(s.cancels), id)
  }

  lemma ReversedSplits(s: State, id: string)
    ensures ForKey(Reversed(s), id) == VoidedFor(s, id) + RefundedSoFar(s, id) + ReturnRefundDue(s, id)
  {
    ForKeyConcat(CancelAmounts(s.cancels) + RefundAmounts(s.refunds), ReturnAmounts(s.rmas), id);
    ForKeyConcat(CancelAmounts(s.cancels), RefundAmounts(s.refunds), id);
  }

  lemma VoidedForIsTotal(s: State, id: string)
    requires VoidsOk(s)
    ensures id !in s.cancelledIds ==> VoidedFor(s, id) == 0
    ensures id in s.cancelledIds ==> Captured(s, id) == Some(VoidedFor(s, id))
  {
    var cs := CancelAmounts(s.cancels);
    if id in s.cancelledIds {
      var k :| 0 <= k < |s.cancels| && s.cancels[k].1.orderId == id;
      assert VoidOk(s, s.cancels[k].1);
      ForKeyUnique(cs, k);
    } else {
      ForKeyAbsent(cs, id);
    }
  }

  lemma NoReturnNothingDue(s: State, id: string)
    requires ReturnFor(s.rmas, id).None?
    ensures ReturnRefundDue(s, id) == 0
  {
    ForKeyAbsent(ReturnAmounts(s.rmas), id);
  }

  // ---------------------------------------------------------------- conservation and exclusivity

  /**
   * For every order of every reachable store, the captured total if it is voided, plus refunds
   * paid, plus refunds promised on returns, fits in what was captured.
   */
  lemma OrderConserved(s: State, id: string)
    requires Inv(s)
    ensures Captured(s, id).Some? ==>
              (if id in s.cancelledIds then Captured(s, id).value else 0)
              + RefundedSoFar(s, id) + ReturnRefundDue(s, id) <= Captured(s, id).value
    ensures Captured(s, id).None? ==> RefundedSoFar(s, id) == ReturnRefundDue(s, id) == 0 && id !in s.cancelledIds
  {
    CapturesDistinct(s);
    CapturedIsCaptures(s, id);
    ReversedSplits(s, id);
    VoidedForIsTotal(s, id);
  }

  /** Over the whole store the reversals never exceed the captures. */
  lemma StoreConserved(s: State)
    requires Inv(s)
    ensures Total(CancelAmounts(s.cancels)) + Total(RefundAmounts(s.refunds)) + Total(ReturnAmounts(s.rmas))
            <= Total(Captures(s))
  {
    BoundedByKeyBoundedInTotal(Reversed(s), Captures(s));
    TotalConcat(CancelAmounts(s.cancels) + RefundAmounts(s.refunds), ReturnAmounts(s.rmas));
    TotalConcat(CancelAmounts(s.cancels), RefundAmounts(s.refunds));
  }

  /** A cancelled order is voided by exactly one record, has no money refunded and no return. */
  lemma CancelledExcludesOtherRemedies(s: State, id: string)
    requires Inv(s) && id in s.cancelledIds
    ensures exists k :: 0 <= k < |s.cancels| && s.cancels[k].1 == CancelRecord(id, Captured(s, id).value)
                        && forall j :: 0 <= j < |s.cancels| && s.cancels[j].1.orderId == id ==> j == k
    ensures RefundedSoFar(s, id) == 0 && ReturnFor(s.rmas, id).None? && ReturnRefundDue(s, id) == 0
  {
    var k :| 0 <= k < |s.cancels| && s.cancels[k].1.orderId == id;
    assert VoidOk(s, s.cancels[k].1);
    assert forall i :: 0 <= i < |s.rmas| ==> Fulfilled(BaseStatus(s, s.rmas[i].1.orderId));
    NoReturnNothingDue(s, id);
  }

  // ---------------------------------------------------------------- preservation

  lemma {:induction false} FindPlacedPut(placed: Dict<PlacedOrder>, key: string, order: PlacedOrder, id: string)
    ensures FindPlaced(Put(placed, key, order), id)
            == if FindPlaced(placed, id).Some? then FindPlaced(placed, id)
               else if order.orderId == id then Some(order) else None
  {
    if placed != [] {
      assert Put(placed, key, order)[1..] == Put(placed[1..], key, order);
      FindPlacedPut(placed[1..], key, order, id);
    }
  }

  lemma ForKeyAppend(cs: seq<Amount>, c: Amount)
    ensures forall id :: ForKey(cs + [c], id) == ForKey(cs, id) + if c.key == id then c.units else 0
  {
  }

  lemma FreshInv(orders: Dict<Entry>)
    requires FixtureOk(orders)
    ensures Inv(Fresh(orders))
  {
  }

  lemma PlacementAdded(s: State, s': State, key: string, order: PlacedOrder)
    requires s' == s.(placed := Put(s.placed, key, order), nextSeq := s.nextSeq + 1)
    requires VoidsOk(s) && ReturnsOk(s) && Capped(s)
    ensures VoidsOk(s') && ReturnsOk(s') && Capped(s')
  {
    var c := Amount(order.orderId, order.totalCents);
    forall id
      ensures BaseStatus(s, id).Some? ==> BaseStatus(s', id) == BaseStatus(s, id) && Captured(s', id) == Captured(s, id)
    {
      FindPlacedPut(s.placed, key, order, id);
    }
    forall i | 0 <= i < |s.cancels|
      ensures VoidOk(s', s.cancels[i].1)
    {
      assert VoidOk(s, s.cancels[i].1);
    }
    assert Reversed(s') == Reversed(s);
    assert Captures(s') == Captures(s) + [c];
    ForKeyAppend(Captures(s), c);
  }

  lemma PlacementKeepsKeys(s: State, s': State, key: string, order: PlacedOrder)
    requires s' == s.(placed := Put(s.placed, key, order), nextSeq := s.nextSeq + 1)
    requires KeysOk(s) && Get(s.placed, key).None? && order.orderId == OrderId(s.nextSeq)
    ensures KeysOk(s')
  {
  }

  lemma PlaceCartKeepsInv(s: State, key: string, lines: seq<CartLine>, totalCents: int)
    requires Inv(s)
    ensures Inv(PlaceCart(s, key, lines, totalCents).state)
  {
    var s' := PlaceCart(s, key, lines, totalCents).state;
    if s' != s {
      var order := PlacedOrder(OrderId(s.nextSeq), totalCents, lines);
      PlacementKeepsKeys(s, s', key, order);
      PlacementAdded(s, s', key, order);
    }
  }

  /** Laying one more amount on an order that has room for it keeps every order capped. */
  lemma AmountKeepsCap(s: State, s': State, c: Amount)
    requires s'.orders == s.orders && s'.placed == s.placed
    requires forall id :: VoidedFor(s', id) + RefundedSoFar(s', id) + ReturnRefundDue(s', id)
                          == VoidedFor(s, id) + RefundedSoFar(s, id) + ReturnRefundDue(s, id)
                             + if c.key == id then c.units else 0
    requires DistinctKeys(Captures(s)) && Captured(s, c.key).Some?
    requires VoidedFor(s, c.key) + RefundedSoFar(s, c.key) + ReturnRefundDue(s, c.key) + c.units
             <= Captured(s, c.key).value
    requires Capped(s)
    ensures Capped(s')
  {
    assert Captures(s') == Captures(s);
    CapturedIsCaptures(s, c.key);
    forall id
      ensures ForKey(Reversed(s'), id) <= ForKey(Captures(s'), id)
    {
      ReversedSplits(s, id);
      ReversedSplits(s', id);
      assert ForKey(Reversed(s), id) <= ForKey(Captures(s), id);
    }
  }

  lemma SameOrdersSameReads(s: State, s': State)
    requires s'.orders == s.orders && s'.placed == s.placed
    ensures Captures(s') == Captures(s)
    ensures forall id :: BaseStatus(s', id) == BaseStatus(s, id) && Captured(s', id) == Captured(s, id)
  {
  }

  lemma RefundAdded(s: State, s': State, key: string, r: RefundRecord)
    requires s' == s.(refunds := Put(s.refunds, key, r), nextRefund := s.nextRefund + 1)
    requires VoidsOk(s) && ReturnsOk(s) && Capped(s) && DistinctKeys(Captures(s))
    requires r.orderId !in s.cancelledIds && Captured(s, r.orderId).Some?
    requires RefundedSoFar(s, r.orderId) + ReturnRefundDue(s, r.orderId) + r.amountCents <= Captured(s, r.orderId).value
    ensures VoidsOk(s') && ReturnsOk(s') && Capped(s')
  {
    var c := Amount(r.orderId, r.amountCents);
    assert RefundAmounts(s'.refunds) == RefundAmounts(s.refunds) + [c];
    ForKeyAppend(RefundAmounts(s.refunds), c);
    SameOrdersSameReads(s, s');
    forall i | 0 <= i < |s.cancels|
      ensures VoidOk(s', s.cancels[i].1)
    {
      assert VoidOk(s, s.cancels[i].1) && s.cancels[i].1.orderId in s.cancelledIds;
    }
    VoidedForIsTotal(s, r.orderId);
    AmountKeepsCap(s, s', c);
  }

  lemma ReturnAdded(s: State, s': State, key: string, r: ReturnRecord)
    requires s' == s.(rmas := Put(s.rmas, key, r), nextReturn := s.nextReturn + 1)
    requires VoidsOk(s) && ReturnsOk(s) && Capped(s) && DistinctKeys(Captures(s))
    requires r.orderId !in s.cancelledIds && ReturnFor(s.rmas, r.orderId).None?
    requires Fulfilled(BaseStatus(s, r.orderId))
    requires RefundedSoFar(s, r.orderId) + r.dueCents <= Captured(s, r.orderId).value
    ensures VoidsOk(s') && ReturnsOk(s') && Capped(s')
  {
    var c := Amount(r.orderId, r.dueCents);
    assert ReturnAmounts(s'.rmas) == ReturnAmounts(s.rmas) + [c];
    ForKeyAppend(ReturnAmounts(s.rmas), c);
    SameOrdersSameReads(s, s');
    forall i | 0 <= i < |s.cancels|
      ensures VoidOk(s', s.cancels[i].1)
    {
      assert VoidOk(s, s.cancels[i].1);
    }
    NoReturnNothingDue(s, r.orderId);
    VoidedForIsTotal(s, r.orderId);
    AmountKeepsCap(s, s', c);
  }

  lemma VoidAdded(s: State, s': State, key: string, r: CancelRecord)
    requires s' == s.(cancels := Put(s.cancels, key, r), cancelledIds := s.cancelledIds + {r.orderId})
    requires VoidsOk(s) && ReturnsOk(s) && Capped(s) && DistinctKeys(Captures(s))
    requires r.orderId !in s.cancelledIds && VoidOk(s, r)
    ensures VoidsOk(s') && ReturnsOk(s') && Capped(s')
  {
    var c := Amount(r.orderId, r.totalCents);
    assert CancelAmounts(s'.cancels) == CancelAmounts(s.cancels) + [c];
    ForKeyAppend(CancelAmounts(s.cancels), c);
    SameOrdersSameReads(s, s');
    VoidsAfter(s, s', key, r);
    NoReturnNothingDue(s, r.orderId);
    VoidedForIsTotal(s, r.orderId);
    AmountKeepsCap(s, s', c);
  }

  lemma VoidsAfter(s: State, s': State, key: string, r: CancelRecord)
    requires s' == s.(cancels := Put(s.cancels, key, r), cancelledIds := s.cancelledIds + {r.orderId})
    requires VoidsOk(s) && r.orderId !in s.cancelledIds && VoidOk(s, r)
    ensures VoidsOk(s')
  {
    var n := |s.cancels|;
    assert s'.cancels[n].1 == r && s'.cancels[..n] == s.cancels;
    SameOrdersSameReads(s, s');
    forall i | 0 <= i < n
      ensures VoidOk(s', s.cancels[i].1) && s.cancels[i].1.orderId in s.cancelledIds
    {
      assert VoidOk(s, s.cancels[i].1);
    }
    assert VoidOk(s', r);
    assert s'.cancelledIds == (set i | 0 <= i < n + 1 :: s'.cancels[i].1.orderId) by {
      assert forall i :: 0 <= i < n ==> s'.cancels[i] == s.cancels[i];
    }
  }

  lemma RefundKeepsKeys(s: State, s': State, key: string, r: RefundRecord)
    requires s' == s.(refunds := Put(s.refunds, key, r), nextRefund := s.nextRefund + 1)
    requires KeysOk(s) && Get(s.refunds, key).None? && r.refundId == RefundId(s.nextRefund)
    ensures KeysOk(s')
  {
    UniquePut(s.refunds, key, r);
  }

  lemma IssueRefundKeepsInv(s: State, key: string, ref: string, amount: int, destination: string, instrument: string)
    requires Inv(s)
    ensures Inv(IssueRefund(s, key, ref, amount, destination, instrument).state)
  {
    var s' := IssueRefund(s, key, ref, amount, destination, instrument).state;
    if s' != s {
      var r := RefundRecord(RefundId(s.nextRefund), Canonical(ref), amount, destination, Strip(instrument));
      CapturesDistinct(s);
      RefundKeepsKeys(s, s', key, r);
      RefundAdded(s, s', key, r);
    }
  }

  lemma ReturnKeepsKeys(s: State, s': State, key: string, r: ReturnRecord)
    requires s' == s.(rmas := Put(s.rmas, key, r), nextReturn := s.nextReturn + 1)
    requires KeysOk(s) && Get(s.rmas, key).None? && r.rmaId == RmaId(s.nextReturn)
    ensures KeysOk(s')
  {
    UniquePut(s.rmas, key, r);
  }

  lemma CreateReturnKeepsInv(s: State, key: string, ref: string, due: int, destination: string)
    requires Inv(s)
    ensures Inv(CreateReturn(s, key, ref, due, destination).state)
  {
    var s' := CreateReturn(s, key, ref, due, destination).state;
    if s' != s {
      var r := ReturnRecord(RmaId(s.nextReturn), Canonical(ref), due, destination);
      CapturesDistinct(s);
      ReturnKeepsKeys(s, s', key, r);
      ReturnAdded(s, s', key, r);
    }
  }

  lemma CancelKeepsKeys(s: State, s': State, key: string, r: CancelRecord)
    requires s' == s.(cancels := Put(s.cancels, key, r), cancelledIds := s.cancelledIds + {r.orderId})
    requires KeysOk(s) && Get(s.cancels, key).None?
    ensures KeysOk(s')
  {
  }

  lemma CancelOrderKeepsInv(s: State, key: string, ref: string)
    requires Inv(s)
    ensures Inv(CancelOrder(s, key, ref).state)
  {
    var s' := CancelOrder(s, key, ref).state;
    BlankIsUnknown(s);
    if s' != s {
      var r := CancelRecord(Canonical(ref), Captured(s, Canonical(ref)).value);
      CapturesDistinct(s);
      CancelKeepsKeys(s, s', key, r);
      VoidAdded(s, s', key, r);
    }
  }

  lemma BlankIsUnknown(s: State)
    requires FixtureOk(s.orders) && KeysOk(s)
    ensures BaseStatus(s, "").None?
  {
  }

  /** A new placement is an order nobody knew, captured for its total and in processing; no other order is touched. */
  lemma PlacedOrderIsNew(s: State, key: string, lines: seq<CartLine>, total: nat, other: string)
    requires Inv(s) && Get(s.placed, key).None? && lines != []
    ensures var (s', r) := (PlaceCart(s, key, lines, total).state, PlaceCart(s, key, lines, total).result);
            && r.Success? && r.value.lines == lines && r.value.totalCents == total
            && NewlyPlaced(s, s', r.value.orderId, total) && SameFor(s, s', other, r.value.orderId)
  {
    var order := PlacedOrder(OrderId(s.nextSeq), total, lines);
    NextIdIsUnknown(s, order.orderId);
    OrderConserved(s, order.orderId);
    PlacementReads(s, PlaceCart(s, key, lines, total).state, key, order, other);
  }

  predicate NewlyPlaced(s: State, s': State, id: string, total: nat) {
    && Captured(s, id).None? && Status(s, id).None?
    && Captured(s', id) == Some(total) && Status(s', id) == Some(PROCESSING)
  }

  predicate SameFor(s: State, s': State, id: string, except: string) {
    id != except ==> Captured(s', id) == Captured(s, id) && Status(s', id) == Status(s, id)
  }

  lemma PlacementReads(s: State, s': State, key: string, order: PlacedOrder, other: string)
    requires s' == s.(placed := Put(s.placed, key, order), nextSeq := s.nextSeq + 1)
    requires Get(s.orders, order.orderId).None? && FindPlaced(s.placed, order.orderId).None?
    requires order.orderId !in s.cancelledIds
    ensures NewlyPlaced(s, s', order.orderId, order.totalCents) && SameFor(s, s', other, order.orderId)
  {
    FindPlacedPut(s.placed, key, order, order.orderId);
    FindPlacedPut(s.placed, key, order, other);
  }

  lemma NextIdIsUnknown(s: State, id: string)
    requires FixtureOk(s.orders) && KeysOk(s) && id == OrderId(s.nextSeq)
    ensures Get(s.orders, id).None? && FindPlaced(s.placed, id).None?
  {
    forall i | 0 <= i < |s.placed|
      ensures s.placed[i].1.orderId != id
    {
      if s.placed[i].1.orderId == id {
        OrderIdInjective(9001 + i, s.nextSeq);
      }
    }
  }

  lemma ApplyKeepsInv(s: State, e: Effect)
    requires Inv(s)
    ensures Inv(Apply(s, e).state)
  {
    match e
    case Place(key, lines, total) => PlaceCartKeepsInv(s, key, lines, total);
    case Refund(key, ref, amount, destination, instrument) =>
      IssueRefundKeepsInv(s, key, ref, amount, destination, instrument);
    case Return(key, ref, due, destination) => CreateReturnKeepsInv(s, key, ref, due, destination);
    case Cancel(key, ref) => CancelOrderKeepsInv(s, key, ref);
  }

  /** Every run of the store from a sound fixture keeps the ledger invariant. */
  lemma {:induction false} RunKeepsInv(orders: Dict<Entry>, es: seq<Effect>)
    requires FixtureOk(orders)
    ensures Inv(Run(Fresh(orders), es))
  {
    if es == [] {
      FreshInv(orders);
    } else {
      RunKeepsInv(orders, es[..|es| - 1]);
      ApplyKeepsInv(Run(Fresh(orders), es[..|es| - 1]), es[|es| - 1]);
    }
  }
}
