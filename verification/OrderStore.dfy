/** The order store as the program keeps it: fields updated in place, one method an operation. */
module OrderStores {
  import opened Results
  import opened Text
  import opened Dicts
  import opened Amounts
  import opened Receipts
  import opened Orders
  import opened OrderLaws

  datatype ListError = LimitTooSmall | UnknownGuestOrder

  /**
   * A caller's listing, in order: the fixture orders the customer owns, then the session's references.
   * A reference that names no committed placement has no entry to show and stops the listing there.
   */
  function OwnedOrders(orders: Dict<Entry>, placed: Dict<PlacedOrder>, customer: string, guestRefs: seq<string>)
    : seq<Option<string>>
  {
    OwnedFixture(orders, customer)
    + seq(|guestRefs|, i requires 0 <= i < |guestRefs| =>
        if FindPlaced(placed, guestRefs[i]).Some? then Some(guestRefs[i]) else None)
  }

  function OwnedFixture(orders: Dict<Entry>, customer: string): seq<Option<string>> {
    if orders == [] then []
    else (if orders[0].1.customer == customer then [Some(orders[0].0)] else []) + OwnedFixture(orders[1..], customer)
  }

  predicate Cancellable(s: State, entry: Option<string>) {
    entry.Some? && Status(s, Canonical(entry.value)) == Some(PROCESSING)
  }

  /** The cancellable orders of a listing, in its order. */
  function Cancellables(s: State, listing: seq<Option<string>>): seq<string> {
    if listing == [] then []
    else
      var last := listing[|listing| - 1];
      Cancellables(s, listing[..|listing| - 1]) + if Cancellable(s, last) then [last.value] else []
  }

  lemma CancellablesStep(s: State, listing: seq<Option<string>>, n: nat)
    requires n < |listing|
    ensures Cancellables(s, listing[..n + 1])
            == Cancellables(s, listing[..n]) + if Cancellable(s, listing[n]) then [listing[n].value] else []
  {
    assert listing[..n + 1][..n] == listing[..n];
  }

  lemma {:induction false} CancellablesPrefix(s: State, listing: seq<Option<string>>, n: nat)
    requires n <= |listing|
    ensures Cancellables(s, listing[..n]) <= Cancellables(s, listing)
    decreases |listing| - n
  {
    if n < |listing| {
      CancellablesStep(s, listing, n);
      CancellablesPrefix(s, listing, n + 1);
    } else {
      assert listing[..n] == listing;
    }
  }

  /** One more cancellable order than the limit settles the answer, whatever follows. */
  lemma OverflowSettles(s: State, listing: seq<Option<string>>, n: nat, limit: nat)
    requires n < |listing| && Cancellable(s, listing[n]) && |Cancellables(s, listing[..n])| == limit
    ensures |Cancellables(s, listing)| > limit
    ensures Cancellables(s, listing)[..limit] == Cancellables(s, listing[..n])
  {
    CancellablesStep(s, listing, n);
    CancellablesPrefix(s, listing, n + 1);
    var all, more := Cancellables(s, listing), Cancellables(s, listing[..n + 1]);
    assert all[..limit] == more[..limit];
  }

  /** A reference without a committed placement stands at `n`, not behind more cancellable orders than the limit. */
  ghost predicate MissesAt(s: State, listing: seq<Option<string>>, limit: int, n: nat) {
    n < |listing| && listing[n].None? && |Cancellables(s, listing[..n])| <= limit
  }

  ghost predicate MissesFirst(s: State, listing: seq<Option<string>>, limit: int) {
    exists n: nat :: MissesAt(s, listing, limit, n)
  }

  /**
   * A listing is answered with its first cancellable orders and whether there are more, unless a missing
   * placement comes before the answer is settled.
   */
  ghost predicate Answers(s: State, listing: seq<Option<string>>, limit: nat, r: Result<(seq<string>, bool), ListError>) {
    if MissesFirst(s, listing, limit) then r == Failure(UnknownGuestOrder)
    else
      var all := Cancellables(s, listing);
      r == Success((all[..if |all| > limit then limit else |all|], |all| > limit))
  }

  lemma OverflowAnswers(s: State, listing: seq<Option<string>>, i: nat, limit: nat, found: seq<string>)
    requires i < |listing| && Cancellable(s, listing[i]) && found == Cancellables(s, listing[..i]) && |found| == limit
    requires forall k :: 0 <= k < i ==> listing[k].Some?
    ensures Answers(s, listing, limit, Success((found, true)))
  {
    OverflowSettles(s, listing, i, limit);
    OverflowHidesMisses(s, listing, i, limit);
  }

  lemma NothingMissed(s: State, listing: seq<Option<string>>, limit: nat)
    requires forall k :: 0 <= k < |listing| ==> listing[k].Some?
    ensures !MissesFirst(s, listing, limit)
  {
  }

  /** A missing placement behind the overflow is never read. */
  lemma OverflowHidesMisses(s: State, listing: seq<Option<string>>, i: nat, limit: nat)
    requires i < |listing| && Cancellable(s, listing[i]) && |Cancellables(s, listing[..i])| == limit
    requires forall k :: 0 <= k < i ==> listing[k].Some?
    ensures !MissesFirst(s, listing, limit)
  {
    forall n: nat | MissesAt(s, listing, limit, n)
      ensures false
    {
      assert n > i;
      var front := listing[..n];
      assert front[..i] == listing[..i] && front[i] == listing[i];
      OverflowSettles(s, front, i, limit);
    }
  }

  /** Membership: the listing's cancellable orders and nothing else. */
  lemma {:induction false} CancellablesMember(s: State, listing: seq<Option<string>>, id: string)
    ensures id in Cancellables(s, listing) <==> Some(id) in listing && Cancellable(s, Some(id))
  {
    if listing != [] {
      var n := |listing| - 1;
      CancellablesMember(s, listing[..n], id);
      assert listing == listing[..n] + [listing[n]];
    }
  }

  class OrderStore {
    const orders: Dict<Entry>
    var placedByKey: Dict<PlacedOrder>
    var nextSeq: nat
    var refundsByKey: Dict<RefundRecord>
    var nextRefundSeq: nat
    var cancelsByKey: Dict<CancelRecord>
    var cancelledIds: set<string>
    var returnsByKey: Dict<ReturnRecord>
    var nextReturnSeq: nat

    ghost function State(): State
      reads this
    {
      Orders.State(orders, placedByKey, nextSeq, refundsByKey, nextRefundSeq,
                   returnsByKey, nextReturnSeq, cancelsByKey, cancelledIds)
    }

    ghost predicate Valid()
      reads this
    {
      Inv(State())
    }

    constructor (orders: Dict<Entry>)
      requires FixtureOk(orders)
      ensures State() == Fresh(orders) && Valid()
    {
      this.orders := orders;
      placedByKey, nextSeq := [], 9001;
      refundsByKey, nextRefundSeq := [], 7001;
      cancelsByKey, cancelledIds := [], {};
      returnsByKey, nextReturnSeq := [], 3001;
      new;
      FreshInv(orders);
    }

    method OrderStatus(ref: string) returns (status: Option<string>)
      ensures status == Status(State(), Canonical(ref))
    {
      var id := Canonical(ref);
      if id in cancelledIds {
        return Some(CANCELLED);
      }
      var entry := Get(orders, id);
      if entry.Some? {
        return Some(entry.value.status);
      }
      var placed := FindPlaced(placedByKey, id);
      return if placed.Some? then Some(PROCESSING) else None;
    }

    method CapturedTotal(ref: string) returns (total: Option<nat>)
      ensures total == Captured(State(), Canonical(ref))
    {
      var id := Canonical(ref);
      var entry := Get(orders, id);
      if entry.Some? {
        return Some(entry.value.totalCents);
      }
      var placed := FindPlaced(placedByKey, id);
      return if placed.Some? then Some(placed.value.totalCents) else None;
    }

    method Place(key: string, lines: seq<CartLine>, totalCents: int) returns (r: Result<PlacedOrder, OrderError>)
      requires Valid()
      modifies this
      ensures Valid()
      ensures State() == PlaceCart(old(State()), key, lines, totalCents).state
      ensures r == PlaceCart(old(State()), key, lines, totalCents).result
    {
      PlaceCartKeepsInv(State(), key, lines, totalCents);
      if totalCents < 0 {
        return Failure(InvalidAmount);
      }
      var existing := Get(placedByKey, key);
      if existing.Some? {
        if !PlacementMatches(existing.value, lines, totalCents) {
          return Failure(KeyReused);
        }
        return Success(existing.value);
      }
      if lines == [] {
        return Failure(InvalidRecord);
      }
      var placed := PlacedOrder(OrderId(nextSeq), totalCents, lines);
      nextSeq := nextSeq + 1;
      placedByKey := Put(placedByKey, key, placed);
      return Success(placed);
    }

    method Refund(key: string, ref: string, amountCents: int, destination: string, instrument: string)
      returns (r: Result<RefundRecord, OrderError>)
      requires Valid()
      modifies this
      ensures Valid()
      ensures State() == IssueRefund(old(State()), key, ref, amountCents, destination, instrument).state
      ensures r == IssueRefund(old(State()), key, ref, amountCents, destination, instrument).result
    {
      ghost var s := State();
      IssueRefundKeepsInv(s, key, ref, amountCents, destination, instrument);
      if amountCents < 0 {
        return Failure(InvalidAmount);
      }
      var existing := Get(refundsByKey, key);
      if existing.Some? {
        if !RefundMatches(existing.value, ref, amountCents, destination, instrument) {
          return Failure(KeyReused);
        }
        return Success(existing.value);
      }
      var cleaned := Strip(instrument);
      if cleaned == "" {
        return Failure(EmptyInstrument);
      }
      var captured := CapturedTotal(ref);
      if captured.None? {
        return Failure(UnknownOrder);
      }
      var status := OrderStatus(ref);
      if status == Some(CANCELLED) {
        return Failure(OrderCancelled);
      }
      var id := Canonical(ref);
      var already := ForKey(RefundAmounts(refundsByKey), id);
      var promised := ForKey(ReturnAmounts(returnsByKey), id);
      if already + promised + amountCents > captured.value {
        return Failure(OverBalance);
      }
      if id == "" || destination == "" {
        return Failure(InvalidRecord);
      }
      var record := RefundRecord(RefundId(nextRefundSeq), id, amountCents, destination, cleaned);
      nextRefundSeq := nextRefundSeq + 1;
      refundsByKey := Put(refundsByKey, key, record);
      assert State() == s.(refunds := refundsByKey, nextRefund := nextRefundSeq);
      return Success(record);
    }

    method Return(key: string, ref: string, dueCents: int, destination: string)
      returns (r: Result<ReturnRecord, OrderError>)
      requires Valid()
      modifies this
      ensures Valid()
      ensures State() == CreateReturn(old(State()), key, ref, dueCents, destination).state
      ensures r == CreateReturn(old(State()), key, ref, dueCents, destination).result
    {
      ghost var s := State();
      CreateReturnKeepsInv(s, key, ref, dueCents, destination);
      if dueCents < 0 {
        return Failure(InvalidAmount);
      }
      var existing := Get(returnsByKey, key);
      if existing.Some? {
        if !ReturnMatches(existing.value, ref, dueCents, destination) {
          return Failure(KeyReused);
        }
        return Success(existing.value);
      }
      var id := Canonical(ref);
      var status := OrderStatus(ref);
      if status.None? {
        return Failure(UnknownOrder);
      }
      if status.value != SHIPPED && status.value != DELIVERED {
        return Failure(NotFulfilled);
      }
      if ReturnFor(returnsByKey, id).Some? {
        return Failure(ReturnOpen);
      }
      var captured := CapturedTotal(ref);
      if ForKey(RefundAmounts(refundsByKey), id) + dueCents > captured.value {
        return Failure(OverBalance);
      }
      if id == "" || destination == "" {
        return Failure(InvalidRecord);
      }
      var record := ReturnRecord(RmaId(nextReturnSeq), id, dueCents, destination);
      nextReturnSeq := nextReturnSeq + 1;
      returnsByKey := Put(returnsByKey, key, record);
      assert State() == s.(rmas := returnsByKey, nextReturn := nextReturnSeq);
      return Success(record);
    }

    method Cancel(key: string, ref: string) returns (r: Result<CancelRecord, OrderError>)
      requires Valid()
      modifies this
      ensures Valid()
      ensures State() == CancelOrder(old(State()), key, ref).state
      ensures r == CancelOrder(old(State()), key, ref).result
    {
      ghost var s := State();
      CancelOrderKeepsInv(s, key, ref);
      var existing := Get(cancelsByKey, key);
      if existing.Some? {
        if !CancelMatches(existing.value, ref) {
          return Failure(KeyReused);
        }
        return Success(existing.value);
      }
      var id := Canonical(ref);
      var status := OrderStatus(ref);
      if status.None? {
        return Failure(UnknownOrder);
      }
      if status.value != PROCESSING {
        return Failure(NotCancellable);
      }
      if ForKey(RefundAmounts(refundsByKey), id) > 0 {
        return Failure(HasRefunds);
      }
      var captured := CapturedTotal(ref);
      cancelledIds := cancelledIds + {id};
      if id == "" {
        return Failure(InvalidRecord);
      }
      var record := CancelRecord(id, captured.value);
      cancelsByKey := Put(cancelsByKey, key, record);
      return Success(record);
    }

    /** The receipt read of any effect: it tells what `ReceiptOf` tells and touches nothing. */
    method Lookup(e: Effect) returns (r: Result<Receipt<Record>, OrderError>)
      ensures r == if ValidAmount(e) then Success(ReceiptOf(State(), e)) else Failure(InvalidAmount)
    {
      if !ValidAmount(e) {
        return Failure(InvalidAmount);
      }
      var row: Option<Record>;
      match e {
        case Place(key, _, _) => var p := Get(placedByKey, key); row := if p.Some? then Some(Placed(p.value)) else None;
        case Refund(key, _, _, _, _) =>
          var f := Get(refundsByKey, key);
          row := if f.Some? then Some(Refunded(f.value)) else None;
        case Return(key, _, _, _) =>
          var t := Get(returnsByKey, key);
          row := if t.Some? then Some(Returned(t.value)) else None;
        case Cancel(key, _) => var c := Get(cancelsByKey, key); row := if c.Some? then Some(Voided(c.value)) else None;
      }
      r := Success(Classify(row, row.Some? && Matches(row.value, e)));
    }

    /**
     * The caller's currently cancellable orders, at most `limit` of them, and whether there are more.
     * Reading stops at the first overflow, or at the first reference with no committed placement.
     */
    method OwnedCancellable(customer: string, guestRefs: seq<string>, limit: int)
      returns (r: Result<(seq<string>, bool), ListError>)
      ensures limit < 1 <==> r == Failure(LimitTooSmall)
      ensures limit >= 1 ==> Answers(State(), OwnedOrders(orders, placedByKey, customer, guestRefs), limit, r)
    {
      if limit < 1 {
        return Failure(LimitTooSmall);
      }
      r := TakeCancellable(OwnedOrders(orders, placedByKey, customer, guestRefs), limit);
    }

    method TakeCancellable(listing: seq<Option<string>>, limit: nat) returns (r: Result<(seq<string>, bool), ListError>)
      ensures Answers(State(), listing, limit, r)
    {
      var found: seq<string> := [];
      for i := 0 to |listing|
        invariant found == Cancellables(State(), listing[..i])
        invariant |found| <= limit
        invariant forall k :: 0 <= k < i ==> listing[k].Some?
      {
        CancellablesStep(State(), listing, i);
        if listing[i].None? {
          assert MissesAt(State(), listing, limit, i);
          return Failure(UnknownGuestOrder);
        }
        var status := OrderStatus(listing[i].value);
        if status != Some(PROCESSING) {
          continue;
        }
        if |found| == limit {
          OverflowAnswers(State(), listing, i, limit, found);
          return Success((found, true));
        }
        found := found + [listing[i].value];
      }
      NothingMissed(State(), listing, limit);
      assert listing[..|listing|] == listing && found[..|found|] == found;
      return Success((found, false));
    }
  }
}
