/**
 * The order store's four idempotency ledgers (placements, refunds, returns, cancellations) as one
 * value, and what each operation does to it. `OrderStore` is the class that keeps this value.
 */
module Orders {
  import opened Results
  import opened Text
  import opened Dicts
  import opened Amounts
  import opened Receipts

  const PROCESSING := "processing"
  const SHIPPED := "shipped"
  const DELIVERED := "delivered"
  const CANCELLED := "cancelled"

  // The parts of a fixture entry that decide anything; summaries and dates are spoken copy.
  datatype Entry = Entry(status: string, totalCents: nat, customer: string)

  datatype Line = Line(sku: string, name: string, priceCents: nat, quantity: nat)

  type CartLine = l: Line | l.sku != "" && l.name != "" && l.quantity >= 1
    witness Line("S", "n", 0, 1)

  datatype PlacedOrder = PlacedOrder(orderId: string, totalCents: nat, lines: seq<CartLine>)
  datatype RefundRecord = RefundRecord(
    refundId: string, orderId: string, amountCents: nat, destination: string, instrument: string)
  datatype ReturnRecord = ReturnRecord(
    rmaId: string, orderId: string, dueCents: nat, destination: string)
  datatype CancelRecord = CancelRecord(orderId: string, totalCents: nat)

  datatype OrderError =
    | InvalidAmount | InvalidRecord | KeyReused | EmptyInstrument | UnknownOrder | OrderCancelled
    | OverBalance | NotFulfilled | ReturnOpen | NotCancellable | HasRefunds

  datatype State = State(
    orders: Dict<Entry>,
    placed: Dict<PlacedOrder>, nextSeq: nat,
    refunds: Dict<RefundRecord>, nextRefund: nat,
    rmas: Dict<ReturnRecord>, nextReturn: nat,
    cancels: Dict<CancelRecord>, cancelledIds: set<string>)

  datatype Applied<+T> = Applied(state: State, result: Result<T, OrderError>)

  function OrderId(n: nat): string { "ORD-" + Decimal(n) }
  function RefundId(n: nat): string { "R-" + Decimal(n) }
  function RmaId(n: nat): string { "RMA-" + Decimal(n) }

  function Fresh(orders: Dict<Entry>): State {
    State(orders, [], 9001, [], 7001, [], 3001, [], {})
  }

  // ---------------------------------------------------------------- reads

  /** The first committed placement with this order id, in ledger order. */
  function FindPlaced(placed: Dict<PlacedOrder>, id: string): (r: Option<PlacedOrder>)
    ensures r.Some? ==> exists i :: 0 <= i < |placed| && placed[i].1 == r.value && r.value.orderId == id
    ensures r.None? ==> forall i :: 0 <= i < |placed| ==> placed[i].1.orderId != id
  {
    if placed == [] then None
    else if placed[0].1.orderId == id then Some(placed[0].1)
    else FindPlaced(placed[1..], id)
  }

  function ReturnFor(rmas: Dict<ReturnRecord>, id: string): (r: Option<ReturnRecord>)
    ensures r.Some? ==> exists i :: 0 <= i < |rmas| && rmas[i].1 == r.value && r.value.orderId == id
    ensures r.None? ==> forall i :: 0 <= i < |rmas| ==> rmas[i].1.orderId != id
  {
    if rmas == [] then None
    else if rmas[0].1.orderId == id then Some(rmas[0].1)
    else ReturnFor(rmas[1..], id)
  }

  /** The status an order was recorded with, before any cancellation overlay. */
  function BaseStatus(s: State, id: string): Option<string> {
    match Get(s.orders, id)
    case Some(entry) => Some(entry.status)
    case None => if FindPlaced(s.placed, id).Some? then Some(PROCESSING) else None
  }

  function Status(s: State, id: string): Option<string> {
    if id in s.cancelledIds then Some(CANCELLED) else BaseStatus(s, id)
  }

  function Captured(s: State, id: string): Option<nat> {
    match Get(s.orders, id)
    case Some(entry) => Some(entry.totalCents)
    case None =>
      match FindPlaced(s.placed, id)
      case Some(order) => Some(order.totalCents)
      case None => None
  }

  function RefundAmounts(refunds: Dict<RefundRecord>): (cs: seq<Amount>)
    ensures |cs| == |refunds|
    ensures forall i :: 0 <= i < |cs| ==> cs[i] == Amount(refunds[i].1.orderId, refunds[i].1.amountCents)
  {
    seq(|refunds|, i requires 0 <= i < |refunds| => Amount(refunds[i].1.orderId, refunds[i].1.amountCents))
  }

  function ReturnAmounts(rmas: Dict<ReturnRecord>): (cs: seq<Amount>)
    ensures |cs| == |rmas|
    ensures forall i :: 0 <= i < |cs| ==> cs[i] == Amount(rmas[i].1.orderId, rmas[i].1.dueCents)
  {
    seq(|rmas|, i requires 0 <= i < |rmas| => Amount(rmas[i].1.orderId, rmas[i].1.dueCents))
  }

  function CancelAmounts(cancels: Dict<CancelRecord>): (cs: seq<Amount>)
    ensures |cs| == |cancels|
    ensures forall i :: 0 <= i < |cs| ==> cs[i] == Amount(cancels[i].1.orderId, cancels[i].1.totalCents)
  {
    seq(|cancels|, i requires 0 <= i < |cancels| => Amount(cancels[i].1.orderId, cancels[i].1.totalCents))
  }

  function RefundedSoFar(s: State, id: string): nat {
    ForKey(RefundAmounts(s.refunds), id)
  }

  function ReturnRefundDue(s: State, id: string): nat {
    ForKey(ReturnAmounts(s.rmas), id)
  }

  // ---------------------------------------------------------------- effects

  predicate PlacementMatches(r: PlacedOrder, lines: seq<CartLine>, totalCents: int) {
    r.totalCents == totalCents && r.lines == lines
  }

  predicate RefundMatches(r: RefundRecord, ref: string, amountCents: int, destination: string, instrument: string) {
    && r.orderId == Canonical(ref)
    && r.amountCents == amountCents
    && r.destination == destination
    && r.instrument == Strip(instrument)
  }

  predicate ReturnMatches(r: ReturnRecord, ref: string, dueCents: int, destination: string) {
    r.orderId == Canonical(ref) && r.dueCents == dueCents && r.destination == destination
  }

  predicate CancelMatches(r: CancelRecord, ref: string) {
    r.orderId == Canonical(ref)
  }

  function Refuse<T>(s: State, error: OrderError): Applied<T> {
    Applied(s, Failure(error))
  }

  function PlaceCart(s: State, key: string, lines: seq<CartLine>, totalCents: int): Applied<PlacedOrder> {
    if totalCents < 0 then Refuse(s, InvalidAmount)
    else
      match Get(s.placed, key)
      case Some(existing) =>
        if PlacementMatches(existing, lines, totalCents) then Applied(s, Success(existing))
        else Refuse(s, KeyReused)
      case None =>
        if lines == [] then Refuse(s, InvalidRecord)
        else
          var order := PlacedOrder(OrderId(s.nextSeq), totalCents, lines);
          Applied(s.(placed := Put(s.placed, key, order), nextSeq := s.nextSeq + 1), Success(order))
  }

  function IssueRefund(s: State, key: string, ref: string, amountCents: int, destination: string, instrument: string)
    : Applied<RefundRecord>
  {
    if amountCents < 0 then Refuse(s, InvalidAmount)
    else
      match Get(s.refunds, key)
      case Some(existing) =>
        if RefundMatches(existing, ref, amountCents, destination, instrument) then Applied(s, Success(existing))
        else Refuse(s, KeyReused)
      case None =>
        var id := Canonical(ref);
        if Strip(instrument) == "" then Refuse(s, EmptyInstrument)
        else if Captured(s, id).None? then Refuse(s, UnknownOrder)
        else if Status(s, id) == Some(CANCELLED) then Refuse(s, OrderCancelled)
        else if RefundedSoFar(s, id) + ReturnRefundDue(s, id) + amountCents > Captured(s, id).value then
          Refuse(s, OverBalance)
        else if id == "" || destination == "" then Refuse(s, InvalidRecord)
        else
          var record := RefundRecord(RefundId(s.nextRefund), id, amountCents, destination, Strip(instrument));
          Applied(s.(refunds := Put(s.refunds, key, record), nextRefund := s.nextRefund + 1), Success(record))
  }

  function CreateReturn(s: State, key: string, ref: string, dueCents: int, destination: string): Applied<ReturnRecord> {
    if dueCents < 0 then Refuse(s, InvalidAmount)
    else
      match Get(s.rmas, key)
      case Some(existing) =>
        if ReturnMatches(existing, ref, dueCents, destination) then Applied(s, Success(existing))
        else Refuse(s, KeyReused)
      case None =>
        var id := Canonical(ref);
        var status := Status(s, id);
        if status.None? then Refuse(s, UnknownOrder)
        else if status.value != SHIPPED && status.value != DELIVERED then Refuse(s, NotFulfilled)
        else if ReturnFor(s.rmas, id).Some? then Refuse(s, ReturnOpen)
        // No promised term: the open-return check has just shown there is nothing promised.
        else if RefundedSoFar(s, id) + dueCents > Captured(s, id).value then Refuse(s, OverBalance)
        else if id == "" || destination == "" then Refuse(s, InvalidRecord)
        else
          var record := ReturnRecord(RmaId(s.nextReturn), id, dueCents, destination);
          Applied(s.(rmas := Put(s.rmas, key, record), nextReturn := s.nextReturn + 1), Success(record))
  }

  function CancelOrder(s: State, key: string, ref: string): Applied<CancelRecord> {
    match Get(s.cancels, key)
    case Some(existing) =>
      if CancelMatches(existing, ref) then Applied(s, Success(existing)) else Refuse(s, KeyReused)
    case None =>
      var id := Canonical(ref);
      var status := Status(s, id);
      if status.None? then Refuse(s, UnknownOrder)
      else if status.value != PROCESSING then Refuse(s, NotCancellable)
      else if RefundedSoFar(s, id) > 0 then Refuse(s, HasRefunds)
      else
        // The overlay is written before the record is validated, so a blank id leaves it behind.
        var marked := s.(cancelledIds := s.cancelledIds + {id});
        if id == "" then Refuse(marked, InvalidRecord)
        else
          var record := CancelRecord(id, Captured(s, id).value);
          Applied(marked.(cancels := Put(s.cancels, key, record)), Success(record))
  }

  // ---------------------------------------------------------------- effects and receipts as one language

  datatype Effect =
    | Place(key: string, lines: seq<CartLine>, totalCents: int)
    | Refund(key: string, ref: string, amountCents: int, destination: string, instrument: string)
    | Return(key: string, ref: string, dueCents: int, destination: string)
    | Cancel(key: string, ref: string)

  datatype Record =
    | Placed(placed: PlacedOrder)
    | Refunded(refund: RefundRecord)
    | Returned(ret: ReturnRecord)
    | Voided(cancel: CancelRecord)

  function Lift<T>(a: Applied<T>, wrap: T -> Record): Applied<Record> {
    Applied(a.state, match a.result case Success(v) => Success(wrap(v)) case Failure(e) => Failure(e))
  }

  function Apply(s: State, e: Effect): Applied<Record> {
    match e
    case Place(key, lines, total) => Lift(PlaceCart(s, key, lines, total), r => Placed(r))
    case Refund(key, ref, amount, destination, instrument) =>
      Lift(IssueRefund(s, key, ref, amount, destination, instrument), r => Refunded(r))
    case Return(key, ref, due, destination) => Lift(CreateReturn(s, key, ref, due, destination), r => Returned(r))
    case Cancel(key, ref) => Lift(CancelOrder(s, key, ref), r => Voided(r))
  }

  function Run(s: State, es: seq<Effect>): State {
    if es == [] then s else Apply(Run(s, es[..|es| - 1]), es[|es| - 1]).state
  }

  /** The ledger row under an effect's key, in the ledger of that effect's kind. */
  function Row(s: State, e: Effect): Option<Record> {
    match e
    case Place(key, _, _) => (match Get(s.placed, key) case Some(r) => Some(Placed(r)) case None => None)
    case Refund(key, _, _, _, _) => (match Get(s.refunds, key) case Some(r) => Some(Refunded(r)) case None => None)
    case Return(key, _, _, _) => (match Get(s.rmas, key) case Some(r) => Some(Returned(r)) case None => None)
    case Cancel(key, _) => (match Get(s.cancels, key) case Some(r) => Some(Voided(r)) case None => None)
  }

  predicate Matches(r: Record, e: Effect) {
    match (r, e)
    case (Placed(p), Place(_, lines, total)) => PlacementMatches(p, lines, total)
    case (Refunded(f), Refund(_, ref, amount, destination, instrument)) =>
      RefundMatches(f, ref, amount, destination, instrument)
    case (Returned(t), Return(_, ref, due, destination)) => ReturnMatches(t, ref, due, destination)
    case (Voided(c), Cancel(_, ref)) => CancelMatches(c, ref)
    case _ => false
  }

  /** The four `*_receipt` reads. */
  function ReceiptOf(s: State, e: Effect): Receipt<Record> {
    Classify(Row(s, e), Row(s, e).Some? && Matches(Row(s, e).value, e))
  }

  /** Amounts the receipt reads and the effects both accept (`validate_usd`). */
  predicate ValidAmount(e: Effect) {
    match e
    case Place(_, _, total) => total >= 0
    case Refund(_, _, amount, _, _) => amount >= 0
    case Return(_, _, due, _) => due >= 0
    case Cancel(_, _) => true
  }
}
