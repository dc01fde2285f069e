/** The session cart and its ledger of confirmed mutations. */
module Cart {
  import opened Results
  import opened Text
  import opened Dicts
  import opened Receipts
  import Orders

  type CartLine = Orders.CartLine

  datatype Operation = Add | Remove | SetQuantity

  datatype Request = Request(
    operation: Operation, sku: string, name: string, priceCents: int, quantity: Option<int>, preConfirm: int)

  datatype Record = Record(request: Request, previous: nat, final: nat, applied: bool)

  datatype CartError = BlankKey | InvalidPrice | KeyReused | BadQuantity | InvalidRecord

  datatype Cart = Cart(lines: seq<CartLine>, mutations: Dict<Record>)

  const EMPTY := Cart([], [])

  // ---------------------------------------------------------------- lines, kept in insertion order

  function LineOf(lines: seq<CartLine>, sku: string): Option<CartLine> {
    if lines == [] then None
    else if lines[0].sku == sku then Some(lines[0])
    else LineOf(lines[1..], sku)
  }

  /** Writing a line keeps its place if its SKU is there already, and goes last otherwise. */
  function SetLine(lines: seq<CartLine>, line: CartLine): seq<CartLine> {
    if lines == [] then [line]
    else if lines[0].sku == line.sku then [line] + lines[1..]
    else [lines[0]] + SetLine(lines[1..], line)
  }

  function DropLine(lines: seq<CartLine>, sku: string): seq<CartLine> {
    if lines == [] then []
    else if lines[0].sku == sku then lines[1..]
    else [lines[0]] + DropLine(lines[1..], sku)
  }

  ghost predicate UniqueSkus(lines: seq<CartLine>) {
    forall i, j :: 0 <= i < j < |lines| ==> lines[i].sku != lines[j].sku
  }

  function Quantity(lines: seq<CartLine>, sku: string): nat {
    if LineOf(lines, sku).Some? then LineOf(lines, sku).value.quantity else 0
  }

  // ---------------------------------------------------------------- confirmed mutations

  /** The validators a receipt must pass whenever it is built or restored. */
  predicate Coherent(r: Record) {
    var q := r.request;
    && q.sku != "" && q.name != "" && q.priceCents >= 0 && q.preConfirm >= 0
    && (q.quantity.Some? ==> q.quantity.value >= 0)
    && (match q.operation
        case Remove => q.quantity.None? && r.final == 0
        case Add => q.quantity.Some? && q.quantity.value >= 1 && r.final == r.previous + q.quantity.value
        case SetQuantity => q.quantity.Some? && r.final == q.quantity.value)
    && (r.applied <==> r.previous != r.final)
  }

  function Final(q: Request, previous: nat): Option<nat> {
    match q.operation
    case Add => if q.quantity.None? || q.quantity.value < 1 then None else Some(previous + q.quantity.value)
    case Remove => if q.quantity.Some? then None else Some(0)
    case SetQuantity => if q.quantity.None? || q.quantity.value < 0 then None else Some(q.quantity.value)
  }

  datatype Changed = Changed(cart: Cart, result: Result<Record, CartError>)

  function Confirm(c: Cart, key: string, q: Request): Changed {
    if Strip(key) == "" then Changed(c, Failure(BlankKey))
    else if q.priceCents < 0 then Changed(c, Failure(InvalidPrice))
    else
      match Get(c.mutations, key)
      case Some(r) => Changed(c, if r.request == q then Success(r) else Failure(KeyReused))
      case None =>
        var previous := Quantity(c.lines, q.sku);
        var final := Final(q, previous);
        if final.None? then Changed(c, Failure(BadQuantity))
        else if q.sku == "" || q.name == "" || q.preConfirm < 0 then Changed(c, Failure(InvalidRecord))
        else
          var r := Record(q, previous, final.value, previous != final.value);
          Changed(Cart(Projected(c.lines, r), Put(c.mutations, key, r)), Success(r))
  }

  /** The lines after a mutation's outcome is written into the cart. */
  function Projected(lines: seq<CartLine>, r: Record): seq<CartLine>
    requires r.request.sku != "" && r.request.name != "" && r.request.priceCents >= 0
  {
    if r.final == 0 then DropLine(lines, r.request.sku) else SetLine(lines, LineFor(r))
  }

  function LineFor(r: Record): CartLine
    requires r.request.sku != "" && r.request.name != "" && r.request.priceCents >= 0 && r.final > 0
  {
    Orders.Line(r.request.sku, r.request.name, r.request.priceCents, r.final)
  }

  /** The read that recovery uses. */
  function MutationReceipt(c: Cart, key: string, q: Request): Result<Receipt<Record>, CartError> {
    if Strip(key) == "" then Failure(BlankKey)
    else if q.priceCents < 0 then Failure(InvalidPrice)
    else
      var row := Get(c.mutations, key);
      Success(Classify(row, row.Some? && row.value.request == q))
  }

  // ---------------------------------------------------------------- export and restore

  datatype SessionState = SessionState(lines: seq<CartLine>, receipts: seq<(string, Record)>)

  /** The validators of an exported state. */
  ghost predicate ValidState(s: SessionState) {
    && UniqueSkus(s.lines) && UniqueKeys(s.receipts)
    && forall i :: 0 <= i < |s.receipts| ==> Strip(s.receipts[i].0) != "" && Coherent(s.receipts[i].1)
  }

  function Export(c: Cart): SessionState {
    SessionState(c.lines, c.mutations)
  }

  /** Writing items one by one into an empty dictionary, later ones over earlier ones. */
  function Rebuilt(lines: seq<CartLine>): seq<CartLine> {
    if lines == [] then [] else SetLine(Rebuilt(lines[..|lines| - 1]), lines[|lines| - 1])
  }

  function SetRow(d: Dict<Record>, key: string, r: Record): Dict<Record> {
    if d == [] then [(key, r)]
    else if d[0].0 == key then [(key, r)] + d[1..]
    else [d[0]] + SetRow(d[1..], key, r)
  }

  function RebuiltRows(rows: seq<(string, Record)>): Dict<Record> {
    if rows == [] then [] else SetRow(RebuiltRows(rows[..|rows| - 1]), rows[|rows| - 1].0, rows[|rows| - 1].1)
  }

  function FromState(s: SessionState): Cart {
    Cart(Rebuilt(s.lines), RebuiltRows(s.receipts))
  }

  class CartStore {
    var lines: seq<CartLine>
    var mutationsByKey: Dict<Record>

    function State(): Cart
      reads this
    {
      Cart(lines, mutationsByKey)
    }

    constructor ()
      ensures State() == EMPTY
    {
      lines, mutationsByKey := [], [];
    }

    constructor Restored(s: SessionState)
      ensures State() == FromState(s)
    {
      var cart: seq<CartLine> := [];
      for i := 0 to |s.lines|
        invariant cart == Rebuilt(s.lines[..i])
      {
        assert s.lines[..i + 1][..i] == s.lines[..i];
        cart := SetLine(cart, s.lines[i]);
      }
      var rows: Dict<Record> := [];
      for i := 0 to |s.receipts|
        invariant rows == RebuiltRows(s.receipts[..i])
      {
        assert s.receipts[..i + 1][..i] == s.receipts[..i];
        rows := SetRow(rows, s.receipts[i].0, s.receipts[i].1);
      }
      assert s.lines[..|s.lines|] == s.lines && s.receipts[..|s.receipts|] == s.receipts;
      lines, mutationsByKey := cart, rows;
    }

    method ApplyConfirmedMutation(key: string, q: Request) returns (r: Result<Record, CartError>)
      modifies this
      ensures Changed(State(), r) == Confirm(old(State()), key, q)
    {
      if Strip(key) == "" {
        return Failure(BlankKey);
      }
      if q.priceCents < 0 {
        return Failure(InvalidPrice);
      }
      var existing := Get(mutationsByKey, key);
      if existing.Some? {
        if existing.value.request != q {
          return Failure(KeyReused);
        }
        return Success(existing.value);
      }
      var current := LineOf(lines, q.sku);
      var previous := if current.Some? then current.value.quantity else 0;
      var final: nat := 0;
      match q.operation {
        case Add =>
          if q.quantity.None? || q.quantity.value < 1 {
            return Failure(BadQuantity);
          }
          final := previous + q.quantity.value;
        case Remove =>
          if q.quantity.Some? {
            return Failure(BadQuantity);
          }
        case SetQuantity =>
          if q.quantity.None? || q.quantity.value < 0 {
            return Failure(BadQuantity);
          }
          final := q.quantity.value;
      }
      if q.sku == "" || q.name == "" || q.preConfirm < 0 {
        return Failure(InvalidRecord);
      }
      var record := Record(q, previous, final, previous != final);
      if final == 0 {
        lines := DropLine(lines, q.sku);
      } else {
        lines := SetLine(lines, Orders.Line(q.sku, q.name, q.priceCents, final));
      }
      mutationsByKey := Put(mutationsByKey, key, record);
      return Success(record);
    }

    method ClearAll()
      modifies this
      ensures State() == EMPTY
    {
      lines, mutationsByKey := [], [];
    }
  }

  // ---------------------------------------------------------------- the ledger refines the cart

  datatype Step = Confirms(key: string, request: Request) | Clears

  function After(c: Cart, step: Step): Cart {
    match step
    case Confirms(key, request) => Confirm(c, key, request).cart
    case Clears => EMPTY
  }

  function Run(steps: seq<Step>): Cart {
    RunFrom(EMPTY, steps)
  }

  function RunFrom(c: Cart, steps: seq<Step>): Cart {
    if steps == [] then c else After(RunFrom(c, steps[..|steps| - 1]), steps[|steps| - 1])
  }

  /** The last receipt for a SKU, in the order the mutations were confirmed. */
  function LastFor(rows: Dict<Record>, sku: string): Option<Record> {
    if rows == [] then None
    else if rows[|rows| - 1].1.request.sku == sku then Some(rows[|rows| - 1].1)
    else LastFor(rows[..|rows| - 1], sku)
  }

  function FinalFor(rows: Dict<Record>, sku: string): nat {
    if LastFor(rows, sku).Some? then LastFor(rows, sku).value.final else 0
  }

  /** Receipts chain: each starts from the final quantity of the receipt before it for that SKU. */
  ghost predicate Chained(rows: Dict<Record>) {
    forall i :: 0 <= i < |rows| ==> rows[i].1.previous == FinalFor(rows[..i], rows[i].1.request.sku)
  }

  /** A line shows what the last receipt for its SKU decided, and nothing else is in the cart. */
  ghost predicate Projects(c: Cart) {
    forall sku :: LineOf(c.lines, sku) == Shown(LastFor(c.mutations, sku))
  }

  /** The line a receipt leaves in the cart: its own item, name, price and final quantity, or none. */
  function Shown(last: Option<Record>): Option<CartLine> {
    if last.Some? && last.value.final > 0 && Coherent(last.value) then Some(LineFor(last.value)) else None
  }

  ghost predicate Inv(c: Cart) {
    ValidState(Export(c)) && Chained(c.mutations) && Projects(c)
  }

  lemma {:induction false} SetLineReads(lines: seq<CartLine>, line: CartLine, sku: string)
    ensures LineOf(SetLine(lines, line), sku) == if sku == line.sku then Some(line) else LineOf(lines, sku)
  {
    if lines != [] && lines[0].sku != line.sku {
      assert SetLine(lines, line)[1..] == SetLine(lines[1..], line);
      SetLineReads(lines[1..], line, sku);
    } else if lines != [] {
      assert SetLine(lines, line)[1..] == lines[1..];
    }
  }

  lemma {:induction false} LineOfAbsent(lines: seq<CartLine>, sku: string)
    ensures LineOf(lines, sku).None? <==> forall i :: 0 <= i < |lines| ==> lines[i].sku != sku
    ensures LineOf(lines, sku).Some? ==> LineOf(lines, sku).value.sku == sku
  {
    if lines != [] && lines[0].sku != sku {
      LineOfAbsent(lines[1..], sku);
      assert forall i :: 0 < i < |lines| ==> lines[i] == lines[1..][i - 1];
    }
  }

  lemma {:induction false} DropLineReads(lines: seq<CartLine>, gone: string, sku: string)
    requires UniqueSkus(lines)
    ensures LineOf(DropLine(lines, gone), sku) == if sku == gone then None else LineOf(lines, sku)
  {
    if lines != [] && lines[0].sku != gone {
      assert DropLine(lines, gone)[1..] == DropLine(lines[1..], gone);
      DropLineReads(lines[1..], gone, sku);
    } else if lines != [] {
      LineOfAbsent(lines[1..], gone);
    }
  }

  /** Skus stay unique: a write adds at most its own, a drop adds none. */
  lemma {:induction false} SetLineUnique(lines: seq<CartLine>, line: CartLine)
    requires UniqueSkus(lines)
    ensures UniqueSkus(SetLine(lines, line))
    ensures forall l :: l in SetLine(lines, line) ==> l.sku == line.sku || exists k :: k in lines && k.sku == l.sku
  {
    if lines != [] && lines[0].sku != line.sku {
      SetLineUnique(lines[1..], line);
      var rest := SetLine(lines[1..], line);
      forall j | 0 <= j < |rest|
        ensures rest[j].sku != lines[0].sku
      {
        assert rest[j] in rest;
      }
    }
  }

  lemma {:induction false} DropLineUnique(lines: seq<CartLine>, sku: string)
    requires UniqueSkus(lines)
    ensures UniqueSkus(DropLine(lines, sku))
    ensures forall l :: l in DropLine(lines, sku) ==> l in lines
  {
    if lines != [] && lines[0].sku != sku {
      DropLineUnique(lines[1..], sku);
      var rest := DropLine(lines[1..], sku);
      forall j | 0 <= j < |rest|
        ensures rest[j].sku != lines[0].sku
      {
        assert rest[j] in rest;
      }
    }
  }

  lemma LastForPut(rows: Dict<Record>, key: string, r: Record, sku: string)
    ensures LastFor(Put(rows, key, r), sku) == if r.request.sku == sku then Some(r) else LastFor(rows, sku)
  {
  }

  lemma ConfirmKeepsInv(c: Cart, key: string, q: Request)
    requires Inv(c)
    ensures Inv(Confirm(c, key, q).cart)
  {
    var c' := Confirm(c, key, q).cart;
    if c' != c {
      var r := Confirm(c, key, q).result.value;
      RecordAdded(c, c', key, r);
    }
  }

  lemma RecordAdded(c: Cart, c': Cart, key: string, r: Record)
    requires Inv(c) && Coherent(r) && Strip(key) != "" && Get(c.mutations, key).None?
    requires r.previous == Quantity(c.lines, r.request.sku)
    requires c' == Cart(Projected(c.lines, r), Put(c.mutations, key, r))
    ensures Inv(c')
  {
    UniquePut(c.mutations, key, r);
    if r.final == 0 {
      DropLineUnique(c.lines, r.request.sku);
    } else {
      SetLineUnique(c.lines, LineFor(r));
    }
    QuantityIsLastFinal(c, r.request.sku);
    ChainGrows(c.mutations, key, r);
    ProjectionFollows(c, c', key, r);
  }

  lemma ChainGrows(rows: Dict<Record>, key: string, r: Record)
    requires Chained(rows) && r.previous == FinalFor(rows, r.request.sku)
    ensures Chained(Put(rows, key, r))
  {
    var rows' := Put(rows, key, r);
    forall i | 0 <= i < |rows'|
      ensures rows'[i].1.previous == FinalFor(rows'[..i], rows'[i].1.request.sku)
    {
      assert rows'[..i] == rows[..i];
      assert i == |rows| ==> rows[..i] == rows;
    }
  }

  lemma ProjectionFollows(c: Cart, c': Cart, key: string, r: Record)
    requires Projects(c) && UniqueSkus(c.lines) && Coherent(r)
    requires c' == Cart(Projected(c.lines, r), Put(c.mutations, key, r))
    ensures Projects(c')
  {
    forall sku
      ensures LineOf(c'.lines, sku) == Shown(LastFor(c'.mutations, sku))
    {
      LastForPut(c.mutations, key, r, sku);
      if r.final == 0 {
        DropLineReads(c.lines, r.request.sku, sku);
      } else {
        SetLineReads(c.lines, LineFor(r), sku);
      }
    }
  }

  /** From an empty cart changed only by confirmed mutations, the cart is what its ledger says, always. */
  lemma {:induction false} RunKeepsInv(steps: seq<Step>)
    ensures Inv(Run(steps))
  {
    if steps != [] {
      var c := Run(steps[..|steps| - 1]);
      RunKeepsInv(steps[..|steps| - 1]);
      match steps[|steps| - 1]
      case Confirms(key, request) => ConfirmKeepsInv(c, key, request);
      case Clears =>
    }
  }

  /** With a fresh key the guards and the receipt validator agree: a request passes if and only if some receipt for it is valid. */
  lemma AcceptedIffSomeReceiptIsValid(c: Cart, key: string, q: Request)
    requires Strip(key) != "" && Get(c.mutations, key).None?
    ensures Confirm(c, key, q).result.Success?
            <==> exists final: nat, applied :: Coherent(Record(q, Quantity(c.lines, q.sku), final, applied))
  {
    var previous := Quantity(c.lines, q.sku);
    if Confirm(c, key, q).result.Success? {
      assert Coherent(Record(q, previous, Final(q, previous).value, previous != Final(q, previous).value));
    }
  }

  /** Each line's quantity is the final quantity of the last receipt for its SKU. */
  lemma QuantityIsLastFinal(c: Cart, sku: string)
    requires Inv(c)
    ensures Quantity(c.lines, sku) == FinalFor(c.mutations, sku)
  {
    LastForCoherent(c.mutations, sku);
  }

  lemma {:induction false} LastForCoherent(rows: Dict<Record>, sku: string)
    requires forall i :: 0 <= i < |rows| ==> Coherent(rows[i].1)
    ensures LastFor(rows, sku).Some? ==> Coherent(LastFor(rows, sku).value) && LastFor(rows, sku).value.request.sku == sku
  {
    if rows != [] && rows[|rows| - 1].1.request.sku != sku {
      LastForCoherent(rows[..|rows| - 1], sku);
    }
  }

  function Deltas(rows: Dict<Record>, sku: string): int {
    if rows == [] then 0
    else
      var r := rows[|rows| - 1].1;
      Deltas(rows[..|rows| - 1], sku) + if r.request.sku == sku then r.final - r.previous else 0
  }

  /** The changes the receipts report for a SKU add up to what the cart holds of it. */
  lemma {:induction false} DeltasAddUp(rows: Dict<Record>, sku: string)
    requires Chained(rows)
    ensures Deltas(rows, sku) == FinalFor(rows, sku)
  {
    if rows != [] {
      var rest := rows[..|rows| - 1];
      forall i | 0 <= i < |rest|
        ensures rest[i].1.previous == FinalFor(rest[..i], rest[i].1.request.sku)
      {
        assert rest[..i] == rows[..i];
      }
      DeltasAddUp(rest, sku);
    }
  }

  /** A replayed confirmation returns its first receipt, any refusal explains itself, and neither changes the cart. */
  lemma ReplayAndRefusalAreInert(c: Cart, key: string, q: Request)
    ensures Confirm(c, key, q).result.Failure? ==> Confirm(c, key, q).cart == c
    ensures Confirm(c, key, q).result.Success? ==>
              var (c', r) := (Confirm(c, key, q).cart, Confirm(c, key, q).result.value);
              && Confirm(c', key, q) == Changed(c', Success(r))
              && MutationReceipt(c', key, q) == Success(Committed(r))
              && (forall q' :: q' != q && q'.priceCents >= 0 ==>
                    Confirm(c', key, q') == Changed(c', Failure(KeyReused))
                    && MutationReceipt(c', key, q') == Success(KeyConflict))
  {
  }

  // ---------------------------------------------------------------- a crash around a mutation

  /** Other mutations leave the row under a key alone; clearing the cart takes every row. */
  lemma {:induction false} RowAfterSteps(c: Cart, others: seq<Step>, key: string)
    requires forall s :: s in others && s.Confirms? ==> s.key != key
    ensures Get(RunFrom(c, others).mutations, key) == if Clears in others then None else Get(c.mutations, key)
  {
    if others != [] {
      var before, last := others[..|others| - 1], others[|others| - 1];
      assert others == before + [last] && last in others;
      assert forall s :: s in others <==> s in before || s == last;
      RowAfterSteps(c, before, key);
      if last.Confirms? {
        RowAfterConfirm(RunFrom(c, before), last.key, last.request, key);
      }
    }
  }

  lemma RowAfterConfirm(c: Cart, key: string, q: Request, other: string)
    ensures var changed := Confirm(c, key, q);
            Get(changed.cart.mutations, other)
            == if changed.result.Success? && other == key then Some(changed.result.value) else Get(c.mutations, other)
  {
    var changed := Confirm(c, key, q);
    if changed.cart != c {
      GetPut(c.mutations, key, changed.result.value, other);
    }
  }

  /** The cart a crash around this mutation leaves: before its commit or after it. */
  function AtCrash(c: Cart, key: string, q: Request, committed: bool): Cart {
    if committed then Confirm(c, key, q).cart else c
  }

  /**
   * Exactly once through a crash. Whatever else changes the cart between the crash and the recovery, the
   * receipt says committed, with the very record the mutation made, exactly when the mutation had gone
   * through and the cart was not cleared since; a retry then returns that record and changes nothing.
   */
  lemma CrashReceiptAgrees(c: Cart, key: string, q: Request, committed: bool, others: seq<Step>)
    requires Strip(key) != "" && q.priceCents >= 0 && Get(c.mutations, key).None?
    requires forall s :: s in others && s.Confirms? ==> s.key != key
    ensures var later := RunFrom(AtCrash(c, key, q, committed), others);
            var result := Confirm(c, key, q).result;
            if committed && result.Success? && Clears !in others then
              && MutationReceipt(later, key, q) == Success(Committed(result.value))
              && Confirm(later, key, q) == Changed(later, result)
            else
              MutationReceipt(later, key, q) == Success(NotCommitted)
  {
    RowAfterConfirm(c, key, q, key);
    RowAfterSteps(AtCrash(c, key, q, committed), others, key);
  }

  // ---------------------------------------------------------------- export and restore

  lemma {:induction false} SetLineAppends(lines: seq<CartLine>, line: CartLine)
    requires forall i :: 0 <= i < |lines| ==> lines[i].sku != line.sku
    ensures SetLine(lines, line) == lines + [line]
  {
    if lines != [] {
      SetLineAppends(lines[1..], line);
    }
  }

  lemma {:induction false} RebuiltUnique(lines: seq<CartLine>)
    requires UniqueSkus(lines)
    ensures Rebuilt(lines) == lines
  {
    if lines != [] {
      var n := |lines| - 1;
      RebuiltUnique(lines[..n]);
      SetLineAppends(lines[..n], lines[n]);
    }
  }

  lemma {:induction false} SetRowAppends(rows: Dict<Record>, key: string, r: Record)
    requires forall i :: 0 <= i < |rows| ==> rows[i].0 != key
    ensures SetRow(rows, key, r) == rows + [(key, r)]
  {
    if rows != [] {
      SetRowAppends(rows[1..], key, r);
    }
  }

  lemma {:induction false} RebuiltRowsUnique(rows: seq<(string, Record)>)
    requires UniqueKeys(rows)
    ensures RebuiltRows(rows) == rows
  {
    if rows != [] {
      var n := |rows| - 1;
      RebuiltRowsUnique(rows[..n]);
      SetRowAppends(rows[..n], rows[n].0, rows[n].1);
    }
  }

  /** Every reachable cart exports to a valid state, and restoring it gives the same cart back, order included. */
  lemma ExportRestoreIdentity(steps: seq<Step>)
    ensures ValidState(Export(Run(steps))) && FromState(Export(Run(steps))) == Run(steps)
  {
    RunKeepsInv(steps);
    RebuiltUnique(Run(steps).lines);
    RebuiltRowsUnique(Run(steps).mutations);
  }

  /** A restored cart goes on exactly as the exported one would have. */
  lemma RestoredCartContinues(steps: seq<Step>, next: Step)
    ensures After(FromState(Export(Run(steps))), next) == Run(steps + [next])
  {
    ExportRestoreIdentity(steps);
    assert (steps + [next])[..|steps|] == steps;
  }

  // ---------------------------------------------------------------- every answer, exactly

  /** What a confirmed mutation does: add adds, remove removes, set sets, to its own item only. */
  lemma ConfirmSays(c: Cart, key: string, q: Request, other: string)
    requires Inv(c) && Strip(key) != "" && Get(c.mutations, key).None?
    requires q.priceCents >= 0 && q.sku != "" && q.name != "" && q.preConfirm >= 0
    ensures var changed := Confirm(c, key, q);
            var before := Quantity(c.lines, q.sku);
            var asked := match q.operation
                         case Add => q.quantity.Some? && q.quantity.value >= 1
                         case Remove => q.quantity.None?
                         case SetQuantity => q.quantity.Some? && q.quantity.value >= 0;
            && (changed.result == Failure(BadQuantity) <==> !asked)
            && (changed.result.Success? <==> asked)
            && (asked ==>
                  var after := match q.operation
                               case Add => before + q.quantity.value
                               case Remove => 0
                               case SetQuantity => q.quantity.value;
                  && changed.result.value == Record(q, before, after, before != after)
                  && changed.cart.mutations == c.mutations + [(key, changed.result.value)]
                  && Quantity(changed.cart.lines, q.sku) == after
                  && (after > 0 ==> LineOf(changed.cart.lines, q.sku) == Some(Orders.Line(q.sku, q.name, q.priceCents, after)))
                  && (other != q.sku ==> LineOf(changed.cart.lines, other) == LineOf(c.lines, other)))
  {
    var changed := Confirm(c, key, q);
    if changed.result.Success? {
      var r := changed.result.value;
      if r.final == 0 {
        DropLineReads(c.lines, q.sku, q.sku);
        DropLineReads(c.lines, q.sku, other);
      } else {
        SetLineReads(c.lines, LineFor(r), q.sku);
        SetLineReads(c.lines, LineFor(r), other);
      }
    }
  }

  /** What else is refused, before any of that, and what a used key answers. */
  lemma ConfirmRefuses(c: Cart, key: string, q: Request)
    ensures var changed := Confirm(c, key, q);
            var unused := Get(c.mutations, key).None?;
            && (changed.result == Failure(BlankKey) <==> Strip(key) == "")
            && (changed.result == Failure(InvalidPrice) <==> Strip(key) != "" && q.priceCents < 0)
            && (changed.result == Failure(KeyReused) <==>
                  Strip(key) != "" && q.priceCents >= 0 && !unused && Get(c.mutations, key).value.request != q)
            && (Strip(key) != "" && q.priceCents >= 0 && !unused && Get(c.mutations, key).value.request == q ==>
                  changed == Changed(c, Success(Get(c.mutations, key).value)))
            && (changed.result.Failure? ==> changed.cart == c)
            && (changed.result.Success? && unused ==> q.sku != "" && q.name != "" && q.preConfirm >= 0)
  {
  }

  /** The SKUs of a cart, in its order. */
  function Skus(lines: seq<CartLine>): seq<string> {
    if lines == [] then [] else [lines[0].sku] + Skus(lines[1..])
  }

  /** Writing a line keeps every line in its place and puts a new item last. */
  lemma {:induction false} SetLineKeepsPlaces(lines: seq<CartLine>, line: CartLine)
    ensures Skus(SetLine(lines, line)) == if line.sku in Skus(lines) then Skus(lines) else Skus(lines) + [line.sku]
  {
    if lines != [] {
      if lines[0].sku == line.sku {
        assert ([line] + lines[1..])[1..] == lines[1..];
      } else {
        SetLineKeepsPlaces(lines[1..], line);
        var rest := SetLine(lines[1..], line);
        assert ([lines[0]] + rest)[1..] == rest;
      }
    }
  }

  /** Dropping an item takes its line out and leaves the others in their order. */
  lemma {:induction false} DropLineKeepsOthers(before: seq<CartLine>, line: CartLine, after: seq<CartLine>)
    requires forall i :: 0 <= i < |before| ==> before[i].sku != line.sku
    ensures DropLine(before + [line] + after, line.sku) == before + after
  {
    if before != [] {
      assert (before + [line] + after)[1..] == before[1..] + [line] + after;
      DropLineKeepsOthers(before[1..], line, after);
      assert [before[0]] + (before[1..] + after) == before + after;
    } else {
      assert before + [line] + after == [line] + after;
      assert ([line] + after)[1..] == after == before + after;
    }
  }

  /** The receipt read, by the row under its key: none, this very request's, or another's. */
  lemma ReceiptAnswers(c: Cart, key: string, q: Request)
    ensures var r := MutationReceipt(c, key, q);
            var row := Get(c.mutations, key);
            && (r == Failure(BlankKey) <==> Strip(key) == "")
            && (r == Failure(InvalidPrice) <==> Strip(key) != "" && q.priceCents < 0)
            && (Strip(key) != "" && q.priceCents >= 0 ==>
                  r == Success(if row.None? then NotCommitted
                               else if row.value.request == q then Committed(row.value) else KeyConflict))
  {
  }
}
