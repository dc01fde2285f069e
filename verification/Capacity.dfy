/**
 * Capacity accounting of a routing-data acquisition plan: the running tallies over coverage cells,
 * and the totals an accepted plan guarantees.
 */
module Capacity {
  import opened Results
  import opened Text
  import opened Amounts

  datatype Role = Primary | Secondary | Adjudicator

  datatype Source = Source(id: string, isFixture: bool, locales: seq<string>, maxExamples: nat, cost: nat)
  datatype Reviewer = Reviewer(id: string, role: Role, capacity: nat)

  /**
   * A coverage cell. An allocation counts planned examples against a source; `rest` renders what else the
   * cell obliges: partition, expected route, risk, scenario and context.
   */
  datatype Cell = Cell(
    id: string,
    domain: string,
    locale: string,
    allocations: seq<Amount>,
    projectedFixture: bool,
    registryCohort: bool,
    capabilities: seq<string>,
    families: seq<string>,
    isCritical: bool,
    rest: string,
    planned: nat,
    minClusters: nat,
    primary: string,
    secondary: Option<string>)

  datatype Plan = Plan(
    texts: seq<string>,
    capabilities: seq<string>,
    domains: seq<string>,
    locales: seq<string>,
    decisions: seq<string>,
    families: seq<string>,
    adjudicator: string,
    reserve: nat,
    sources: seq<Source>,
    reviewers: seq<Reviewer>,
    stopExamples: nat,
    stopCost: nat,
    cells: seq<Cell>)

  // ---------------------------------------------------------------- one cell

  predicate Normalized(text: string) {
    text != "" && Strip(text) == text
  }

  predicate AllNormalized(texts: seq<string>) {
    forall t :: t in texts ==> Normalized(t)
  }

  predicate Unique(xs: seq<string>) {
    forall i, j :: 0 <= i < j < |xs| ==> xs[i] != xs[j]
  }

  predicate IsProtected(c: Cell) {
    c.families != []
  }

  /** The validator of a coverage cell. */
  predicate CellCoherent(c: Cell) {
    && Normalized(c.id) && Normalized(c.locale) && Normalized(c.primary)
    && c.planned >= 1
    && (forall a :: a in c.allocations ==> Normalized(a.key) && a.units >= 1)
    && (forall i, j :: 0 <= i < j < |c.allocations| ==> c.allocations[i].key != c.allocations[j].key)
    && Total(c.allocations) == c.planned
    && 1 <= c.minClusters <= |c.allocations|
    && c.capabilities != [] && Unique(c.capabilities) && Unique(c.families)
    && (if IsProtected(c) then
          c.isCritical && c.secondary.Some? && Strip(c.secondary.value) != "" && c.secondary.value != c.primary
        else c.secondary.None?)
  }

  predicate SourceCoherent(s: Source) {
    Normalized(s.id) && AllNormalized(s.locales) && s.locales != [] && Unique(s.locales) && s.maxExamples >= 1
  }

  predicate ReviewerCoherent(r: Reviewer) {
    Normalized(r.id) && r.capacity >= 1
  }

  /** What a cell obliges, apart from its name, its size and who reviews it. */
  function Contract(c: Cell): Cell {
    c.(id := "", planned := 0, minClusters := 0, primary := "", secondary := None)
  }

  function SourceById(sources: seq<Source>, id: string): (r: Option<Source>)
    ensures r.Some? ==> r.value in sources && r.value.id == id
    ensures r.None? ==> forall s :: s in sources ==> s.id != id
  {
    if sources == [] then None
    else if sources[|sources| - 1].id == id then Some(sources[|sources| - 1])
    else SourceById(sources[..|sources| - 1], id)
  }

  function ReviewerById(reviewers: seq<Reviewer>, id: string): (r: Option<Reviewer>)
    ensures r.Some? ==> r.value in reviewers && r.value.id == id
    ensures r.None? ==> forall v :: v in reviewers ==> v.id != id
  {
    if reviewers == [] then None
    else if reviewers[|reviewers| - 1].id == id then Some(reviewers[|reviewers| - 1])
    else ReviewerById(reviewers[..|reviewers| - 1], id)
  }

  predicate HasRole(p: Plan, id: string, role: Role) {
    var r := ReviewerById(p.reviewers, id);
    r.Some? && r.value.role == role
  }

  predicate AllocationFits(p: Plan, c: Cell, a: Amount) {
    var s := SourceById(p.sources, a.key);
    s.Some? && c.locale in s.value.locales && (c.projectedFixture ==> s.value.isFixture)
  }

  predicate ReviewsFit(p: Plan, c: Cell) {
    && (c.registryCohort ==> c.capabilities == p.capabilities)
    && c.domain in p.domains
    && c.locale in p.locales
    && HasRole(p, c.primary, Primary)
    && (c.secondary.Some? ==> HasRole(p, c.secondary.value, Secondary))
  }

  predicate CellFits(p: Plan, c: Cell) {
    (forall a :: a in c.allocations ==> AllocationFits(p, c, a)) && ReviewsFit(p, c)
  }

  // ---------------------------------------------------------------- the amounts of a plan

  function Allocations(cells: seq<Cell>): seq<Amount> {
    if cells == [] then [] else Allocations(cells[..|cells| - 1]) + cells[|cells| - 1].allocations
  }

  function PrimaryOf(c: Cell): seq<Amount> {
    [Amount(c.primary, c.planned)]
  }

  function SecondaryOf(c: Cell): seq<Amount> {
    if c.secondary.Some? then [Amount(c.secondary.value, c.planned)] else []
  }

  /** The review load the cells put on named reviewers. */
  function Reviews(cells: seq<Cell>): seq<Amount> {
    if cells == [] then []
    else
      var c := cells[|cells| - 1];
      Reviews(cells[..|cells| - 1]) + (PrimaryOf(c) + SecondaryOf(c))
  }

  function Planned(cells: seq<Cell>): nat {
    if cells == [] then 0 else Planned(cells[..|cells| - 1]) + cells[|cells| - 1].planned
  }

  function PlannedProtected(cells: seq<Cell>): nat {
    if cells == [] then 0
    else
      var c := cells[|cells| - 1];
      PlannedProtected(cells[..|cells| - 1]) + if IsProtected(c) then c.planned else 0
  }

  function Ceilings(sources: seq<Source>): seq<Amount> {
    seq(|sources|, i requires 0 <= i < |sources| => Amount(sources[i].id, sources[i].maxExamples))
  }

  function Cost(sources: seq<Source>): nat {
    if sources == [] then 0 else Cost(sources[..|sources| - 1]) + sources[|sources| - 1].cost
  }

  /** The capacity of the reviewers in one role. */
  function Capacities(reviewers: seq<Reviewer>, role: Role): seq<Amount> {
    if reviewers == [] then []
    else
      var r := reviewers[|reviewers| - 1];
      Capacities(reviewers[..|reviewers| - 1], role) + if r.role == role then [Amount(r.id, r.capacity)] else []
  }

  // ---------------------------------------------------------------- running tallies

  ghost predicate Mentions(cs: seq<Amount>, key: string) {
    exists c :: c in cs && c.key == key
  }

  /** The dictionary holds the sum for each key counted so far, and no other key. */
  ghost predicate Tallied(tally: map<string, nat>, cs: seq<Amount>) {
    forall key :: (key in tally <==> Mentions(cs, key)) && (key in tally ==> tally[key] == ForKey(cs, key))
  }

  /** `tally[key] = tally.get(key, 0) + amount`. */
  function Tally(tally: map<string, nat>, c: Amount): map<string, nat> {
    tally[c.key := (if c.key in tally then tally[c.key] else 0) + c.units]
  }

  lemma TallyStep(tally: map<string, nat>, cs: seq<Amount>, c: Amount)
    requires Tallied(tally, cs)
    ensures Tallied(Tally(tally, c), cs + [c])
  {
    forall key
      ensures key in Tally(tally, c) <==> Mentions(cs + [c], key)
      ensures key in Tally(tally, c) ==> Tally(tally, c)[key] == ForKey(cs + [c], key)
    {
      MentionsStep(cs, c, key);
      if !Mentions(cs, key) {
        ForKeyAbsent(cs, key);
      }
      assert (cs + [c])[..|cs|] == cs;
    }
  }

  lemma MentionsStep(cs: seq<Amount>, c: Amount, key: string)
    ensures Mentions(cs + [c], key) <==> Mentions(cs, key) || c.key == key
  {
  }

  // ---------------------------------------------------------------- the plan check

  /** The plan's texts and activation dimensions. */
  predicate DimensionsOk(p: Plan) {
    && AllNormalized(p.texts) && Normalized(p.adjudicator) && AllNormalized(p.locales)
    && p.capabilities != [] && Unique(p.capabilities) && p.domains != [] && Unique(p.domains)
    && p.locales != [] && Unique(p.locales) && p.decisions != [] && Unique(p.decisions)
    && Unique(p.families) && p.stopExamples >= 1
  }

  /** No two cells oblige exactly the same. */
  predicate ContractsDiffer(p: Plan) {
    forall i, j :: 0 <= i < j < |p.cells| ==> Contract(p.cells[i]) != Contract(p.cells[j])
  }

  predicate WellListed(p: Plan) {
    && p.sources != [] && p.reviewers != [] && p.cells != []
    && (forall i, j :: 0 <= i < j < |p.sources| ==> p.sources[i].id != p.sources[j].id)
    && (forall i, j :: 0 <= i < j < |p.reviewers| ==> p.reviewers[i].id != p.reviewers[j].id)
    && (forall i, j :: 0 <= i < j < |p.cells| ==> p.cells[i].id != p.cells[j].id)
  }

  predicate Adjudicated(p: Plan) {
    HasRole(p, p.adjudicator, Adjudicator) && ReviewerById(p.reviewers, p.adjudicator).value.capacity >= p.reserve
  }

  predicate CellsCoherent(p: Plan) {
    forall c :: c in p.cells ==> CellCoherent(c)
  }

  /** Every part passes its own validator. */
  predicate PartsCoherent(p: Plan) {
    && CellsCoherent(p)
    && (forall s :: s in p.sources ==> SourceCoherent(s))
    && (forall r :: r in p.reviewers ==> ReviewerCoherent(r))
  }

  ghost predicate CellsFit(p: Plan) {
    forall c :: c in p.cells ==> CellFits(p, c)
  }

  ghost predicate ReviewersHold(p: Plan) {
    forall r :: r in p.reviewers ==> ForKey(Reviews(p.cells), r.id) <= r.capacity
  }

  ghost predicate CeilingsHold(p: Plan) {
    forall s :: s in p.sources ==> ForKey(Allocations(p.cells), s.id) <= s.maxExamples
  }

  ghost predicate EverySourceUsed(p: Plan) {
    forall s :: s in p.sources ==> Mentions(Allocations(p.cells), s.id)
  }

  /** A plan within its capacity, source by source and reviewer by reviewer. */
  ghost predicate WithinCapacity(p: Plan) {
    && PartsCoherent(p) && DimensionsOk(p) && WellListed(p) && ContractsDiffer(p) && Adjudicated(p) && CellsFit(p)
    && ReviewersHold(p) && CeilingsHold(p) && EverySourceUsed(p)
    && Planned(p.cells) <= p.stopExamples
    && Cost(p.sources) <= p.stopCost
  }

  predicate Overloaded(p: Plan, id: string, load: nat) {
    var r := ReviewerById(p.reviewers, id);
    r.Some? && load > r.value.capacity
  }

  predicate Overdrawn(p: Plan, id: string, planned: nat) {
    var s := SourceById(p.sources, id);
    s.Some? && planned > s.value.maxExamples
  }

  predicate LoadsHold(p: Plan, loads: map<string, nat>) {
    forall id :: id in loads ==> !Overloaded(p, id, loads[id])
  }

  predicate DrawsHold(p: Plan, planned: map<string, nat>) {
    forall id :: id in planned ==> !Overdrawn(p, id, planned[id])
  }

  /** The plan validator up to its coverage demands: accepted exactly when every named capacity holds. */
  method AcceptPlan(p: Plan) returns (ok: bool)
    ensures ok <==> WithinCapacity(p)
  {
    if !PartsCoherent(p) || !DimensionsOk(p) || !WellListed(p) || !ContractsDiffer(p) || !Adjudicated(p) {
      return false;
    }
    var fits, planned, loads := TallyCells(p);
    if !fits {
      return false;
    }
    LoadsExact(p, loads);
    CeilingsExact(p, planned);
    SourcesUsed(p, planned);
    if !LoadsHold(p, loads) {
      return false;
    }
    if !DrawsHold(p, planned) {
      return false;
    }
    if planned.Keys != SourceIds(p) {
      return false;
    }
    ok := Planned(p.cells) <= p.stopExamples && Cost(p.sources) <= p.stopCost;
  }

  function SourceIds(p: Plan): set<string> {
    set s | s in p.sources :: s.id
  }

  /** The loop over coverage cells. */
  method TallyCells(p: Plan) returns (fits: bool, planned: map<string, nat>, loads: map<string, nat>)
    ensures fits <==> CellsFit(p)
    ensures fits ==> Tallied(planned, Allocations(p.cells)) && Tallied(loads, Reviews(p.cells))
  {
    planned, loads := map[], map[];
    for n := 0 to |p.cells|
      invariant forall i :: 0 <= i < n ==> CellFits(p, p.cells[i])
      invariant Tallied(planned, Allocations(p.cells[..n]))
      invariant Tallied(loads, Reviews(p.cells[..n]))
    {
      var cell := p.cells[n];
      NextCell(p.cells, n);
      fits, planned := TallyAllocations(p, cell, planned, Allocations(p.cells[..n]));
      if !fits || !ReviewsFit(p, cell) {
        assert cell in p.cells && !CellFits(p, cell);
        return false, planned, loads;
      }
      loads := TallyReviews(cell, loads, Reviews(p.cells[..n]));
    }
    assert p.cells[..|p.cells|] == p.cells;
    fits := true;
  }

  lemma SourcesUsed(p: Plan, planned: map<string, nat>)
    requires Tallied(planned, Allocations(p.cells)) && CellsFit(p)
    ensures planned.Keys == SourceIds(p) <==> EverySourceUsed(p)
  {
    forall key | key in planned
      ensures key in SourceIds(p)
    {
      var a :| a in Allocations(p.cells) && a.key == key;
      AllocationsFit(p, p.cells, a);
      assert SourceById(p.sources, key).value in p.sources;
    }
    if planned.Keys == SourceIds(p) {
      forall s | s in p.sources
        ensures Mentions(Allocations(p.cells), s.id)
      {
        assert s.id in SourceIds(p);
      }
    } else {
      var id :| id in SourceIds(p) && id !in planned;
      var s :| s in p.sources && s.id == id;
      assert !Mentions(Allocations(p.cells), s.id);
    }
  }

  method TallyAllocations(p: Plan, cell: Cell, tally: map<string, nat>, ghost before: seq<Amount>)
    returns (fits: bool, tally': map<string, nat>)
    requires Tallied(tally, before)
    ensures fits <==> forall a :: a in cell.allocations ==> AllocationFits(p, cell, a)
    ensures fits ==> Tallied(tally', before + cell.allocations)
  {
    tally' := tally;
    assert before + cell.allocations[..0] == before;
    for i := 0 to |cell.allocations|
      invariant forall k :: 0 <= k < i ==> AllocationFits(p, cell, cell.allocations[k])
      invariant Tallied(tally', before + cell.allocations[..i])
    {
      var a := cell.allocations[i];
      if !AllocationFits(p, cell, a) {
        return false, tally';
      }
      TallyStep(tally', before + cell.allocations[..i], a);
      NextAllocation(before, cell.allocations, i);
      tally' := Tally(tally', a);
    }
    assert cell.allocations[..|cell.allocations|] == cell.allocations;
    fits := true;
  }

  lemma NextAllocation(before: seq<Amount>, allocations: seq<Amount>, i: nat)
    requires i < |allocations|
    ensures before + allocations[..i + 1] == before + allocations[..i] + [allocations[i]]
  {
  }

  method TallyReviews(cell: Cell, tally: map<string, nat>, ghost before: seq<Amount>) returns (tally': map<string, nat>)
    requires Tallied(tally, before)
    ensures Tallied(tally', before + (PrimaryOf(cell) + SecondaryOf(cell)))
  {
    TallyStep(tally, before, Amount(cell.primary, cell.planned));
    tally' := Tally(tally, Amount(cell.primary, cell.planned));
    if cell.secondary.Some? {
      TallyStep(tally', before + PrimaryOf(cell), Amount(cell.secondary.value, cell.planned));
      tally' := Tally(tally', Amount(cell.secondary.value, cell.planned));
    }
    assert before + (PrimaryOf(cell) + SecondaryOf(cell)) == before + PrimaryOf(cell) + SecondaryOf(cell);
    assert PrimaryOf(cell) + [] == PrimaryOf(cell) && before + PrimaryOf(cell) + [] == before + PrimaryOf(cell);
  }

  lemma NextCell(cells: seq<Cell>, n: nat)
    requires n < |cells|
    ensures Allocations(cells[..n + 1]) == Allocations(cells[..n]) + cells[n].allocations
    ensures Reviews(cells[..n + 1]) == Reviews(cells[..n]) + (PrimaryOf(cells[n]) + SecondaryOf(cells[n]))
  {
    assert cells[..n + 1][..n] == cells[..n];
  }

  lemma ReviewerFound(p: Plan, r: Reviewer)
    requires WellListed(p) && r in p.reviewers
    ensures ReviewerById(p.reviewers, r.id) == Some(r)
  {
  }

  lemma SourceFound(p: Plan, s: Source)
    requires WellListed(p) && s in p.sources
    ensures SourceById(p.sources, s.id) == Some(s)
  {
  }

  /** Checking the tallied reviewers is checking every reviewer. */
  lemma LoadsExact(p: Plan, loads: map<string, nat>)
    requires WellListed(p) && Tallied(loads, Reviews(p.cells))
    ensures LoadsHold(p, loads) <==> ReviewersHold(p)
  {
    forall id | id in loads && Overloaded(p, id, loads[id])
      ensures !ReviewersHold(p)
    {
      var r := ReviewerById(p.reviewers, id).value;
      assert r in p.reviewers && ForKey(Reviews(p.cells), r.id) > r.capacity;
    }
    forall r | r in p.reviewers && ForKey(Reviews(p.cells), r.id) > r.capacity
      ensures r.id in loads && Overloaded(p, r.id, loads[r.id])
    {
      ReviewerFound(p, r);
      CountedIsMentioned(Reviews(p.cells), r.id);
    }
  }

  /** Checking the drawn sources is checking every source. */
  lemma CeilingsExact(p: Plan, planned: map<string, nat>)
    requires WellListed(p) && Tallied(planned, Allocations(p.cells))
    ensures DrawsHold(p, planned) <==> CeilingsHold(p)
  {
    forall id | id in planned && Overdrawn(p, id, planned[id])
      ensures !CeilingsHold(p)
    {
      var s := SourceById(p.sources, id).value;
      assert s in p.sources && ForKey(Allocations(p.cells), s.id) > s.maxExamples;
    }
    forall s | s in p.sources && ForKey(Allocations(p.cells), s.id) > s.maxExamples
      ensures s.id in planned && Overdrawn(p, s.id, planned[s.id])
    {
      SourceFound(p, s);
      CountedIsMentioned(Allocations(p.cells), s.id);
    }
  }

  lemma CountedIsMentioned(cs: seq<Amount>, key: string)
    requires ForKey(cs, key) > 0
    ensures Mentions(cs, key)
  {
  }

  // ---------------------------------------------------------------- what acceptance guarantees

  lemma {:induction false} PlannedIsAllocated(cells: seq<Cell>)
    requires forall c :: c in cells ==> CellCoherent(c)
    ensures Planned(cells) == Total(Allocations(cells))
  {
    if cells != [] {
      var before, last := cells[..|cells| - 1], cells[|cells| - 1];
      assert last in cells;
      PlannedIsAllocated(before);
      TotalConcat(Allocations(before), last.allocations);
    }
  }

  lemma {:induction false} AllocationsFit(p: Plan, cells: seq<Cell>, a: Amount)
    requires (forall c :: c in cells ==> CellFits(p, c)) && a in Allocations(cells)
    ensures SourceById(p.sources, a.key).Some?
  {
    var before, last := cells[..|cells| - 1], cells[|cells| - 1];
    if a in last.allocations {
      assert last in cells && AllocationFits(p, last, a);
    } else {
      AllocationsFit(p, before, a);
    }
  }

  lemma CeilingOf(p: Plan, i: nat)
    requires WellListed(p) && i < |p.sources|
    ensures ForKey(Ceilings(p.sources), p.sources[i].id) == p.sources[i].maxExamples
  {
    ForKeyUnique(Ceilings(p.sources), i);
  }

  /**
   * Double counting: an accepted plan's examples, summed cell by cell, fit within the ceilings of its
   * sources, summed source by source.
   */
  lemma PlannedWithinCeilings(p: Plan)
    requires WithinCapacity(p)
    ensures Planned(p.cells) <= Total(Ceilings(p.sources))
  {
    PlannedIsAllocated(p.cells);
    var allocations := Allocations(p.cells);
    forall key
      ensures ForKey(allocations, key) <= ForKey(Ceilings(p.sources), key)
    {
      var s := SourceById(p.sources, key);
      if s.Some? {
        var i :| 0 <= i < |p.sources| && p.sources[i] == s.value;
        CeilingOf(p, i);
      } else if ForKey(allocations, key) > 0 {
        CountedIsMentioned(allocations, key);
        var a :| a in allocations && a.key == key;
        AllocationsFit(p, p.cells, a);
      }
    }
    BoundedByKeyBoundedInTotal(allocations, Ceilings(p.sources));
  }

  function InRole(cells: seq<Cell>, role: Role): seq<Amount>
    requires role != Adjudicator
  {
    if cells == [] then []
    else
      var c := cells[|cells| - 1];
      InRole(cells[..|cells| - 1], role) + if role == Primary then PrimaryOf(c) else SecondaryOf(c)
  }

  /** The review load splits into its two roles. */
  lemma {:induction false} ReviewsSplit(cells: seq<Cell>, key: string)
    ensures ForKey(Reviews(cells), key) == ForKey(InRole(cells, Primary), key) + ForKey(InRole(cells, Secondary), key)
  {
    if cells != [] {
      var before, c := cells[..|cells| - 1], cells[|cells| - 1];
      ReviewsSplit(before, key);
      ForKeyConcat(Reviews(before), PrimaryOf(c) + SecondaryOf(c), key);
      ForKeyConcat(PrimaryOf(c), SecondaryOf(c), key);
      ForKeyConcat(InRole(before, Primary), PrimaryOf(c), key);
      ForKeyConcat(InRole(before, Secondary), SecondaryOf(c), key);
    }
  }

  lemma {:induction false} RoleTotals(cells: seq<Cell>)
    requires forall c :: c in cells ==> CellCoherent(c)
    ensures Total(InRole(cells, Primary)) == Planned(cells)
    ensures Total(InRole(cells, Secondary)) == PlannedProtected(cells)
  {
    if cells != [] {
      var before, c := cells[..|cells| - 1], cells[|cells| - 1];
      RoleTotals(before);
      TotalConcat(InRole(before, Primary), PrimaryOf(c));
      TotalConcat(InRole(before, Secondary), SecondaryOf(c));
      assert PrimaryOf(c)[..0] == [] && c in cells;
    }
  }

  lemma {:induction false} LoadIsInRole(p: Plan, cells: seq<Cell>, role: Role, a: Amount)
    requires role != Adjudicator && (forall c :: c in cells ==> CellFits(p, c)) && a in InRole(cells, role)
    ensures HasRole(p, a.key, role)
  {
    var before, c := cells[..|cells| - 1], cells[|cells| - 1];
    if a in InRole(before, role) {
      LoadIsInRole(p, before, role, a);
    } else {
      assert CellFits(p, c);
    }
  }

  /** A reviewer's capacity counts in full for the reviewer's own role. */
  lemma {:induction false} CapacityOf(reviewers: seq<Reviewer>, r: Reviewer)
    requires r in reviewers
    ensures ForKey(Capacities(reviewers, r.role), r.id) >= r.capacity
  {
    var before, last := reviewers[..|reviewers| - 1], reviewers[|reviewers| - 1];
    var own := if last.role == r.role then [Amount(last.id, last.capacity)] else [];
    ForKeyConcat(Capacities(before, r.role), own, r.id);
    assert own != [] ==> own[..|own| - 1] == [];
    if last != r {
      CapacityOf(before, r);
    }
  }

  /** An accepted plan has primary capacity for every example, and secondary capacity for every protected one. */
  lemma ReviewsWithinCapacity(p: Plan, role: Role)
    requires WithinCapacity(p) && role != Adjudicator
    ensures (if role == Primary then Planned(p.cells) else PlannedProtected(p.cells)) <= Total(Capacities(p.reviewers, role))
  {
    RoleTotals(p.cells);
    var loads := InRole(p.cells, role);
    forall key
      ensures ForKey(loads, key) <= ForKey(Capacities(p.reviewers, role), key)
    {
      if ForKey(loads, key) > 0 {
        CountedIsMentioned(loads, key);
        var a :| a in loads && a.key == key;
        LoadIsInRole(p, p.cells, role, a);
        CapacityOf(p.reviewers, ReviewerById(p.reviewers, key).value);
        ReviewsSplit(p.cells, key);
      }
    }
    BoundedByKeyBoundedInTotal(loads, Capacities(p.reviewers, role));
  }

  // ---------------------------------------------------------------- what an accepted cell may rely on

  /** An accepted plan's cell draws only on declared sources that cover its locale, and is read by declared reviewers in role. */
  lemma AcceptedCellIsCovered(p: Plan, c: Cell)
    requires WithinCapacity(p) && c in p.cells
    ensures forall a :: a in c.allocations ==>
                          exists s :: s in p.sources && s.id == a.key && c.locale in s.locales
                                      && (c.projectedFixture ==> s.isFixture)
    ensures exists v :: v in p.reviewers && v.id == c.primary && v.role == Primary
    ensures c.families != [] ==>
              c.isCritical && c.secondary.Some? && c.secondary.value != c.primary
              && exists v :: v in p.reviewers && v.id == c.secondary.value && v.role == Secondary
    ensures c.families == [] ==> c.secondary == None
    ensures c.domain in p.domains && c.locale in p.locales && (c.registryCohort ==> c.capabilities == p.capabilities)
    ensures exists v :: v in p.reviewers && v.id == p.adjudicator && v.role == Adjudicator && v.capacity >= p.reserve
  {
    assert CellFits(p, c) && CellCoherent(c);
    forall a | a in c.allocations
      ensures exists s :: s in p.sources && s.id == a.key && c.locale in s.locales && (c.projectedFixture ==> s.isFixture)
    {
      assert AllocationFits(p, c, a);
      assert SourceById(p.sources, a.key).value in p.sources;
    }
  }

  /** What each source is estimated to cost. */
  function Costs(sources: seq<Source>): seq<Amount> {
    if sources == [] then []
    else Costs(sources[..|sources| - 1]) + [Amount(sources[|sources| - 1].id, sources[|sources| - 1].cost)]
  }

  lemma {:induction false} CostIsTotal(sources: seq<Source>)
    ensures Cost(sources) == Total(Costs(sources))
  {
    if sources != [] {
      var before, last := sources[..|sources| - 1], sources[|sources| - 1];
      CostIsTotal(before);
      TotalConcat(Costs(before), [Amount(last.id, last.cost)]);
    }
  }

  /** An accepted plan's sources cost no more in total than its budget stops at, and its cells plan no more examples. */
  lemma AcceptedWithinStop(p: Plan)
    requires WithinCapacity(p)
    ensures Total(Costs(p.sources)) <= p.stopCost && Total(Allocations(p.cells)) <= p.stopExamples
  {
    CostIsTotal(p.sources);
    PlannedIsAllocated(p.cells);
  }

  /** An accepted plan is well formed throughout. */
  lemma AcceptedIsWellFormed(p: Plan, c: Cell, i: nat, j: nat)
    requires WithinCapacity(p) && c in p.cells
    ensures c.planned == Total(c.allocations) && 1 <= c.minClusters <= |c.allocations|
    ensures i < j < |c.allocations| ==> c.allocations[i].key != c.allocations[j].key && c.allocations[i].units >= 1
    ensures Strip(c.id) == c.id != "" && Strip(c.locale) == c.locale != "" && Strip(c.primary) == c.primary != ""
    ensures i < j < |p.cells| ==> p.cells[i].id != p.cells[j].id && Contract(p.cells[i]) != Contract(p.cells[j])
    ensures i < j < |p.sources| ==> p.sources[i].id != p.sources[j].id
    ensures i < j < |p.reviewers| ==> p.reviewers[i].id != p.reviewers[j].id
    ensures i < |p.sources| ==>
              p.sources[i].maxExamples >= 1 && p.sources[i].locales != [] && Strip(p.sources[i].id) == p.sources[i].id != ""
    ensures i < |p.reviewers| ==> p.reviewers[i].capacity >= 1
    ensures i < j < |p.locales| ==> p.locales[i] != p.locales[j]
    ensures i < j < |p.domains| ==> p.domains[i] != p.domains[j]
    ensures i < j < |p.decisions| ==> p.decisions[i] != p.decisions[j]
    ensures i < j < |p.capabilities| ==> p.capabilities[i] != p.capabilities[j]
    ensures i < |p.texts| ==> Strip(p.texts[i]) == p.texts[i] != ""
  {
    assert CellCoherent(c);
    if i < |p.sources| {
      assert SourceCoherent(p.sources[i]);
    }
    if i < |p.reviewers| {
      assert ReviewerCoherent(p.reviewers[i]);
    }
    if i < |p.texts| {
      assert Normalized(p.texts[i]);
    }
    if i < j < |c.allocations| {
      assert c.allocations[i] in c.allocations;
    }
  }
}
