/**
 * The bounded set of recent order references: what `record` keeps, when it refuses, and that what
 * it builds always passes the snapshot's own validator.
 */
module RecentOrders {
  import opened Results
  import Text

  datatype Operation = READ | LIST | PLACE | CANCEL | REFUND | RETURN

  type Outcome = (string, string)

  datatype Snapshot = Snapshot(
    focused: Option<string>,
    refs: seq<string>,
    operation: Option<Operation>,
    outcomes: seq<Outcome>,
    complete: bool)

  const EMPTY := Snapshot(None, [], None, [], true)

  datatype RecordError = NoReference | ForeignFocus | ForeignOutcome

  /** The snapshot's model validator. */
  ghost predicate Coherent(s: Snapshot) {
    && Unique(s.refs)
    && (forall r :: r in s.refs ==> r != "" && r == Text.Canonical(r))
    && (s.operation.None? <==> s.refs == [])
    && (s.focused.Some? ==> s.focused.value in s.refs)
    && (forall o :: o in s.outcomes ==> o.0 in s.refs)
  }

  ghost predicate Unique(xs: seq<string>) {
    forall i, j :: 0 <= i < j < |xs| ==> xs[i] != xs[j]
  }

  // ---------------------------------------------------------------- the references a call names

  /** The canonical spelling of every non-blank reference, in order. */
  function Spelled(refs: seq<string>): seq<string> {
    if refs == [] then []
    else
      var last := refs[|refs| - 1];
      Spelled(refs[..|refs| - 1]) + if Text.Strip(last) != "" then [Text.Canonical(last)] else []
  }

  /** `dict.fromkeys`: each value once, where it first occurs. */
  function Distinct(xs: seq<string>): seq<string> {
    if xs == [] then []
    else
      var front, last := Distinct(xs[..|xs| - 1]), xs[|xs| - 1];
      if last in front then front else front + [last]
  }

  function Named(refs: seq<string>): seq<string> {
    Distinct(Spelled(refs))
  }

  /** The last `n` elements. */
  function Last(xs: seq<string>, n: nat): seq<string> {
    if |xs| <= n then xs else xs[|xs| - n..]
  }

  function FocusOf(bounded: seq<string>, focus: Option<string>): Option<string> {
    if focus.Some? && focus.value != "" then Some(Text.Canonical(focus.value))
    else if |bounded| == 1 then Some(bounded[0])
    else None
  }

  /** The bounded references, the focus taking the place of the oldest when the bound cut it off. */
  function Kept(bounded: seq<string>, focus: Option<string>): seq<string>
    requires bounded != []
  {
    if focus.Some? && focus.value !in bounded then bounded[1..] + [focus.value] else bounded
  }

  function SpelledOutcomes(os: seq<Outcome>): seq<Outcome> {
    seq(|os|, i requires 0 <= i < |os| => (Text.Canonical(os[i].0), os[i].1))
  }

  function OutcomesOn(os: seq<Outcome>, refs: seq<string>): seq<Outcome> {
    if os == [] then []
    else OutcomesOn(os[..|os| - 1], refs) + if os[|os| - 1].0 in refs then [os[|os| - 1]] else []
  }

  function Record(maxRefs: nat, refs: seq<string>, operation: Operation, focus: Option<string>, outcomes: seq<Outcome>)
    : Result<Snapshot, RecordError>
    requires maxRefs >= 1
  {
    var named := Named(refs);
    if named == [] then Failure(NoReference)
    else
      var bounded := Last(named, maxRefs);
      var focused := FocusOf(bounded, focus);
      var spelled := SpelledOutcomes(outcomes);
      if focused.Some? && focused.value !in named then Failure(ForeignFocus)
      else if exists o :: o in spelled && o.0 !in named then Failure(ForeignOutcome)
      else
        var kept := Kept(bounded, focused);
        Success(Snapshot(focused, kept, Some(operation), OutcomesOn(spelled, kept), |named| <= maxRefs))
  }

  class RecentOrderContext {
    const maxRefs: nat
    var snapshot: Snapshot

    constructor (maxRefs: nat)
      requires maxRefs >= 1
      ensures this.maxRefs == maxRefs && snapshot == EMPTY
    {
      this.maxRefs, snapshot := maxRefs, EMPTY;
    }

    ghost predicate Valid()
      reads this
    {
      maxRefs >= 1 && Coherent(snapshot) && |snapshot.refs| <= maxRefs
    }

    /** A refused call leaves the previous snapshot in place. */
    method RecordOrders(refs: seq<string>, operation: Operation, focus: Option<string>, outcomes: seq<Outcome>)
      returns (result: Result<Snapshot, RecordError>)
      requires Valid()
      modifies this`snapshot
      ensures Valid()
      ensures result == Record(maxRefs, refs, operation, focus, outcomes)
      ensures snapshot == if result.Success? then result.value else old(snapshot)
    {
      var named := Named(refs);
      if named == [] {
        return Failure(NoReference);
      }
      var bounded := Last(named, maxRefs);
      var focused := FocusOf(bounded, focus);
      if focused.Some? && focused.value !in named {
        return Failure(ForeignFocus);
      }
      if focused.Some? && focused.value !in bounded {
        bounded := bounded[1..] + [focused.value];
      }
      var spelled := SpelledOutcomes(outcomes);
      if exists o :: o in spelled && o.0 !in named {
        return Failure(ForeignOutcome);
      }
      RecordedIsCoherent(maxRefs, refs, operation, focus, outcomes);
      snapshot := Snapshot(focused, bounded, Some(operation), OutcomesOn(spelled, bounded), |named| <= maxRefs);
      result := Success(snapshot);
    }

    method RestoreSnapshot(restored: Snapshot) returns (ok: bool)
      requires Valid() && Coherent(restored)
      modifies this`snapshot
      ensures Valid()
      ensures ok <==> |restored.refs| <= maxRefs
      ensures snapshot == if ok then restored else old(snapshot)
    {
      ok := |restored.refs| <= maxRefs;
      if ok {
        snapshot := restored;
      }
    }

    method Clear()
      requires Valid()
      modifies this`snapshot
      ensures Valid() && snapshot == EMPTY
    {
      snapshot := EMPTY;
    }
  }

  // ---------------------------------------------------------------- laws

  lemma {:induction false} SpelledCanonical(refs: seq<string>, x: string)
    requires x in Spelled(refs)
    ensures x != "" && Text.Canonical(x) == x
  {
    var front, last := refs[..|refs| - 1], refs[|refs| - 1];
    if x in Spelled(front) {
      SpelledCanonical(front, x);
    } else {
      assert x == Text.Canonical(last);
      Text.CanonicalIdempotent(last);
      assert |Text.Canonical(last)| == |Text.Strip(last)|;
    }
  }

  lemma {:induction false} DistinctIs(xs: seq<string>)
    ensures Unique(Distinct(xs))
    ensures forall x :: x in Distinct(xs) <==> x in xs
  {
    if xs != [] {
      DistinctIs(xs[..|xs| - 1]);
      assert xs == xs[..|xs| - 1] + [xs[|xs| - 1]];
      var front := Distinct(xs[..|xs| - 1]);
      assert forall i :: 0 <= i < |front| ==> front[i] in front;
    }
  }

  lemma {:induction false} DistinctUnchanged(xs: seq<string>)
    requires Unique(xs)
    ensures Distinct(xs) == xs
  {
    if xs != [] {
      DistinctUnchanged(xs[..|xs| - 1]);
      assert xs == xs[..|xs| - 1] + [xs[|xs| - 1]];
    }
  }

  lemma {:induction false} OutcomesMembers(os: seq<Outcome>, refs: seq<string>, o: Outcome)
    ensures o in OutcomesOn(os, refs) <==> o in os && o.0 in refs
  {
    if os != [] {
      OutcomesMembers(os[..|os| - 1], refs, o);
      assert os == os[..|os| - 1] + [os[|os| - 1]];
    }
  }

  lemma NamedCanonical(refs: seq<string>, x: string)
    requires x in Named(refs)
    ensures x != "" && Text.Canonical(x) == x
  {
    DistinctIs(Spelled(refs));
    SpelledCanonical(refs, x);
  }

  lemma KeptIs(named: seq<string>, maxRefs: nat, focus: Option<string>)
    requires named != [] && maxRefs >= 1 && Unique(named)
    requires focus.Some? ==> focus.value in named
    ensures var kept := Kept(Last(named, maxRefs), focus);
            && Unique(kept) && kept != [] && |kept| <= maxRefs
            && (forall x :: x in kept ==> x in named)
            && (focus.Some? ==> focus.value in kept)
            && (|named| <= maxRefs ==> kept == named)
            && (|named| > maxRefs ==> |kept| == maxRefs)
  {
    var bounded := Last(named, maxRefs);
    assert forall i :: 0 <= i < |bounded| ==> bounded[i] == named[|named| - |bounded| + i];
    assert forall i :: 0 <= i < |bounded| ==> bounded[i] in named;
    var kept := Kept(bounded, focus);
    if focus.Some? && focus.value !in bounded {
      assert forall i :: 0 <= i < |bounded| - 1 ==> kept[i] == bounded[i + 1] && kept[i] in bounded;
      assert kept[|bounded| - 1] == focus.value;
    }
  }

  /** Whatever `record` accepts passes the snapshot's own validator and stays within the bound. */
  lemma RecordedIsCoherent(maxRefs: nat, refs: seq<string>, operation: Operation, focus: Option<string>, outcomes: seq<Outcome>)
    requires maxRefs >= 1
    ensures var result := Record(maxRefs, refs, operation, focus, outcomes);
            result.Success? ==> Coherent(result.value) && |result.value.refs| <= maxRefs
  {
    var result := Record(maxRefs, refs, operation, focus, outcomes);
    if result.Success? {
      var named := Named(refs);
      DistinctIs(Spelled(refs));
      KeptIs(named, maxRefs, result.value.focused);
      forall r | r in result.value.refs
        ensures r != "" && r == Text.Canonical(r)
      {
        NamedCanonical(refs, r);
      }
      forall o | o in result.value.outcomes
        ensures o.0 in result.value.refs
      {
        OutcomesMembers(SpelledOutcomes(outcomes), result.value.refs, o);
      }
    }
  }

  /** The completeness flag is honest: it is set exactly when no named reference was left out. */
  lemma CompleteIffNothingDropped(maxRefs: nat, refs: seq<string>, operation: Operation, focus: Option<string>, outcomes: seq<Outcome>)
    requires maxRefs >= 1 && Record(maxRefs, refs, operation, focus, outcomes).Success?
    ensures var s := Record(maxRefs, refs, operation, focus, outcomes).value;
            && (forall r :: r in s.refs ==> r in Named(refs))
            && (s.complete <==> forall r :: r in Named(refs) ==> r in s.refs)
            && (s.complete ==> s.refs == Named(refs))
            && (!s.complete ==> |s.refs| == maxRefs)
  {
    var s := Record(maxRefs, refs, operation, focus, outcomes).value;
    var named := Named(refs);
    DistinctIs(Spelled(refs));
    KeptIs(named, maxRefs, s.focused);
    if forall r :: r in named ==> r in s.refs {
      FitsWithin(named, s.refs);
    }
  }

  lemma {:induction false} FitsWithin(xs: seq<string>, ys: seq<string>)
    requires Unique(xs) && forall x :: x in xs ==> x in ys
    ensures |xs| <= |ys|
  {
    if xs != [] {
      var x := xs[0];
      assert x in ys;
      var k :| 0 <= k < |ys| && ys[k] == x;
      var rest := ys[..k] + ys[k + 1..];
      forall y | y in xs[1..]
        ensures y in rest
      {
        var i :| 0 <= i < |xs| - 1 && xs[1..][i] == y;
        assert y == xs[i + 1] && y in xs && y != xs[0];
        var j :| 0 <= j < |ys| && ys[j] == y;
        assert if j < k then rest[j] == y else rest[j - 1] == y;
      }
      FitsWithin(xs[1..], rest);
    }
  }

  lemma FrontLast<T>(xs: seq<T>)
    requires xs != []
    ensures xs == xs[..|xs| - 1] + [xs[|xs| - 1]]
  {
  }

  lemma NotBlank(r: string)
    requires r != "" && Text.Canonical(r) == r
    ensures Text.Strip(r) != ""
  {
  }

  lemma {:induction false} SpelledUnchanged(refs: seq<string>)
    requires forall r :: r in refs ==> r != "" && Text.Canonical(r) == r
    ensures Spelled(refs) == refs
  {
    if refs != [] {
      var front, last := refs[..|refs| - 1], refs[|refs| - 1];
      FrontLast(refs);
      assert last in refs && forall r :: r in front ==> r in refs;
      SpelledUnchanged(front);
      NotBlank(last);
    }
  }

  lemma {:induction false} OutcomesUnchanged(os: seq<Outcome>, refs: seq<string>)
    requires forall o :: o in os ==> o.0 in refs
    ensures OutcomesOn(os, refs) == os
  {
    if os != [] {
      var front, last := os[..|os| - 1], os[|os| - 1];
      FrontLast(os);
      assert last in os && forall o :: o in front ==> o in os;
      OutcomesUnchanged(front, refs);
    }
  }

  lemma OutcomesSpelledUnchanged(os: seq<Outcome>, refs: seq<string>)
    requires (forall o :: o in os ==> o.0 in refs) && forall r :: r in refs ==> Text.Canonical(r) == r
    ensures SpelledOutcomes(os) == os
  {
  }

  /**
   * Recording a snapshot's own contents again respells, moves and drops nothing, but it forgets that
   * anything was dropped before: it gives the snapshot back exactly when the snapshot was complete.
   */
  lemma RecordingAgainKeepsIffComplete(
      maxRefs: nat, refs: seq<string>, operation: Operation, focus: Option<string>, outcomes: seq<Outcome>)
    requires maxRefs >= 1 && Record(maxRefs, refs, operation, focus, outcomes).Success?
    ensures var s := Record(maxRefs, refs, operation, focus, outcomes).value;
            var again := Record(maxRefs, s.refs, operation, s.focused, s.outcomes);
            && again == Success(s.(complete := true))
            && (again == Success(s) <==> s.complete)
  {
    RecordedIsCoherent(maxRefs, refs, operation, focus, outcomes);
    FocusedWhenSingle(maxRefs, refs, operation, focus, outcomes);
    CoherentIsFixed(maxRefs, operation, Record(maxRefs, refs, operation, focus, outcomes).value);
  }

  /** Any call that names more orders than fit loses its incompleteness mark this way. */
  lemma TruncationIsForgotten(maxRefs: nat, refs: seq<string>, operation: Operation)
    requires maxRefs >= 1 && |Named(refs)| > maxRefs
    ensures var first := Record(maxRefs, refs, operation, None, []);
            && first.Success? && !first.value.complete
            && Record(maxRefs, first.value.refs, operation, first.value.focused, first.value.outcomes)
               == Success(first.value.(complete := true))
  {
    var bounded := Last(Named(refs), maxRefs);
    assert |bounded| == 1 ==> bounded[0] in Named(refs);
    RecordingAgainKeepsIffComplete(maxRefs, refs, operation, None, []);
  }

  /** The smallest such call: two orders where one fits. */
  lemma TwoOrdersWhereOneFits()
    ensures |Named(["A", "B"])| == 2
    ensures var first := Record(1, ["A", "B"], READ, None, []);
            first.Success? && Record(1, first.value.refs, READ, first.value.focused, []) != first
  {
    var a, b := "A", "B";
    var refs := [a, b];
    OneLetter(a);
    OneLetter(b);
    SpelledUnchanged(refs);
    assert a[0] != b[0] && Unique(refs);
    DistinctUnchanged(refs);
    TruncationIsForgotten(1, refs, READ);
  }

  lemma OneLetter(s: string)
    requires |s| == 1 && 'A' <= s[0] <= 'Z'
    ensures Text.Canonical(s) == s
  {
    assert Text.StripLeft(s) == s && Text.StripRight(s) == s;
    assert Text.Upper(s) == s;
  }

  lemma CoherentIsFixed(maxRefs: nat, operation: Operation, s: Snapshot)
    requires Coherent(s) && s.operation == Some(operation) && |s.refs| <= maxRefs
    requires |s.refs| == 1 ==> s.focused == Some(s.refs[0])
    ensures Record(maxRefs, s.refs, operation, s.focused, s.outcomes) == Success(s.(complete := true))
  {
    SpelledUnchanged(s.refs);
    DistinctUnchanged(s.refs);
    OutcomesSpelledUnchanged(s.outcomes, s.refs);
    OutcomesUnchanged(s.outcomes, s.refs);
    assert Named(s.refs) == s.refs && Last(s.refs, maxRefs) == s.refs;
    assert FocusOf(s.refs, s.focused) == s.focused;
    assert Kept(s.refs, s.focused) == s.refs;
  }

  /** One reference is always in focus. */
  lemma FocusedWhenSingle(maxRefs: nat, refs: seq<string>, operation: Operation, focus: Option<string>, outcomes: seq<Outcome>)
    requires maxRefs >= 1 && Record(maxRefs, refs, operation, focus, outcomes).Success?
    ensures var s := Record(maxRefs, refs, operation, focus, outcomes).value;
            |s.refs| == 1 ==> s.focused == Some(s.refs[0])
  {
  }

  /** `record` refuses a call exactly for one of its three stated reasons. */
  lemma RecordedIff(maxRefs: nat, refs: seq<string>, operation: Operation, focus: Option<string>, outcomes: seq<Outcome>)
    requires maxRefs >= 1
    ensures Record(maxRefs, refs, operation, focus, outcomes).Success?
            <==> && (exists r :: r in refs && Text.Strip(r) != "")
                 && (focus.Some? && focus.value != "" ==> Refers(refs, focus.value))
                 && (forall o :: o in outcomes ==> Refers(refs, o.0))
  {
    var named := Named(refs);
    NamesSomething(refs);
    if focus.Some? {
      NamedIff(refs, Text.Canonical(focus.value));
    }
    OutcomesNamed(refs, outcomes);
    if named != [] {
      LastIsNamed(named, maxRefs);
    }
  }

  lemma LastIsNamed(named: seq<string>, maxRefs: nat)
    requires named != [] && maxRefs >= 1
    ensures Last(named, maxRefs) != [] && Last(named, maxRefs)[0] in named
  {
  }

  lemma NamesSomething(refs: seq<string>)
    ensures Named(refs) != [] <==> exists r :: r in refs && Text.Strip(r) != ""
  {
    if Named(refs) != [] {
      NamedIff(refs, Named(refs)[0]);
    }
    if r :| r in refs && Text.Strip(r) != "" {
      NamedIff(refs, Text.Canonical(r));
    }
  }

  lemma OutcomesNamed(refs: seq<string>, os: seq<Outcome>)
    ensures (forall o :: o in SpelledOutcomes(os) ==> o.0 in Named(refs)) <==> forall o :: o in os ==> Refers(refs, o.0)
  {
    var spelled := SpelledOutcomes(os);
    forall i | 0 <= i < |os|
      ensures spelled[i] in spelled && (spelled[i].0 in Named(refs) <==> Refers(refs, os[i].0))
    {
      NamedIff(refs, Text.Canonical(os[i].0));
    }
    if forall o :: o in spelled ==> o.0 in Named(refs) {
      forall o | o in os
        ensures Refers(refs, o.0)
      {
        var i :| 0 <= i < |os| && os[i] == o;
        assert spelled[i].0 in Named(refs);
      }
    }
    if forall o :: o in os ==> Refers(refs, o.0) {
      forall o | o in spelled
        ensures o.0 in Named(refs)
      {
        var i :| 0 <= i < |spelled| && spelled[i] == o;
        assert os[i] in os;
      }
    }
  }

  /** Some non-blank reference has the same canonical spelling. */
  ghost predicate Refers(refs: seq<string>, ref: string) {
    exists r :: r in refs && Text.Strip(r) != "" && Text.Canonical(r) == Text.Canonical(ref)
  }

  lemma {:induction false} SpelledIff(refs: seq<string>, x: string)
    ensures x in Spelled(refs) <==> exists r :: r in refs && Text.Strip(r) != "" && Text.Canonical(r) == x
  {
    if refs != [] {
      var front, last := refs[..|refs| - 1], refs[|refs| - 1];
      SpelledIff(front, x);
      assert forall r :: r in refs <==> r in front || r == last by {
        assert refs == front + [last];
      }
    }
  }

  lemma NamedIff(refs: seq<string>, x: string)
    ensures x in Named(refs) <==> exists r :: r in refs && Text.Strip(r) != "" && Text.Canonical(r) == x
  {
    DistinctIs(Spelled(refs));
    SpelledIff(refs, x);
  }

  /** The newest references are kept; a focus among the older ones takes the place of the oldest kept. */
  ghost predicate NewestOrFocus(named: seq<string>, maxRefs: nat, focus: Option<string>, kept: seq<string>)
    requires maxRefs >= 1
  {
    var n := |named|;
    kept == if n <= maxRefs then named
            else if focus.Some? && focus.value !in named[n - maxRefs..] then named[n - maxRefs + 1..] + [focus.value]
            else named[n - maxRefs..]
  }

  /** The snapshot that a call leaves, part by part. */
  lemma RecordContents(maxRefs: nat, refs: seq<string>, operation: Operation, focus: Option<string>, outcomes: seq<Outcome>)
    requires maxRefs >= 1 && Record(maxRefs, refs, operation, focus, outcomes).Success?
    ensures var s := Record(maxRefs, refs, operation, focus, outcomes).value;
            var named := Named(refs);
            var n := |named|;
            && s.operation == Some(operation)
            && (focus.Some? && focus.value != "" ==> s.focused == Some(Text.Canonical(focus.value)))
            && (focus.None? || focus.value == "" ==>
                  s.focused == if n == 1 || maxRefs == 1 then Some(named[n - 1]) else None)
            && NewestOrFocus(named, maxRefs, s.focused, s.refs)
            && (forall o :: o in s.outcomes <==> o.0 in s.refs && exists p :: p in outcomes && o == (Text.Canonical(p.0), p.1))
  {
    var s := Record(maxRefs, refs, operation, focus, outcomes).value;
    SpelledOutcomesMembers(outcomes);
    forall o
      ensures o in s.outcomes <==> o in SpelledOutcomes(outcomes) && o.0 in s.refs
    {
      OutcomesMembers(SpelledOutcomes(outcomes), s.refs, o);
    }
  }

  lemma SpelledOutcomesMembers(os: seq<Outcome>)
    ensures forall o :: o in SpelledOutcomes(os) <==> exists p :: p in os && o == (Text.Canonical(p.0), p.1)
  {
    var spelled := SpelledOutcomes(os);
    forall o | o in spelled
      ensures exists p :: p in os && o == (Text.Canonical(p.0), p.1)
    {
      var i :| 0 <= i < |spelled| && spelled[i] == o;
      assert os[i] in os;
    }
    forall p | p in os
      ensures (Text.Canonical(p.0), p.1) in spelled
    {
      var i :| 0 <= i < |os| && os[i] == p;
      assert spelled[i] == (Text.Canonical(p.0), p.1);
    }
  }

  /** Whichever reference is kept, all that were named after it are kept too, the focus aside. */
  lemma NewestAreKept(
      maxRefs: nat, refs: seq<string>, operation: Operation, focus: Option<string>, outcomes: seq<Outcome>, i: nat, j: nat)
    requires maxRefs >= 1 && Record(maxRefs, refs, operation, focus, outcomes).Success?
    requires i < j < |Named(refs)|
    ensures var s := Record(maxRefs, refs, operation, focus, outcomes).value;
            Named(refs)[i] in s.refs && s.focused != Some(Named(refs)[i]) ==> Named(refs)[j] in s.refs
  {
    var s := Record(maxRefs, refs, operation, focus, outcomes).value;
    RecordContents(maxRefs, refs, operation, focus, outcomes);
    DistinctIs(Spelled(refs));
    NewerIsKept(Named(refs), maxRefs, s.focused, s.refs, i, j);
  }

  lemma NewerIsKept(named: seq<string>, maxRefs: nat, focus: Option<string>, kept: seq<string>, i: nat, j: nat)
    requires 1 <= maxRefs && Unique(named) && i < j < |named| && NewestOrFocus(named, maxRefs, focus, kept)
    ensures named[i] in kept && focus != Some(named[i]) ==> named[j] in kept
  {
    if |named| > maxRefs && named[i] in kept && focus != Some(named[i]) {
      var from := |named| - maxRefs;
      var first := if focus.Some? && focus.value !in named[from..] then from + 1 else from;
      InSuffix(named, first, i);
      InSuffix(named, first, j);
    }
  }

  lemma InSuffix(xs: seq<string>, from: nat, i: nat)
    requires from <= |xs| && i < |xs| && Unique(xs)
    ensures xs[i] in xs[from..] <==> from <= i
  {
    if from <= i {
      assert xs[from..][i - from] == xs[i];
    }
  }

  /** Naming more orders never moves the ones named before: each stands where it was first named. */
  lemma {:induction false} FirstNamedStaysFirst(xs: seq<string>, ys: seq<string>)
    ensures Distinct(xs) <= Distinct(xs + ys)
    ensures Spelled(xs + ys) == Spelled(xs) + Spelled(ys)
  {
    if ys == [] {
      assert xs + ys == xs;
    } else {
      var before := ys[..|ys| - 1];
      assert (xs + ys)[..|xs + ys| - 1] == xs + before;
      FirstNamedStaysFirst(xs, before);
    }
  }
}
