/** The closed consent grammar: a worklist search that decides whether a reply grants consent. */
module Consent {

  type Phrase = seq<string>

  // A reply cut into phrases, built from the front: each piece is a listed signal or a listed filler.
  datatype Cut = Start | Signal(before: Cut, phrase: Phrase) | Filler(before: Cut, phrase: Phrase)

  function Words(cut: Cut): Phrase {
    match cut
    case Start => []
    case Signal(before, phrase) => Words(before) + phrase
    case Filler(before, phrase) => Words(before) + phrase
  }

  predicate HasSignal(cut: Cut) {
    match cut
    case Start => false
    case Signal(_, _) => true
    case Filler(before, _) => HasSignal(before)
  }

  predicate Listed(cut: Cut, signals: seq<Phrase>, fillers: seq<Phrase>) {
    match cut
    case Start => true
    case Signal(before, phrase) => phrase in signals && Listed(before, signals, fillers)
    case Filler(before, phrase) => phrase in fillers && Listed(before, signals, fillers)
  }

  /** The words can be cut into listed phrases, at least one of them a signal. */
  ghost predicate Affirms(words: Phrase, signals: seq<Phrase>, fillers: seq<Phrase>) {
    exists cut :: Words(cut) == words && Listed(cut, signals, fillers) && HasSignal(cut)
  }

  // A search state: how many words are consumed, and whether a signal was among them.
  type Node = (nat, bool)

  predicate Continues(words: Phrase, index: nat, phrase: Phrase) {
    index + |phrase| <= |words| && words[index..index + |phrase|] == phrase
  }

  /** The states a phrase table leads to from `index`, in table order. */
  function Successors(words: Phrase, index: nat, table: seq<Phrase>, has: bool): seq<Node> {
    if table == [] then []
    else
      (if Continues(words, index, table[0]) then [(index + |table[0]|, has)] else [])
      + Successors(words, index, table[1..], has)
  }

  lemma {:induction false} SuccessorsAre(words: Phrase, index: nat, table: seq<Phrase>, has: bool, n: Node)
    ensures n in Successors(words, index, table, has)
            <==> n.1 == has && exists p :: p in table && Continues(words, index, p) && n.0 == index + |p|
  {
    if table != [] {
      SuccessorsAre(words, index, table[1..], has, n);
      assert forall p :: p in table <==> p == table[0] || p in table[1..];
    }
  }

  /** A state the search may hold: some listed cut of that many leading words ends there. */
  ghost predicate Reached(words: Phrase, signals: seq<Phrase>, fillers: seq<Phrase>, n: Node) {
    n.0 <= |words|
    && exists cut :: Words(cut) == words[..n.0] && Listed(cut, signals, fillers) && HasSignal(cut) == n.1
  }

  lemma ReachedStep(words: Phrase, signals: seq<Phrase>, fillers: seq<Phrase>, n: Node, p: Phrase, signal: bool)
    requires Reached(words, signals, fillers, n) && Continues(words, n.0, p)
    requires p in (if signal then signals else fillers)
    ensures Reached(words, signals, fillers, (n.0 + |p|, n.1 || signal))
  {
    var cut :| Words(cut) == words[..n.0] && Listed(cut, signals, fillers) && HasSignal(cut) == n.1;
    var next := if signal then Signal(cut, p) else Filler(cut, p);
    assert words[..n.0 + |p|] == words[..n.0] + p;
    assert Words(next) == words[..n.0 + |p|] && Listed(next, signals, fillers);
  }

  lemma SuccessorsReached(words: Phrase, signals: seq<Phrase>, fillers: seq<Phrase>, n: Node, m: Node)
    requires Reached(words, signals, fillers, n)
    requires m in Successors(words, n.0, signals, true) || m in Successors(words, n.0, fillers, n.1)
    ensures Reached(words, signals, fillers, m)
  {
    SuccessorsAre(words, n.0, signals, true, m);
    SuccessorsAre(words, n.0, fillers, n.1, m);
    if m in Successors(words, n.0, signals, true) {
      var p :| p in signals && Continues(words, n.0, p) && m.0 == n.0 + |p|;
      ReachedStep(words, signals, fillers, n, p, true);
    } else {
      var p :| p in fillers && Continues(words, n.0, p) && m.0 == n.0 + |p|;
      ReachedStep(words, signals, fillers, n, p, false);
    }
  }

  /** Every continuation of a state is held too. */
  ghost predicate Closed(words: Phrase, signals: seq<Phrase>, fillers: seq<Phrase>, n: Node, held: set<Node>) {
    && (forall p {:trigger Continues(words, n.0, p)} :: p in signals && Continues(words, n.0, p) ==> (n.0 + |p|, true) in held)
    && (forall p {:trigger Continues(words, n.0, p)} :: p in fillers && Continues(words, n.0, p) ==> (n.0 + |p|, n.1) in held)
  }

  /**
   * Following a listed cut inside a closed set of states stays inside. Where the set stops being
   * closed, at the last word, only an empty signal could still change the state.
   */
  lemma {:induction false} FollowCut(
      words: Phrase, signals: seq<Phrase>, fillers: seq<Phrase>, held: set<Node>, start: bool, cut: Cut)
    requires forall m {:trigger Closed(words, signals, fillers, m, held)} ::
               m in held && m.0 < |words| ==> Closed(words, signals, fillers, m, held)
    requires (0, start) in held && (start || [] !in signals)
    requires Listed(cut, signals, fillers) && Words(cut) <= words
    ensures (|Words(cut)|, start || HasSignal(cut)) in held
    decreases cut
  {
    if cut != Start {
      var k := |Words(cut.before)|;
      assert words[k..k + |cut.phrase|] == cut.phrase;
      assert Continues(words, k, cut.phrase);
      assert Words(cut.before) <= words;
      FollowCut(words, signals, fillers, held, start, cut.before);
      if k < |words| {
        assert Closed(words, signals, fillers, (k, start || HasSignal(cut.before)), held);
      } else {
        assert cut.phrase == [];
      }
    }
  }

  lemma ClosedSearchIsComplete(words: Phrase, signals: seq<Phrase>, fillers: seq<Phrase>, held: set<Node>)
    requires forall m {:trigger Closed(words, signals, fillers, m, held)} ::
               m in held && m.0 < |words| ==> Closed(words, signals, fillers, m, held)
    requires (0, false) in held && words != [] && Affirms(words, signals, fillers)
    ensures (|words|, true) in held
  {
    var cut :| Words(cut) == words && Listed(cut, signals, fillers) && HasSignal(cut);
    var none: Phrase := [];
    if none in signals {
      assert Closed(words, signals, fillers, (0, false), held);
      assert Continues(words, 0, none) && (0 + |none|, true) in held;
      FollowCut(words, signals, fillers, held, true, cut);
    } else {
      FollowCut(words, signals, fillers, held, false, cut);
    }
  }

  ghost function AllNodes(n: nat): set<Node> {
    set i: nat, b: bool | 0 <= i <= n && b in {false, true} :: (i, b)
  }

  ghost function Held(visited: set<Node>, pending: seq<Node>): set<Node> {
    visited + set n | n in pending
  }

  /** What the search keeps: it only holds reached states, and expanded every visited one. */
  ghost predicate Searching(
      words: Phrase, signals: seq<Phrase>, fillers: seq<Phrase>, visited: set<Node>, pending: seq<Node>)
  {
    && (forall n :: n in pending ==> Reached(words, signals, fillers, n) && (words == [] ==> !n.1))
    && visited <= AllNodes(|words|) - {(|words|, true)}
    && (0, false) in Held(visited, pending)
    && (forall m {:trigger Closed(words, signals, fillers, m, Held(visited, pending))} ::
          m in visited && m.0 < |words| ==> Closed(words, signals, fillers, m, Held(visited, pending)))
  }

  lemma SearchStarts(words: Phrase, signals: seq<Phrase>, fillers: seq<Phrase>)
    ensures Searching(words, signals, fillers, {}, [(0, false)])
  {
    assert Words(Start) == words[..0];
    assert Reached(words, signals, fillers, (0, false));
  }

  /** Visiting the top of the stack, whether it was seen before, ends the words, or is expanded. */
  lemma SearchContinues(
      words: Phrase, signals: seq<Phrase>, fillers: seq<Phrase>,
      visited: set<Node>, rest: seq<Node>, n: Node, more: seq<Node>)
    requires Searching(words, signals, fillers, visited, rest + [n])
    requires n != (|words|, true)
    requires n.0 < |words| && n !in visited ==>
               more == Successors(words, n.0, signals, true) + Successors(words, n.0, fillers, n.1)
    requires n.0 == |words| || n in visited ==> more == []
    ensures Searching(words, signals, fillers, visited + {n}, rest + more)
  {
    var held, held' := Held(visited, rest + [n]), Held(visited + {n}, rest + more);
    assert n in rest + [n];
    assert forall m :: m in rest ==> m in rest + [n];
    assert held <= held' by {
      assert forall m :: m in rest ==> m in rest + more;
    }
    forall m | m in rest + more
      ensures Reached(words, signals, fillers, m) && (words == [] ==> !m.1)
    {
      if m !in rest {
        SuccessorsReached(words, signals, fillers, n, m);
      }
    }
    forall m | m in visited + {n} && m.0 < |words|
      ensures Closed(words, signals, fillers, m, held')
    {
      if m in visited {
        assert Closed(words, signals, fillers, m, held);
      } else {
        ExpandedIsClosed(words, signals, fillers, n, more, held');
      }
    }
  }

  lemma ExpandedIsClosed(
      words: Phrase, signals: seq<Phrase>, fillers: seq<Phrase>, n: Node, more: seq<Node>, held: set<Node>)
    requires more == Successors(words, n.0, signals, true) + Successors(words, n.0, fillers, n.1)
    requires forall m :: m in more ==> m in held
    ensures Closed(words, signals, fillers, n, held)
  {
    forall p | p in signals && Continues(words, n.0, p)
      ensures (n.0 + |p|, true) in held
    {
      SuccessorsAre(words, n.0, signals, true, (n.0 + |p|, true));
    }
    forall p | p in fillers && Continues(words, n.0, p)
      ensures (n.0 + |p|, n.1) in held
    {
      SuccessorsAre(words, n.0, fillers, n.1, (n.0 + |p|, n.1));
    }
  }

  /**
   * The search over (words consumed, signal seen) states. It ends for every pair of phrase tables,
   * and answers yes exactly for the non-empty replies that the tables affirm.
   */
  method IsBoundedAffirmative(words: Phrase, signals: seq<Phrase>, fillers: seq<Phrase>) returns (yes: bool)
    ensures yes <==> words != [] && Affirms(words, signals, fillers)
  {
    var pending: seq<Node> := [(0, false)];
    var visited: set<Node> := {};
    SearchStarts(words, signals, fillers);
    while pending != []
      invariant Searching(words, signals, fillers, visited, pending)
      decreases AllNodes(|words|) - visited, |pending|
    {
      var node := pending[|pending| - 1];
      var rest := pending[..|pending| - 1];
      assert pending == rest + [node];
      pending := rest;
      var (index, has) := node;
      if node in visited {
        SearchContinues(words, signals, fillers, visited, rest, node, []);
        assert visited + {node} == visited && rest + [] == rest;
        continue;
      }
      assert Reached(words, signals, fillers, node) && node in AllNodes(|words|);
      if index == |words| && has {
        assert words[..|words|] == words;
        return true;
      }
      visited := visited + {node};
      if index == |words| {
        SearchContinues(words, signals, fillers, visited - {node}, rest, node, []);
        assert visited - {node} + {node} == visited && rest + [] == rest;
        continue;
      }
      var bySignal := Successors(words, index, signals, true);
      var byFiller := Successors(words, index, fillers, has);
      SearchContinues(words, signals, fillers, visited - {node}, rest, node, bySignal + byFiller);
      assert visited - {node} + {node} == visited && rest + (bySignal + byFiller) == rest + bySignal + byFiller;
      pending := pending + bySignal + byFiller;
    }
    if words != [] && Affirms(words, signals, fillers) {
      assert Held(visited, []) == visited;
      ClosedSearchIsComplete(words, signals, fillers, visited);
    }
    return false;
  }

  /** A reply that holds any word outside the listed phrases is never a yes. */
  lemma {:induction false} OnlyListedWords(cut: Cut, signals: seq<Phrase>, fillers: seq<Phrase>, word: string)
    requires Listed(cut, signals, fillers) && word in Words(cut)
    ensures exists p :: (p in signals || p in fillers) && word in p
  {
    if word in cut.phrase {
      assert cut.phrase in signals || cut.phrase in fillers;
    } else {
      OnlyListedWords(cut.before, signals, fillers, word);
    }
  }
}
