/** Lexical product lookup: phrase containment, ranking, equally-best matches and bounded search. */
module Catalog {

  const CATALOG_RESULT_MAX_ITEMS := 10

  /** A catalog item and the words of its name. */
  datatype Item = Item(sku: string, words: seq<string>)

  // ---------------------------------------------------------------- phrases

  /** Whether `needle` stands in `haystack` as one unbroken run of words. */
  predicate ContainsSequence(haystack: seq<string>, needle: seq<string>) {
    needle != [] && exists i :: 0 <= i <= |haystack| - |needle| && StandsAt(haystack, needle, i)
  }

  predicate StandsAt(haystack: seq<string>, needle: seq<string>, i: nat)
    requires i + |needle| <= |haystack|
  {
    haystack[i..i + |needle|] == needle
  }

  predicate SubphraseOf(inner: seq<string>, outer: seq<string>) {
    inner != outer && ContainsSequence(outer, inner)
  }

  lemma SliceOfSlice(ws: seq<string>, i: nat, m: nat, j: nat, n: nat)
    requires i + m <= |ws| && j + n <= m
    ensures ws[i..i + m][j..j + n] == ws[i + j..i + j + n]
  {
    var l, r := ws[i..i + m][j..j + n], ws[i + j..i + j + n];
    assert |l| == |r| && forall k :: 0 <= k < n ==> l[k] == r[k];
  }

  lemma ContainsTransitive(text: seq<string>, outer: seq<string>, inner: seq<string>)
    requires ContainsSequence(text, outer) && ContainsSequence(outer, inner)
    ensures ContainsSequence(text, inner)
  {
    var i :| 0 <= i <= |text| - |outer| && StandsAt(text, outer, i);
    var j :| 0 <= j <= |outer| - |inner| && StandsAt(outer, inner, j);
    SliceOfSlice(text, i, |outer|, j, |inner|);
    var k := i + j;
    assert 0 <= k <= |text| - |inner|;
    assert StandsAt(text, inner, k);
  }

  lemma SubphraseIsShorter(inner: seq<string>, outer: seq<string>)
    requires SubphraseOf(inner, outer)
    ensures |inner| < |outer|
  {
  }

  /** Sub-phrase is a strict partial order. */
  lemma SubphraseIsStrictOrder(a: seq<string>, b: seq<string>, c: seq<string>)
    ensures !SubphraseOf(a, a)
    ensures SubphraseOf(a, b) ==> !SubphraseOf(b, a)
    ensures SubphraseOf(a, b) && SubphraseOf(b, c) ==> SubphraseOf(a, c)
  {
    if SubphraseOf(a, b) {
      SubphraseIsShorter(a, b);
      if SubphraseOf(b, a) {
        SubphraseIsShorter(b, a);
      }
      if SubphraseOf(b, c) {
        SubphraseIsShorter(b, c);
        ContainsTransitive(c, b, a);
      }
    }
  }

  /** Why the longer of two nested names cannot be told apart by speech: saying it says the shorter. */
  lemma LongerNameSpeaksShorter(text: seq<string>, inner: seq<string>, outer: seq<string>)
    requires SubphraseOf(inner, outer) && ContainsSequence(text, outer)
    ensures ContainsSequence(text, inner)
  {
    ContainsTransitive(text, outer, inner);
  }

  // ---------------------------------------------------------------- ranking

  function Words(ws: seq<string>): set<string> {
    set w | w in ws
  }

  function Overlap(query: seq<string>, words: seq<string>): nat {
    |Words(query) * Words(words)|
  }

  predicate Qualifies(query: seq<string>, words: seq<string>) {
    query != [] && Overlap(query, words) >= if |query| == 1 || |words| == 1 then 1 else 2
  }

  function Score(query: seq<string>, words: seq<string>): nat {
    Overlap(query, words) + if ContainsSequence(query, words) || ContainsSequence(words, query) then 1 else 0
  }

  datatype Entry = Entry(score: nat, index: nat, item: Item)

  function EntryOf(items: seq<Item>, query: seq<string>, i: nat): Entry
    requires i < |items|
  {
    Entry(Score(query, items[i].words), i, items[i])
  }

  /** The sort key `(-score, index)`. */
  predicate Before(a: Entry, b: Entry) {
    a.score > b.score || (a.score == b.score && a.index < b.index)
  }

  ghost predicate Ordered(es: seq<Entry>) {
    forall i, j :: 0 <= i < j < |es| ==> Before(es[i], es[j])
  }

  /** `es` lists each qualifying catalog item, and nothing else. */
  ghost predicate ListsQualifying(es: seq<Entry>, items: seq<Item>, query: seq<string>) {
    forall e :: e in es <==> IsQualifying(e, items, query)
  }

  ghost predicate IsQualifying(e: Entry, items: seq<Item>, query: seq<string>) {
    e.index < |items| && Qualifies(query, items[e.index].words) && e == EntryOf(items, query, e.index)
  }

  function Insert(e: Entry, es: seq<Entry>): seq<Entry> {
    if es == [] || Before(e, es[0]) then [e] + es else [es[0]] + Insert(e, es[1..])
  }

  /** `list.sort` under the key above. */
  function Sort(es: seq<Entry>): seq<Entry> {
    if es == [] then [] else Insert(es[0], Sort(es[1..]))
  }

  lemma {:induction false} InsertMembers(e: Entry, es: seq<Entry>, x: Entry)
    ensures x in Insert(e, es) <==> x == e || x in es
  {
    if es != [] && !Before(e, es[0]) {
      InsertMembers(e, es[1..], x);
    }
  }

  lemma {:induction false} InsertOrdered(e: Entry, es: seq<Entry>)
    requires Ordered(es) && forall x :: x in es ==> x.index != e.index
    ensures Ordered(Insert(e, es))
  {
    if es != [] && !Before(e, es[0]) {
      InsertOrdered(e, es[1..]);
      var tail := Insert(e, es[1..]);
      forall j | 0 <= j < |tail|
        ensures Before(es[0], tail[j])
      {
        InsertMembers(e, es[1..], tail[j]);
      }
    }
  }

  lemma {:induction false} SortMembers(es: seq<Entry>, x: Entry)
    ensures x in Sort(es) <==> x in es
  {
    if es != [] {
      SortMembers(es[1..], x);
      InsertMembers(es[0], Sort(es[1..]), x);
    }
  }

  ghost predicate DistinctIndices(es: seq<Entry>) {
    forall i, j :: 0 <= i < j < |es| ==> es[i].index != es[j].index
  }

  lemma {:induction false} SortOrdered(es: seq<Entry>)
    requires DistinctIndices(es)
    ensures Ordered(Sort(es))
  {
    if es != [] {
      SortOrdered(es[1..]);
      forall x | x in Sort(es[1..])
        ensures x.index != es[0].index
      {
        SortMembers(es[1..], x);
      }
      InsertOrdered(es[0], Sort(es[1..]));
    }
  }

  /** What item `i` adds to the collected entries. */
  function Added(items: seq<Item>, query: seq<string>, i: nat): seq<Entry>
    requires i < |items|
  {
    if Qualifies(query, items[i].words) then [EntryOf(items, query, i)] else []
  }

  /** The collected entries, in catalog order. */
  function Collected(items: seq<Item>, query: seq<string>, n: nat): seq<Entry>
    requires n <= |items|
  {
    if n == 0 then [] else Collected(items, query, n - 1) + Added(items, query, n - 1)
  }

  lemma CollectedNext(items: seq<Item>, query: seq<string>, n: nat)
    requires n < |items|
    ensures Collected(items, query, n + 1)
            == if Qualifies(query, items[n].words) then Collected(items, query, n) + [EntryOf(items, query, n)]
               else Collected(items, query, n)
  {
  }

  lemma AddedMembers(items: seq<Item>, query: seq<string>, i: nat, e: Entry)
    requires i < |items|
    ensures e in Added(items, query, i) <==> e.index == i && IsQualifying(e, items, query)
  {
  }

  /** Members of the entries below `n` followed by those at `n`, given which of the two `e` belongs to. */
  lemma MembersGrow(front: seq<Entry>, added: seq<Entry>, e: Entry, n: nat, wanted: bool)
    requires e in front <==> e.index < n && wanted
    requires e in added <==> e.index == n && wanted
    ensures e in front + added <==> e.index < n + 1 && wanted
  {
  }

  lemma {:induction false} CollectedMembers(items: seq<Item>, query: seq<string>, n: nat, e: Entry)
    requires n <= |items|
    ensures e in Collected(items, query, n) <==> e.index < n && IsQualifying(e, items, query)
  {
    if n > 0 {
      var front, added := Collected(items, query, n - 1), Added(items, query, n - 1);
      CollectedMembers(items, query, n - 1, e);
      AddedMembers(items, query, n - 1, e);
      MembersGrow(front, added, e, n - 1, IsQualifying(e, items, query));
      assert Collected(items, query, n) == front + added;
    }
  }

  lemma AppendDistinct(es: seq<Entry>, last: Entry)
    requires DistinctIndices(es) && forall e :: e in es ==> e.index != last.index
    ensures DistinctIndices(es + [last])
  {
  }

  lemma {:induction false} CollectedDistinct(items: seq<Item>, query: seq<string>, n: nat)
    requires n <= |items|
    ensures DistinctIndices(Collected(items, query, n))
  {
    if n > 0 {
      CollectedDistinct(items, query, n - 1);
      CollectedNext(items, query, n - 1);
      EarlierIndices(items, query, n - 1);
      AppendDistinct(Collected(items, query, n - 1), EntryOf(items, query, n - 1));
    }
  }

  lemma EarlierIndices(items: seq<Item>, query: seq<string>, n: nat)
    requires n <= |items|
    ensures forall e :: e in Collected(items, query, n) ==> e.index < n
  {
    forall e | e in Collected(items, query, n)
      ensures e.index < n
    {
      CollectedMembers(items, query, n, e);
    }
  }

  function Ranking(items: seq<Item>, query: seq<string>): seq<Entry> {
    Sort(Collected(items, query, |items|))
  }

  /** The ranking is exactly the qualifying items, by falling score and then catalog position. */
  lemma RankingIsSpec(items: seq<Item>, query: seq<string>)
    ensures Ordered(Ranking(items, query))
    ensures ListsQualifying(Ranking(items, query), items, query)
  {
    var es := Collected(items, query, |items|);
    CollectedDistinct(items, query, |items|);
    SortOrdered(es);
    forall e
      ensures e in Sort(es) <==> IsQualifying(e, items, query)
    {
      SortMembers(es, e);
      CollectedMembers(items, query, |items|, e);
    }
  }

  /** Two ordered lists of the same entries are the same list. */
  lemma {:induction false} OrderedUnique(a: seq<Entry>, b: seq<Entry>)
    requires Ordered(a) && Ordered(b)
    requires forall e :: e in a <==> e in b
    ensures a == b
  {
    assert a != [] ==> a[0] in b;
    assert b != [] ==> b[0] in a;
    if a != [] && b != [] {
      HeadsAgree(a, b);
      forall e
        ensures e in a[1..] <==> e in b[1..]
      {
        TailMember(a, e);
        TailMember(b, e);
      }
      OrderedUnique(a[1..], b[1..]);
      assert a == [a[0]] + a[1..] && b == [b[0]] + b[1..];
    }
  }

  lemma HeadsAgree(a: seq<Entry>, b: seq<Entry>)
    requires Ordered(a) && Ordered(b) && a != [] && b != []
    requires forall e :: e in a <==> e in b
    ensures a[0] == b[0]
  {
    assert a[0] in b && b[0] in a;
  }

  lemma TailMember(a: seq<Entry>, e: Entry)
    requires Ordered(a) && a != []
    ensures e in a[1..] <==> e in a && e != a[0]
  {
  }

  /** The specification determines the ranking: any sort by this key gives the same list. */
  lemma RankingUnique(items: seq<Item>, query: seq<string>, es: seq<Entry>)
    ensures Ordered(es) && ListsQualifying(es, items, query) <==> es == Ranking(items, query)
  {
    RankingIsSpec(items, query);
    if Ordered(es) && ListsQualifying(es, items, query) {
      OrderedUnique(es, Ranking(items, query));
    }
  }

  method RankNamedItems(items: seq<Item>, query: seq<string>) returns (ranked: seq<Entry>)
    ensures Ordered(ranked) && ListsQualifying(ranked, items, query)
    ensures ranked == Ranking(items, query)
  {
    RankingIsSpec(items, query);
    if query == [] {
      RankingUnique(items, query, []);
      return [];
    }
    ranked := [];
    for index := 0 to |items|
      invariant ranked == Collected(items, query, index)
    {
      CollectedNext(items, query, index);
      var words := items[index].words;
      var overlap := Overlap(query, words);
      var minimumOverlap := if |query| == 1 || |words| == 1 then 1 else 2;
      if overlap >= minimumOverlap {
        var bonus := if ContainsSequence(query, words) || ContainsSequence(words, query) then 1 else 0;
        ranked := ranked + [Entry(overlap + bonus, index, items[index])];
      }
    }
    ranked := Sort(ranked);
  }

  // ---------------------------------------------------------------- matches and search

  function WithScore(es: seq<Entry>, score: nat): seq<Entry> {
    if es == [] then []
    else (if es[0].score == score then [es[0]] else []) + WithScore(es[1..], score)
  }

  /** The equally best matches, as `match_named_items` takes them from the ranking. */
  function MatchNamedItems(items: seq<Item>, query: seq<string>): seq<Entry> {
    var ranked := Ranking(items, query);
    if ranked == [] then [] else WithScore(ranked, ranked[0].score)
  }

  lemma {:induction false} WithScoreMembers(es: seq<Entry>, score: nat, e: Entry)
    ensures e in WithScore(es, score) <==> e in es && e.score == score
  {
    if es != [] {
      WithScoreMembers(es[1..], score, e);
    }
  }

  lemma {:induction false} WithScoreOrdered(es: seq<Entry>, score: nat)
    requires Ordered(es)
    ensures Ordered(WithScore(es, score))
  {
    if es != [] {
      WithScoreOrdered(es[1..], score);
      var tail := WithScore(es[1..], score);
      forall j | 0 <= j < |tail|
        ensures Before(es[0], tail[j])
      {
        WithScoreMembers(es[1..], score, tail[j]);
      }
    }
  }

  /** No qualifying item scores higher. */
  ghost predicate IsBest(e: Entry, items: seq<Item>, query: seq<string>) {
    && IsQualifying(e, items, query)
    && forall other :: IsQualifying(other, items, query) ==> other.score <= e.score
  }

  /** The matches are exactly the best-scoring items, in catalog order, each once. */
  lemma MatchesAreTheBest(items: seq<Item>, query: seq<string>)
    ensures var found := MatchNamedItems(items, query);
            && (forall e :: e in found <==> IsBest(e, items, query))
            && (forall i, j :: 0 <= i < j < |found| ==> found[i].index < found[j].index)
  {
    var ranked := Ranking(items, query);
    var found := MatchNamedItems(items, query);
    RankingIsSpec(items, query);
    if ranked != [] {
      var best := ranked[0].score;
      WithScoreOrdered(ranked, best);
      forall e
        ensures e in found <==> e in ranked && e.score == best
      {
        WithScoreMembers(ranked, best, e);
      }
      assert ranked[0] in ranked;
      assert forall other :: other in ranked ==> other.score <= best;
    }
  }

  /** `FixtureCatalog.search`: the first ten of the ranking. */
  function Search(items: seq<Item>, query: seq<string>): seq<Entry> {
    var ranked := Ranking(items, query);
    if |ranked| <= CATALOG_RESULT_MAX_ITEMS then ranked else ranked[..CATALOG_RESULT_MAX_ITEMS]
  }

  /**
   * Search returns qualifying items only, in order, and leaves one out only when it is full and every
   * item it kept comes before the omitted one.
   */
  lemma SearchKeepsTheTop(items: seq<Item>, query: seq<string>, e: Entry)
    requires IsQualifying(e, items, query)
    ensures var found := Search(items, query);
            && Ordered(found)
            && (forall kept :: kept in found ==> IsQualifying(kept, items, query))
            && |found| <= 10
            && (e !in found ==> |found| == 10 && forall kept :: kept in found ==> Before(kept, e))
  {
    var ranked := Ranking(items, query);
    RankingIsSpec(items, query);
    assert e in ranked;
  }

  // ---------------------------------------------------------------- what saying a name achieves

  lemma {:induction false} SubsetCardinality(a: set<string>, b: set<string>)
    requires a <= b
    ensures |a| <= |b|
  {
    if a != {} {
      var x :| x in a;
      SubsetCardinality(a - {x}, b - {x});
    }
  }

  lemma ContainedWords(query: seq<string>, words: seq<string>)
    requires ContainsSequence(query, words)
    ensures Words(words) <= Words(query)
  {
  }

  /**
   * Saying a whole product name makes that product a candidate, unless its name repeats one word and
   * the caller said more than one: then a single distinct word is short of the required two.
   */
  lemma SpokenNameQualifiesIff(query: seq<string>, words: seq<string>)
    requires ContainsSequence(query, words)
    ensures Qualifies(query, words) <==> |words| == 1 || |Words(words)| >= 2
    ensures Score(query, words) == |Words(words)| + 1
  {
    ContainedWords(query, words);
    assert Words(query) * Words(words) == Words(words);
    assert words[0] in Words(words);
    SubsetCardinality({words[0]}, Words(words));
    if |query| == 1 {
      ContainedLength(query, words);
    }
  }

  /** A name that says one word twice is missed even by a caller who says exactly it. */
  lemma RepeatedWordIsMissed(word: string)
    ensures var name := [word, word]; ContainsSequence(name, name) && !Qualifies(name, name)
  {
    var name := [word, word];
    assert StandsAt(name, name, 0);
    assert Words(name) == {word};
    SpokenNameQualifiesIff(name, name);
  }

  lemma ContainedLength(query: seq<string>, words: seq<string>)
    requires ContainsSequence(query, words)
    ensures 1 <= |words| <= |query|
  {
  }

  /** Saying exactly a product's name, when it qualifies, always makes it one of the best matches. */
  lemma ExactNameIsAMatch(items: seq<Item>, query: seq<string>, i: nat)
    requires i < |items| && items[i].words == query && Qualifies(query, query)
    ensures EntryOf(items, query, i) in MatchNamedItems(items, query)
  {
    var e := EntryOf(items, query, i);
    assert StandsAt(query, query, 0);
    SpokenNameQualifiesIff(query, query);
    forall other | IsQualifying(other, items, query)
      ensures other.score <= e.score
    {
      SubsetCardinality(Words(query) * Words(items[other.index].words), Words(query));
    }
    assert IsBest(e, items, query);
    MatchesAreTheBest(items, query);
  }

  // ---------------------------------------------------------------- what the thresholds and scores mean

  /** The word is said in the query and stands in the name. */
  predicate Common(query: seq<string>, words: seq<string>, w: string) {
    w in query && w in words
  }

  lemma OneCommon(query: seq<string>, words: seq<string>)
    ensures Overlap(query, words) >= 1 <==> exists w :: Common(query, words, w)
  {
    var both := Words(query) * Words(words);
    if both != {} {
      var w :| w in both;
      assert Common(query, words, w);
    }
    if w :| Common(query, words, w) {
      assert w in both;
    }
  }

  lemma TwoCommon(query: seq<string>, words: seq<string>)
    ensures Overlap(query, words) >= 2 <==> exists v, w :: v != w && Common(query, words, v) && Common(query, words, w)
  {
    var both := Words(query) * Words(words);
    if |both| >= 2 {
      var v :| v in both;
      assert |both - {v}| >= 1;
      var w :| w in both - {v};
      assert Common(query, words, v) && Common(query, words, w);
    }
    if v, w :| v != w && Common(query, words, v) && Common(query, words, w) {
      SubsetCardinality({v, w}, both);
    }
  }

  /** An item qualifies by one common word where either side has only one, and otherwise by two different ones. */
  lemma QualifiesIff(query: seq<string>, words: seq<string>)
    ensures Qualifies(query, words) <==>
            query != [] &&
            if |query| == 1 || |words| == 1 then exists w :: Common(query, words, w)
            else exists v, w :: v != w && Common(query, words, v) && Common(query, words, w)
  {
    OneCommon(query, words);
    TwoCommon(query, words);
  }

  /** A one-word query finds every item whose name holds that word, and no other. */
  lemma OneWordFindsAll(items: seq<Item>, word: string, i: nat)
    requires i < |items|
    ensures (exists e :: e in Ranking(items, [word]) && e.index == i) <==> word in items[i].words
  {
    var query := [word];
    RankingIsSpec(items, query);
    QualifiesIff(query, items[i].words);
    assert Common(query, items[i].words, word) <==> word in items[i].words;
    assert Qualifies(query, items[i].words) ==> EntryOf(items, query, i) in Ranking(items, query);
  }

  /** A ranked entry names its own item and scores its common words, and one more for a phrase said whole either way. */
  lemma EntrySays(items: seq<Item>, query: seq<string>, e: Entry)
    requires e in Ranking(items, query)
    ensures e.index < |items| && e.item == items[e.index]
    ensures var common := set w | w in query && w in items[e.index].words;
            var phrase := ContainsSequence(query, items[e.index].words) || ContainsSequence(items[e.index].words, query);
            e.score == |common| + if phrase then 1 else 0
  {
    RankingIsSpec(items, query);
    assert (set w | w in query && w in items[e.index].words) == Words(query) * Words(items[e.index].words);
  }
}
