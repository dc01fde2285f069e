/**
 * Amounts counted against keys (money against orders, planned examples against sources, reviews against
 * reviewers), and the two ways of adding them up.
 */
module Amounts {
  datatype Amount = Amount(key: string, units: nat)

  /** What a list of amounts lays against one key. */
  function ForKey(cs: seq<Amount>, key: string): nat {
    if cs == [] then 0
    else ForKey(cs[..|cs| - 1], key) + if cs[|cs| - 1].key == key then cs[|cs| - 1].units else 0
  }

  function Total(cs: seq<Amount>): nat {
    if cs == [] then 0 else Total(cs[..|cs| - 1]) + cs[|cs| - 1].units
  }

  lemma {:induction false} ForKeyConcat(a: seq<Amount>, b: seq<Amount>, key: string)
    ensures ForKey(a + b, key) == ForKey(a, key) + ForKey(b, key)
  {
    if b == [] {
      assert a + b == a;
    } else {
      assert (a + b)[..|a + b| - 1] == a + b[..|b| - 1];
      ForKeyConcat(a, b[..|b| - 1], key);
    }
  }

  lemma {:induction false} TotalConcat(a: seq<Amount>, b: seq<Amount>)
    ensures Total(a + b) == Total(a) + Total(b)
  {
    if b == [] {
      assert a + b == a;
    } else {
      assert (a + b)[..|a + b| - 1] == a + b[..|b| - 1];
      TotalConcat(a, b[..|b| - 1]);
    }
  }

  lemma {:induction false} ForKeyAbsent(cs: seq<Amount>, key: string)
    requires forall i :: 0 <= i < |cs| ==> cs[i].key != key
    ensures ForKey(cs, key) == 0
  {
    if cs != [] {
      ForKeyAbsent(cs[..|cs| - 1], key);
    }
  }

  /** With one amount a key, that amount is all that is laid against it. */
  lemma {:induction false} ForKeyUnique(cs: seq<Amount>, k: nat)
    requires k < |cs|
    requires forall i, j :: 0 <= i < j < |cs| ==> cs[i].key != cs[j].key
    ensures ForKey(cs, cs[k].key) == cs[k].units
  {
    var n := |cs| - 1;
    if k == n {
      ForKeyAbsent(cs[..n], cs[k].key);
    } else {
      ForKeyUnique(cs[..n], k);
    }
  }

  function Without(cs: seq<Amount>, key: string): (r: seq<Amount>)
    ensures |r| <= |cs|
  {
    if cs == [] then []
    else Without(cs[..|cs| - 1], key) + if cs[|cs| - 1].key == key then [] else [cs[|cs| - 1]]
  }

  lemma {:induction false} WithoutSplits(cs: seq<Amount>, key: string)
    ensures Total(cs) == ForKey(cs, key) + Total(Without(cs, key))
    ensures forall o :: ForKey(Without(cs, key), o) == if o == key then 0 else ForKey(cs, o)
  {
    if cs != [] {
      var rest, last := cs[..|cs| - 1], cs[|cs| - 1];
      WithoutSplits(rest, key);
      if last.key == key {
        assert Without(cs, key) == Without(rest, key);
      } else {
        TotalConcat(Without(rest, key), [last]);
        forall o {
          ForKeyConcat(Without(rest, key), [last], o);
        }
      }
    }
  }

  /**
   * The exchange behind store-wide conservation: amounts bounded key by key are bounded in
   * total, however the two lists interleave their orders.
   */
  lemma {:induction false} BoundedByKeyBoundedInTotal(a: seq<Amount>, b: seq<Amount>)
    requires forall o :: ForKey(a, o) <= ForKey(b, o)
    ensures Total(a) <= Total(b)
    decreases |a|
  {
    if a != [] {
      var key := a[|a| - 1].key;
      WithoutSplits(a, key);
      WithoutSplits(b, key);
      assert |Without(a, key)| < |a|;
      forall o
        ensures ForKey(Without(a, key), o) <= ForKey(Without(b, key), o)
      {
        assert ForKey(a, o) <= ForKey(b, o);
      }
      BoundedByKeyBoundedInTotal(Without(a, key), Without(b, key));
    }
  }
}
