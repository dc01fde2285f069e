/** Result types shared by every module. */
module Results {
  datatype Option<+T> = None | Some(value: T)

  datatype Result<+T, +E> = Success(value: T) | Failure(error: E)
}

/** Python's `str.strip` and `str.upper` on ASCII text, and the `f"{n}"` rendering of a number. */
module Text {

  predicate IsSpace(c: char) {
    c == ' ' || c == '\t' || c == '\n' || c == '\r' || c as int == 11 || c as int == 12
  }

  function StripLeft(s: string): string {
    if s != "" && IsSpace(s[0]) then StripLeft(s[1..]) else s
  }

  function StripRight(s: string): string {
    if s != "" && IsSpace(s[|s| - 1]) then StripRight(s[..|s| - 1]) else s
  }

  function Strip(s: string): string {
    StripRight(StripLeft(s))
  }

  function UpperChar(c: char): char {
    if 'a' <= c <= 'z' then c - 'a' + 'A' else c
  }

  function Upper(s: string): string {
    seq(|s|, i requires 0 <= i < |s| => UpperChar(s[i]))
  }

  /** How every order operation spells an order reference: `order_id.strip().upper()`. */
  function Canonical(s: string): string {
    Upper(Strip(s))
  }

  function Digit(n: nat): char
    requires n < 10
  {
    '0' + n as char
  }

  function Decimal(n: nat): string {
    if n < 10 then [Digit(n)] else Decimal(n / 10) + [Digit(n % 10)]
  }

  lemma {:induction false} DecimalInjective(m: nat, n: nat)
    requires Decimal(m) == Decimal(n)
    ensures m == n
  {
    var a, b := Decimal(m), Decimal(n);
    assert a[|a| - 1] == Digit(m % 10) && b[|b| - 1] == Digit(n % 10);
    DecimalLength(m);
    DecimalLength(n);
    if m >= 10 {
      assert a[..|a| - 1] == Decimal(m / 10) && b[..|b| - 1] == Decimal(n / 10);
      DecimalInjective(m / 10, n / 10);
    }
  }

  lemma DecimalLength(n: nat)
    ensures |Decimal(n)| >= 1
    ensures |Decimal(n)| == 1 <==> n < 10
  {
  }

  /** A stripped text neither starts nor ends with a space, and stripping keeps the middle. */
  lemma {:induction false} StripRightEnds(s: string)
    ensures StripRight(s) == "" || !IsSpace(StripRight(s)[|StripRight(s)| - 1])
    ensures StripRight(s) <= s
  {
    if s != "" && IsSpace(s[|s| - 1]) {
      StripRightEnds(s[..|s| - 1]);
    }
  }

  lemma {:induction false} StripLeftEnds(s: string)
    ensures StripLeft(s) == "" || !IsSpace(StripLeft(s)[0])
  {
    if s != "" && IsSpace(s[0]) {
      StripLeftEnds(s[1..]);
    }
  }

  ghost predicate AllSpaces(s: string) {
    forall i :: 0 <= i < |s| ==> IsSpace(s[i])
  }

  lemma Grouped(a: string, b: string, c: string)
    ensures a + b + c == a + (b + c)
  {
  }

  lemma {:induction false} StripLeftIs(s: string) returns (left: string)
    ensures s == left + StripLeft(s) && AllSpaces(left)
  {
    if s != "" && IsSpace(s[0]) {
      var rest := s[1..];
      var more := StripLeftIs(rest);
      left := [s[0]] + more;
      Grouped([s[0]], more, StripLeft(rest));
      assert s == [s[0]] + rest;
    } else {
      left := "";
    }
  }

  lemma {:induction false} StripRightIs(s: string) returns (right: string)
    ensures s == StripRight(s) + right && AllSpaces(right)
  {
    if s != "" && IsSpace(s[|s| - 1]) {
      var rest, last := s[..|s| - 1], s[|s| - 1];
      var more := StripRightIs(rest);
      right := more + [last];
      Grouped(StripRight(rest), more, [last]);
      assert s == rest + [last];
    } else {
      right := "";
    }
  }

  /** Stripping takes away the spaces at both ends and nothing else. */
  lemma StripIs(s: string) returns (left: string, right: string)
    ensures s == left + Strip(s) + right && AllSpaces(left) && AllSpaces(right)
    ensures Strip(s) != "" ==> !IsSpace(Strip(s)[0]) && !IsSpace(Strip(s)[|Strip(s)| - 1])
  {
    left := StripLeftIs(s);
    right := StripRightIs(StripLeft(s));
    StripLeftEnds(s);
    StripRightEnds(StripLeft(s));
  }

  /** Upper-casing turns each lower-case letter into its capital and leaves every other character alone. */
  lemma UpperIs(s: string)
    ensures |Upper(s)| == |s|
    ensures forall i :: 0 <= i < |s| ==> Upper(s)[i] as int == s[i] as int - if 'a' <= s[i] <= 'z' then 32 else 0
  {
  }

  /** Canonical spelling is a fixed point: re-canonicalising a stored reference changes nothing. */
  lemma CanonicalIdempotent(s: string)
    ensures Canonical(Canonical(s)) == Canonical(s)
  {
    var t := StripLeft(s);
    StripLeftEnds(s);
    StripRightEnds(t);
    var u := Strip(s);
    var c := Upper(u);
    forall i | 0 <= i < |c|
      ensures IsSpace(c[i]) <==> IsSpace(u[i])
      ensures UpperChar(c[i]) == c[i]
    {
    }
    assert StripLeft(c) == c;
    assert StripRight(c) == c;
    assert Upper(c) == c;
  }
}

/**
 * An insertion-ordered dictionary, as Python keeps one. Ledgers only ever gain fresh keys, so a
 * dictionary is the sequence of its items in insertion order.
 */
module Dicts {
  import opened Results

  type Dict<+V> = seq<(string, V)>

  function Get<V>(d: Dict<V>, key: string): (r: Option<V>)
    ensures r.Some? ==> exists i :: 0 <= i < |d| && d[i] == (key, r.value)
    ensures r.None? ==> forall i :: 0 <= i < |d| ==> d[i].0 != key
  {
    if d == [] then None
    else if d[|d| - 1].0 == key then Some(d[|d| - 1].1)
    else Get(d[..|d| - 1], key)
  }

  function Put<V>(d: Dict<V>, key: string, value: V): Dict<V> {
    d + [(key, value)]
  }

  lemma GetPut<V>(d: Dict<V>, key: string, value: V, other: string)
    ensures Get(Put(d, key, value), other) == if other == key then Some(value) else Get(d, other)
  {
  }

  ghost predicate UniqueKeys<V>(d: Dict<V>) {
    forall i, j :: 0 <= i < j < |d| ==> d[i].0 != d[j].0
  }

  lemma UniquePut<V>(d: Dict<V>, key: string, value: V)
    requires UniqueKeys(d) && Get(d, key).None?
    ensures UniqueKeys(Put(d, key, value))
  {
  }
}
