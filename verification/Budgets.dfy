/** The acceptance budget of a routing qualification: per risk domain, and over all of them. */
module Budgets {

  /** One acceptance result: its risk domain, and whether its route was exact. */
  datatype Scored = Scored(domain: string, exact: bool)

  /** `ceil(cases * 0.95)`, with the rate as the rational 19/20. */
  function Required(cases: nat): nat {
    (19 * cases + 19) / 20
  }

  function Exact(rs: seq<Scored>): nat {
    if rs == [] then 0 else Exact(rs[1..]) + if rs[0].exact then 1 else 0
  }

  function InDomain(rs: seq<Scored>, domain: string): seq<Scored> {
    if rs == [] then []
    else if rs[0].domain == domain then [rs[0]] + InDomain(rs[1..], domain)
    else InDomain(rs[1..], domain)
  }

  function OutOf(rs: seq<Scored>, domain: string): seq<Scored> {
    if rs == [] then []
    else if rs[0].domain == domain then OutOf(rs[1..], domain)
    else [rs[0]] + OutOf(rs[1..], domain)
  }

  /** The results as a whole carry enough exact routes. */
  predicate Meets(rs: seq<Scored>) {
    Exact(rs) >= Required(|rs|)
  }

  /** Each risk domain present meets the budget on its own. */
  predicate EveryDomainMeets(rs: seq<Scored>) {
    forall r :: r in rs ==> Meets(InDomain(rs, r.domain))
  }

  /** The required count is the least whole number at or above the rate. */
  lemma RequiredIsCeiling(cases: nat, k: nat)
    ensures k >= Required(cases) <==> 20 * k >= 19 * cases
  {
  }

  /** Rounding up domain by domain asks at least as much as rounding up once. */
  lemma RequiredSubadditive(a: nat, b: nat)
    ensures Required(a + b) <= Required(a) + Required(b)
  {
  }

  lemma {:induction false} DomainSplits(rs: seq<Scored>, domain: string)
    ensures |rs| == |InDomain(rs, domain)| + |OutOf(rs, domain)|
    ensures Exact(rs) == Exact(InDomain(rs, domain)) + Exact(OutOf(rs, domain))
  {
    if rs != [] {
      DomainSplits(rs[1..], domain);
      var rest := if rs[0].domain == domain then InDomain(rs[1..], domain) else OutOf(rs[1..], domain);
      assert ([rs[0]] + rest)[1..] == rest;
    }
  }

  lemma {:induction false} OtherDomainsStay(rs: seq<Scored>, gone: string, domain: string)
    requires domain != gone
    ensures InDomain(OutOf(rs, gone), domain) == InDomain(rs, domain)
  {
    if rs != [] {
      OtherDomainsStay(rs[1..], gone, domain);
      var rest := OutOf(rs[1..], gone);
      assert ([rs[0]] + rest)[1..] == rest;
    }
  }

  lemma {:induction false} OutOfMembers(rs: seq<Scored>, gone: string, r: Scored)
    ensures r in OutOf(rs, gone) <==> r in rs && r.domain != gone
  {
    if rs != [] {
      OutOfMembers(rs[1..], gone, r);
    }
  }

  /** When every domain meets its own budget the overall check can no longer fail. */
  lemma {:induction false} DomainBudgetsImplyOverall(rs: seq<Scored>)
    requires EveryDomainMeets(rs)
    ensures Meets(rs)
    decreases |rs|
  {
    if rs != [] {
      var domain := rs[0].domain;
      var rest := OutOf(rs, domain);
      DomainSplits(rs, domain);
      assert rs[0] in rs && InDomain(rs, domain) != [];
      forall r | r in rest
        ensures Meets(InDomain(rest, r.domain))
      {
        OutOfMembers(rs, domain, r);
        OtherDomainsStay(rs, domain, r.domain);
      }
      DomainBudgetsImplyOverall(rest);
      RequiredSubadditive(|InDomain(rs, domain)|, |rest|);
    }
  }

  /** Fewer than twenty results leave no room for a single miss. */
  lemma SmallSetsMustBeExact(rs: seq<Scored>)
    requires |rs| < 20
    ensures Meets(rs) <==> forall r :: r in rs ==> r.exact
  {
    ExactBound(rs);
  }

  lemma {:induction false} ExactBound(rs: seq<Scored>)
    ensures Exact(rs) <= |rs|
    ensures Exact(rs) == |rs| <==> forall r :: r in rs ==> r.exact
  {
    if rs != [] {
      ExactBound(rs[1..]);
      assert forall r :: r in rs <==> r == rs[0] || r in rs[1..];
    }
  }

  /** `k` is the one miss of the results. */
  ghost predicate OnlyMiss(rs: seq<Scored>, k: nat) {
    k < |rs| && !rs[k].exact && forall i :: 0 <= i < |rs| && i != k ==> rs[i].exact
  }

  /** The miss is the only result of its risk domain. */
  ghost predicate AloneInDomain(rs: seq<Scored>, k: nat) {
    k < |rs| && forall i :: 0 <= i < |rs| && i != k ==> rs[i].domain != rs[k].domain
  }

  lemma {:induction false} AllButOneExact(rs: seq<Scored>, k: nat)
    requires OnlyMiss(rs, k)
    ensures Exact(rs) == |rs| - 1
  {
    if k == 0 {
      assert forall r :: r in rs[1..] ==> r.exact;
      ExactBound(rs[1..]);
    } else {
      AllButOneExact(rs[1..], k - 1);
    }
  }

  lemma {:induction false} NoneInDomain(rs: seq<Scored>, domain: string)
    requires forall i :: 0 <= i < |rs| ==> rs[i].domain != domain
    ensures InDomain(rs, domain) == []
  {
    if rs != [] {
      NoneInDomain(rs[1..], domain);
    }
  }

  lemma {:induction false} OneInDomain(rs: seq<Scored>, k: nat)
    requires AloneInDomain(rs, k)
    ensures InDomain(rs, rs[k].domain) == [rs[k]]
  {
    if k == 0 {
      NoneInDomain(rs[1..], rs[0].domain);
    } else {
      OneInDomain(rs[1..], k - 1);
    }
  }

  /**
   * The converse fails: whatever the other results and wherever it stands, one miss that is alone in its
   * domain fails that domain, while the set as a whole passes exactly from twenty results on.
   */
  lemma OverallDoesNotImplyDomains(rs: seq<Scored>, k: nat)
    requires OnlyMiss(rs, k) && AloneInDomain(rs, k)
    ensures !EveryDomainMeets(rs)
    ensures Meets(rs) <==> |rs| >= 20
  {
    AllButOneExact(rs, k);
    OneInDomain(rs, k);
    MissFails(rs[k]);
    assert rs[k] in rs;
    RequiredIsCeiling(|rs|, |rs| - 1);
  }

  lemma MissFails(miss: Scored)
    requires !miss.exact
    ensures !Meets([miss])
  {
    var lone := [miss];
    assert lone[1..] == [];
    assert Exact(lone) == 0;
    assert Required(|lone|) == 1;
  }
}
