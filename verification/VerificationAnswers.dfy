/**
 * What callers of the verification service are told, and when: every answer stated on the fields it is
 * decided by, and what it takes to earn a proof.
 */
module VerificationAnswers {
  import opened Results
  import opened Text
  import opened Verification
  import opened VerificationLaws

  // ---------------------------------------------------------------- the provider

  /** A dispatch under a new key opens one challenge as asked; a known key names its challenge or is refused. */
  lemma DispatchAnswers(p: Provider, r: Request, now: Time)
    requires ProviderOk(p)
    ensures var (p', issued) := Dispatch(p, r, now);
            var known := r.dispatchKey in p.byDispatch;
            var foreign := r.subject.tenant != p.tenant;
            var blank := r.subject.factor !in p.codes;
            && (issued == Failure(WrongTenant) <==> foreign)
            && (issued == Failure(UnknownFactor) <==> !foreign && blank)
            && (issued == Failure(DispatchConflict) <==>
                  !foreign && !blank && known && p.challenges[p.byDispatch[r.dispatchKey]].request != r)
            && (issued.Success? <==>
                  !foreign && !blank && (known ==> p.challenges[p.byDispatch[r.dispatchKey]].request == r))
            && (issued.Success? && known ==>
                  p' == p && issued.value == Issued(p.byDispatch[r.dispatchKey],
                                                    p.challenges[p.byDispatch[r.dispatchKey]].expiresAt))
            && (issued.Success? && !known ==>
                  && issued.value == Issued(p.dispatched, now + p.challengeTtl)
                  && p'.challenges == p.challenges[p.dispatched := Challenge(r, now + p.challengeTtl, r.maxAttempts, None)]
                  && p'.byDispatch == p.byDispatch[r.dispatchKey := p.dispatched])
            && (issued.Failure? ==> p' == p)
  {
  }

  /** The code is the one on file for the challenge's factor, spaces around it aside. */
  predicate Right(p: Provider, c: Challenge, code: string) {
    c.request.subject.factor in p.codes && Strip(code) == p.codes[c.request.subject.factor]
  }

  /**
   * Every answer to a code, exactly: a verified challenge is confirmed again for its exact code and contradicted
   * by any other; an open one expires first, then runs out, and is only ever verified by its exact code.
   */
  lemma VerifyAnswers(p: Provider, id: ChallengeId, code: string, now: Time)
    requires ProviderOk(p)
    ensures var answer := Verify(p, id, code, now).1;
            if id !in p.challenges then answer == Unknown
            else
              var c := p.challenges[id];
              var right := Right(p, c, code);
              var open := c.verified.None? && now < c.expiresAt;
              && (answer == Conflict <==> c.verified.Some? && !right)
              && (answer == Expired <==> c.verified.None? && now >= c.expiresAt)
              && (answer == Exhausted <==> open && (c.remaining == 0 || (c.remaining == 1 && !right)))
              && (answer == Mismatched <==> open && c.remaining > 1 && !right)
              && (answer.IsVerified? <==> right && (c.verified.Some? || (open && c.remaining > 0)))
              && (answer.IsVerified? && c.verified.Some? ==>
                    answer == IsVerified(c.request.subject, c.verified.value.at, c.verified.value.until))
              && (answer.IsVerified? && c.verified.None? ==>
                    answer == IsVerified(c.request.subject, now, now + p.proofTtl))
              && answer != Unknown && answer != Broken
  {
    if id in p.challenges {
      assert ChallengeOk(p, id, p.challenges[id]);
    }
  }

  /** What an answer costs: a comparison takes one attempt and verifies on the exact code, and nothing else changes anything. */
  lemma VerifyCosts(p: Provider, id: ChallengeId, code: string, now: Time)
    requires ProviderOk(p)
    ensures var p' := Verify(p, id, code, now).0;
            if id in p.challenges && p.challenges[id].verified.None? && now < p.challenges[id].expiresAt
               && p.challenges[id].remaining > 0
            then
              var c := p.challenges[id];
              p' == p.(challenges := p.challenges[id := Challenge(
                c.request, c.expiresAt, c.remaining - 1,
                if Right(p, c, code) then Some(Verified(now, now + p.proofTtl)) else None)])
            else p' == p
  {
    if id in p.challenges {
      assert ChallengeOk(p, id, p.challenges[id]);
    }
  }

  /** A retention is refused exactly for a blank session, an unknown challenge or another session's. */
  lemma RetainAnswers(p: Provider, session: string, kept: set<ChallengeId>)
    ensures var r := Retain(p, session, kept).1;
            var blank := Strip(session) == "";
            var unknown := exists id :: id in kept && id !in p.challenges;
            && (r == Failure(BlankSession) <==> blank)
            && (r == Failure(RetainedUnknown) <==> !blank && unknown)
            && (r == Failure(CrossedSession) <==>
                  !blank && !unknown
                  && exists id :: id in kept && id in p.challenges
                                  && p.challenges[id].request.subject.session != Strip(session))
            && (r.Failure? ==> Retain(p, session, kept).0 == p)
            && (r.Success? <==>
                  !blank && forall id :: id in kept ==>
                                           id in p.challenges && p.challenges[id].request.subject.session == Strip(session))
  {
  }

  // ---------------------------------------------------------------- the session's store

  /** A session dispatches for its own tenant and session only, with at least one attempt, and remembers the subject. */
  lemma StoreDispatchAnswers(y: Sys, subject: Subject, key: string, maxAttempts: nat, now: Time)
    requires Inv(y)
    ensures var (y', r) := DispatchOtp(y, subject, key, maxAttempts, now);
            var asked := Dispatch(y.p, Request(subject, key, maxAttempts), now);
            && (subject.tenant != y.p.tenant ==> y' == y && r == Failure(WrongTenant))
            && (subject.tenant == y.p.tenant && subject.session != y.s.session ==> y' == y && r == Failure(WrongSession))
            && (subject.tenant == y.p.tenant && subject.session == y.s.session && maxAttempts == 0 ==>
                  y' == y && r == Failure(NoAttempts))
            && (subject.tenant == y.p.tenant && subject.session == y.s.session && maxAttempts > 0 ==>
                  && r == asked.1 && y'.p == asked.0
                  && y'.s == if r.Success? then y.s.(subjects := y.s.subjects[r.value.id := subject]) else y.s)
  {
    DispatchOk(y.p, Request(subject, key, maxAttempts), now);
  }

  /** The store passes the provider's answer on, keeps a proof for every verification, and calls a stale one expired. */
  lemma StoreVerifyAnswers(y: Sys, id: ChallengeId, code: string, now: Time, later: Time)
    requires Inv(y)
    ensures var (y', r) := VerifyOtp(y, id, code, now, later);
            var (p', answer) := Verify(y.p, id, code, now);
            if id !in y.s.subjects then y' == y && r == Failure(Undispatched)
            else
              && y'.p == p' && r.Success?
              && (if answer.IsVerified? then
                    && y'.s == y.s.(proofs := y.s.proofs[id := Proof(y.s.subjects[id], id, answer.at, answer.until)])
                    && r.value == (if later < answer.until then answer else Expired)
                  else y'.s == y.s && r.value == answer)
  {
    VerifyOk(y.p, id, code, now);
    if id in y.p.challenges {
      assert ChallengeOk(y.p, id, y.p.challenges[id]);
    }
  }

  /** Only a proof that this store holds, unexpired, can be the one that stays; everything else of the session goes. */
  lemma RetainProofAnswers(y: Sys, proof: Proof, now: Time)
    requires Inv(y)
    ensures var (y', r) := RetainProof(y, proof, now);
            var held := proof.id in y.s.proofs && y.s.proofs[proof.id] == proof && now < proof.until;
            && (r == Failure(NotEarned) <==> !held)
            && (r.Failure? ==> y'.s == y.s)
            && (r.Success? ==>
                  held && y'.s == Store(y.s.session, map[proof.id := y.s.subjects[proof.id]], map[proof.id := proof]))
  {
  }

  /** Clearing forgets every subject and proof of the session and takes its challenges off the provider. */
  lemma ClearAnswers(y: Sys)
    requires Inv(y) && Strip(y.s.session) == y.s.session != ""
    ensures var (y', r) := Clear(y);
            && r.Success? && y'.s == Store(y.s.session, map[], map[])
            && forall id :: id in y'.p.challenges <==>
                              id in y.p.challenges && y.p.challenges[id].request.subject.session != y.s.session
  {
    RetainAnswers(y.p, y.s.session, {});
  }

  /** An authorisation needs an unexpired proof of the same tenant, session, customer and factor, and at most level two. */
  lemma AuthorizationIff(s: Store, subject: Subject, level: int, now: Time)
    ensures AuthorizationSatisfies(s, subject, level, now) <==>
            level <= 2 && exists id :: id in s.proofs && now < s.proofs[id].until && SameScope(s.proofs[id].subject, subject)
    ensures forall id :: ChallengeSatisfies(s, id, subject, level, now) <==>
                         && level <= 2 && id in s.subjects && s.subjects[id] == subject && id in s.proofs
                         && now < s.proofs[id].until && SameScope(s.proofs[id].subject, subject)
                         && s.proofs[id].subject.purpose == subject.purpose
  {
  }

  predicate SameScope(a: Subject, b: Subject) {
    a.tenant == b.tenant && a.session == b.session && a.customer == b.customer && a.factor == b.factor
  }

  // ---------------------------------------------------------------- earning a proof

  /** A step that adds a proof was itself given the exact code for it. */
  lemma ProofTakesExactCode(y: Sys, step: Step, id: ChallengeId)
    requires Inv(y) && id !in y.s.proofs && id in After(y, step).s.proofs
    ensures step.StoreVerify? && step.id == id && id in y.s.subjects && id in y.p.challenges
    ensures Right(y.p, y.p.challenges[id], step.code)
  {
    if step.StoreVerify? && step.id in y.s.subjects {
      StoreVerifyAnswers(y, step.id, step.code, step.now, step.later);
      VerifyAnswers(y.p, step.id, step.code, step.now);
    }
  }

  /** Over a whole run: each proof the store holds was added by a step of this store that was given its exact code. */
  lemma {:induction false} EveryProofWasAnsweredHere(ys: seq<Sys>, steps: seq<Step>, k: nat, id: ChallengeId)
    requires IsRun(ys, steps) && k <= |steps| && id in ys[k].s.proofs
    ensures exists i :: 0 <= i < k && AddsProof(ys[i], steps[i], id)
  {
    if k > 0 {
      RunKeepsInv(ys, steps, k - 1);
      if id in ys[k - 1].s.proofs {
        EveryProofWasAnsweredHere(ys, steps, k - 1, id);
        var i :| 0 <= i < k - 1 && AddsProof(ys[i], steps[i], id);
        assert AddsProof(ys[i], steps[i], id);
      } else {
        ProofTakesExactCode(ys[k - 1], steps[k - 1], id);
        assert AddsProof(ys[k - 1], steps[k - 1], id);
      }
    }
  }

  /** This session's caller gave the exact code for a challenge that had earned no proof here. */
  ghost predicate AddsProof(y: Sys, step: Step, id: ChallengeId) {
    && step.StoreVerify? && step.id == id && id !in y.s.proofs
    && id in y.p.challenges && Right(y.p, y.p.challenges[id], step.code)
  }
}
