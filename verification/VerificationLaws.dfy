/** What every run of the verification service keeps, and what a proof is evidence of. */
module VerificationLaws {
  import opened Results
  import opened Text
  import opened Verification

  /**
   * One store's own operations, and what anything else may do to the shared provider meanwhile:
   * other sessions' operations, and provider calls of ours whose answer was lost to cancellation.
   */
  datatype Step =
    | StoreDispatch(subject: Subject, key: string, maxAttempts: nat, now: Time)
    | StoreVerify(id: ChallengeId, code: string, now: Time, later: Time)
    | StoreRetain(proof: Proof, now: Time)
    | StoreClear
    | PeerDispatch(request: Request, now: Time)
    | PeerVerify(id: ChallengeId, code: string, now: Time)
    | PeerRetain(session: string, kept: set<ChallengeId>)

  function After(y: Sys, step: Step): Sys {
    match step
    case StoreDispatch(subject, key, maxAttempts, now) => DispatchOtp(y, subject, key, maxAttempts, now).0
    case StoreVerify(id, code, now, later) => VerifyOtp(y, id, code, now, later).0
    case StoreRetain(proof, now) => RetainProof(y, proof, now).0
    case StoreClear => Clear(y).0
    case PeerDispatch(request, now) => Sys(Dispatch(y.p, request, now).0, y.s)
    case PeerVerify(id, code, now) => Sys(Verify(y.p, id, code, now).0, y.s)
    case PeerRetain(session, kept) => Sys(Retain(y.p, session, kept).0, y.s)
  }

  function Opened(tenant: string, codes: map<string, string>, challengeTtl: Time, proofTtl: Time, session: string): Sys {
    Sys(Provider(tenant, codes, challengeTtl, proofTtl, map[], map[], 0), Store(session, map[], map[]))
  }

  ghost predicate IsRun(ys: seq<Sys>, steps: seq<Step>) {
    && |ys| == |steps| + 1
    && (exists tenant, codes, ttl: Time, proofTtl: Time, session ::
          proofTtl > 0.0 && ys[0] == Opened(tenant, codes, ttl, proofTtl, session))
    && forall i :: 0 <= i < |steps| ==> ys[i + 1] == After(ys[i], steps[i])
  }

  // ---------------------------------------------------------------- agreement

  /** The dispatch-key map and the challenges are mutually inverse, and challenges are within scope. */
  ghost predicate ProviderOk(p: Provider) {
    && p.proofTtl > 0.0
    && (forall key :: key in p.byDispatch ==>
          p.byDispatch[key] in p.challenges && p.challenges[p.byDispatch[key]].request.dispatchKey == key)
    && (forall id :: id in p.challenges ==> ChallengeOk(p, id, p.challenges[id]))
  }

  ghost predicate ChallengeOk(p: Provider, id: ChallengeId, c: Challenge) {
    && id < p.dispatched
    && c.request.dispatchKey in p.byDispatch && p.byDispatch[c.request.dispatchKey] == id
    && c.request.subject.tenant == p.tenant && c.request.subject.factor in p.codes
    && c.remaining <= c.request.maxAttempts
    && (c.verified.Some? ==> c.verified.value.until == c.verified.value.at + p.proofTtl
                             && c.verified.value.at < c.expiresAt && c.remaining < c.request.maxAttempts)
  }

  /** Proofs are among dispatched subjects, and both agree with the provider on every challenge it still holds. */
  ghost predicate StoreOk(y: Sys) {
    && (forall id :: id in y.s.subjects ==>
          && id < y.p.dispatched
          && y.s.subjects[id].tenant == y.p.tenant && y.s.subjects[id].session == y.s.session
          && (id in y.p.challenges ==> y.p.challenges[id].request.subject == y.s.subjects[id]))
    && (forall id :: id in y.s.proofs ==>
          && id in y.s.subjects
          && y.s.proofs[id].subject == y.s.subjects[id] && y.s.proofs[id].id == id
          && y.s.proofs[id].at < y.s.proofs[id].until
          && (id in y.p.challenges ==>
                y.p.challenges[id].verified == Some(Verified(y.s.proofs[id].at, y.s.proofs[id].until))))
  }

  ghost predicate Inv(y: Sys) {
    ProviderOk(y.p) && StoreOk(y)
  }

  /** What provider steps do to challenges seen from outside: they keep their request, once verified stay so, and ids are new. */
  ghost predicate Evolves(p: Provider, p': Provider) {
    && p'.tenant == p.tenant && p'.codes == p.codes && p'.proofTtl == p.proofTtl && p'.dispatched >= p.dispatched
    && forall id :: id in p'.challenges && id < p.dispatched ==>
                      && id in p.challenges
                      && p'.challenges[id].request == p.challenges[id].request
                      && p'.challenges[id].expiresAt == p.challenges[id].expiresAt
                      && p'.challenges[id].remaining <= p.challenges[id].remaining
                      && (p.challenges[id].verified.Some? ==> p'.challenges[id].verified == p.challenges[id].verified)
  }

  lemma NewChallengeOk(p: Provider, p': Provider, r: Request, expiresAt: Time)
    requires ProviderOk(p) && r.subject.tenant == p.tenant && r.subject.factor in p.codes
    requires r.dispatchKey !in p.byDispatch
    requires p' == p.(byDispatch := p.byDispatch[r.dispatchKey := p.dispatched],
                      challenges := p.challenges[p.dispatched := Challenge(r, expiresAt, r.maxAttempts, None)],
                      dispatched := p.dispatched + 1)
    ensures ProviderOk(p') && Evolves(p, p')
  {
  }

  lemma DispatchOk(p: Provider, r: Request, now: Time)
    requires ProviderOk(p)
    ensures ProviderOk(Dispatch(p, r, now).0) && Evolves(p, Dispatch(p, r, now).0)
    ensures Dispatch(p, r, now).1 != Failure(LookupMissed)
    ensures Dispatch(p, r, now).1.Success? ==>
              var id := Dispatch(p, r, now).1.value.id;
              id in Dispatch(p, r, now).0.challenges && Dispatch(p, r, now).0.challenges[id].request == r
              && (id in p.challenges || id == p.dispatched)
  {
    var p' := Dispatch(p, r, now).0;
    if p' != p {
      NewChallengeOk(p, p', r, now + p.challengeTtl);
    }
  }

  lemma UpdatedChallengeOk(p: Provider, id: ChallengeId, c: Challenge)
    requires ProviderOk(p) && id in p.challenges && ChallengeOk(p, id, c)
    requires c.request == p.challenges[id].request && c.expiresAt == p.challenges[id].expiresAt
    requires c.remaining <= p.challenges[id].remaining
    requires p.challenges[id].verified.Some? ==> c.verified == p.challenges[id].verified
    ensures ProviderOk(p.(challenges := p.challenges[id := c])) && Evolves(p, p.(challenges := p.challenges[id := c]))
  {
    var p' := p.(challenges := p.challenges[id := c]);
    forall k | k in p'.challenges
      ensures ChallengeOk(p', k, p'.challenges[k])
    {
      assert ChallengeOk(p, k, p.challenges[k]);
      SameDispatchSameOk(p, p', k, p'.challenges[k]);
    }
    forall key | key in p'.byDispatch
      ensures p'.byDispatch[key] in p'.challenges && p'.challenges[p'.byDispatch[key]].request.dispatchKey == key
    {
      assert p.byDispatch[key] in p.challenges;
    }
  }

  lemma SameDispatchSameOk(p: Provider, p': Provider, id: ChallengeId, c: Challenge)
    requires p' == p.(challenges := p'.challenges) && ChallengeOk(p, id, c)
    ensures ChallengeOk(p', id, c)
  {
  }

  /** The challenge after a comparison: one attempt less, and verified if the code was exact. */
  function Compared(p: Provider, id: ChallengeId, code: string, now: Time): Challenge
    requires id in p.challenges && p.challenges[id].remaining > 0
  {
    var tried := p.challenges[id].(remaining := p.challenges[id].remaining - 1);
    if ExactCode(p, id, code) then tried.(verified := Some(Verified(now, now + p.proofTtl))) else tried
  }

  lemma ComparedOk(p: Provider, id: ChallengeId, code: string, now: Time)
    requires ProviderOk(p) && Live(p, id, now)
    ensures var p' := p.(challenges := p.challenges[id := Compared(p, id, code, now)]);
            ProviderOk(p') && Evolves(p, p')
  {
    assert ChallengeOk(p, id, p.challenges[id]);
    UpdatedChallengeOk(p, id, Compared(p, id, code, now));
  }

  /** A verification changes a challenge only by comparing a code for it while it is live. */
  lemma VerifyCompares(p: Provider, id: ChallengeId, code: string, now: Time)
    ensures Verify(p, id, code, now).0
            == if Live(p, id, now) && p.challenges[id].request.subject.factor in p.codes then
                 p.(challenges := p.challenges[id := Compared(p, id, code, now)])
               else p
  {
  }

  lemma VerifyOk(p: Provider, id: ChallengeId, code: string, now: Time)
    requires ProviderOk(p)
    ensures ProviderOk(Verify(p, id, code, now).0) && Evolves(p, Verify(p, id, code, now).0)
    ensures !Verify(p, id, code, now).1.Broken?
    ensures var (p', outcome) := Verify(p, id, code, now);
            && p'.challenges.Keys == p.challenges.Keys && p'.dispatched == p.dispatched
            && (outcome.IsVerified? ==>
                  && id in p.challenges && outcome.subject == p.challenges[id].request.subject
                  && p'.challenges[id].verified == Some(Verified(outcome.at, outcome.until))
                  && outcome.at < outcome.until)
  {
    VerifyCompares(p, id, code, now);
    if id in p.challenges {
      assert ChallengeOk(p, id, p.challenges[id]);
      if Live(p, id, now) {
        ComparedOk(p, id, code, now);
      }
    }
  }

  lemma RetainOk(p: Provider, session: string, kept: set<ChallengeId>)
    requires ProviderOk(p)
    ensures ProviderOk(Retain(p, session, kept).0) && Evolves(p, Retain(p, session, kept).0)
    ensures Retain(p, session, kept).0.dispatched == p.dispatched
  {
    var (p', r) := Retain(p, session, kept);
    if r.Success? {
      var gone := Discarded(p, Strip(session), kept);
      forall key | key in p'.byDispatch
        ensures p'.byDispatch[key] in p'.challenges && p'.challenges[p'.byDispatch[key]].request.dispatchKey == key
      {
        assert key !in FreedKeys(p, gone);
      }
      forall id | id in p'.challenges
        ensures ChallengeOk(p', id, p'.challenges[id])
      {
        assert ChallengeOk(p, id, p.challenges[id]);
        KeyStays(p, gone, id);
      }
    }
  }

  lemma KeyStays(p: Provider, gone: set<ChallengeId>, id: ChallengeId)
    requires ProviderOk(p) && id in p.challenges && id !in gone
    ensures p.challenges[id].request.dispatchKey !in FreedKeys(p, gone)
  {
  }

  /** A store that does nothing while the provider moves on still agrees with it. */
  lemma StoreStaysOk(s: Store, p: Provider, p': Provider)
    requires StoreOk(Sys(p, s)) && Evolves(p, p')
    ensures StoreOk(Sys(p', s))
  {
  }

  lemma StoreDispatchOk(y: Sys, subject: Subject, key: string, maxAttempts: nat, now: Time)
    requires Inv(y)
    ensures Inv(DispatchOtp(y, subject, key, maxAttempts, now).0)
    ensures Evolves(y.p, DispatchOtp(y, subject, key, maxAttempts, now).0.p)
  {
    var r := Request(subject, key, maxAttempts);
    var p' := Dispatch(y.p, r, now).0;
    DispatchOk(y.p, r, now);
    StoreStaysOk(y.s, y.p, p');
    if DispatchOtp(y, subject, key, maxAttempts, now).1.Success? {
      SubjectRecorded(Sys(p', y.s), Dispatch(y.p, r, now).1.value.id, subject);
    }
  }

  lemma SubjectRecorded(y: Sys, id: ChallengeId, subject: Subject)
    requires Inv(y) && id in y.p.challenges && y.p.challenges[id].request.subject == subject
    requires subject.session == y.s.session && (id in y.s.subjects ==> y.s.subjects[id] == subject)
    ensures Inv(Sys(y.p, y.s.(subjects := y.s.subjects[id := subject])))
  {
    assert ChallengeOk(y.p, id, y.p.challenges[id]);
  }

  lemma StoreVerifyOk(y: Sys, id: ChallengeId, code: string, now: Time, later: Time)
    requires Inv(y)
    ensures Inv(VerifyOtp(y, id, code, now, later).0) && Evolves(y.p, VerifyOtp(y, id, code, now, later).0.p)
  {
    VerifyOk(y.p, id, code, now);
    StoreStaysOk(y.s, y.p, Verify(y.p, id, code, now).0);
  }

  lemma StoreRetainOk(y: Sys, proof: Proof, now: Time)
    requires Inv(y)
    ensures Inv(RetainProof(y, proof, now).0) && Evolves(y.p, RetainProof(y, proof, now).0.p)
  {
    RetainOk(y.p, y.s.session, {proof.id});
    StoreStaysOk(y.s, y.p, Retain(y.p, y.s.session, {proof.id}).0);
  }

  lemma StoreClearOk(y: Sys)
    requires Inv(y)
    ensures Inv(Clear(y).0) && Evolves(y.p, Clear(y).0.p)
  {
    RetainOk(y.p, y.s.session, {});
    StoreStaysOk(y.s, y.p, Retain(y.p, y.s.session, {}).0);
  }

  lemma PeerStepOk(y: Sys, step: Step)
    requires Inv(y) && (step.PeerDispatch? || step.PeerVerify? || step.PeerRetain?)
    ensures Inv(After(y, step)) && Evolves(y.p, After(y, step).p)
  {
    if step.PeerDispatch? {
      DispatchOk(y.p, step.request, step.now);
    } else if step.PeerVerify? {
      VerifyOk(y.p, step.id, step.code, step.now);
    } else {
      RetainOk(y.p, step.session, step.kept);
    }
    StoreStaysOk(y.s, y.p, After(y, step).p);
  }

  lemma StepKeepsInv(y: Sys, step: Step)
    requires Inv(y)
    ensures Inv(After(y, step)) && Evolves(y.p, After(y, step).p)
  {
    if step.StoreDispatch? {
      StoreDispatchOk(y, step.subject, step.key, step.maxAttempts, step.now);
    } else if step.StoreVerify? {
      StoreVerifyOk(y, step.id, step.code, step.now, step.later);
    } else if step.StoreRetain? {
      StoreRetainOk(y, step.proof, step.now);
    } else if step.StoreClear? {
      StoreClearOk(y);
    } else {
      PeerStepOk(y, step);
    }
  }

  /** Every run, with any other sessions interleaved, keeps the four maps in agreement. */
  lemma {:induction false} RunKeepsInv(ys: seq<Sys>, steps: seq<Step>, i: nat)
    requires IsRun(ys, steps) && i < |ys|
    ensures ProviderOk(ys[i].p) && StoreOk(ys[i])
  {
    if i > 0 {
      RunKeepsInv(ys, steps, i - 1);
      StepKeepsInv(ys[i - 1], steps[i - 1]);
    }
  }

  /** With this provider a dispatch never finds its key unmatched or its challenge's scope changed. */
  lemma DispatchContractHolds(y: Sys, subject: Subject, key: string, maxAttempts: nat, now: Time)
    requires Inv(y)
    ensures DispatchOtp(y, subject, key, maxAttempts, now).1 != Failure(ScopeChanged)
    ensures DispatchOtp(y, subject, key, maxAttempts, now).1 != Failure(LookupMissed)
  {
  }

  /** Nor does a verification come back for another scope or miss the factor's code, nor a retention miss its subject. */
  lemma VerifyContractHolds(y: Sys, id: ChallengeId, code: string, now: Time, later: Time, proof: Proof)
    requires Inv(y)
    ensures VerifyOtp(y, id, code, now, later).1 != Failure(ScopeChanged)
    ensures VerifyOtp(y, id, code, now, later).1 != Success(Broken)
    ensures RetainProof(y, proof, now).1 != Failure(LookupMissed)
  {
  }

  /** A dispatch repeated under its key, at any later time, names the same challenge and changes nothing. */
  lemma DispatchIdempotent(y: Sys, subject: Subject, key: string, maxAttempts: nat, now: Time, again: Time)
    requires Inv(y) && DispatchOtp(y, subject, key, maxAttempts, now).1.Success?
    ensures var (y', issued) := DispatchOtp(y, subject, key, maxAttempts, now);
            DispatchOtp(y', subject, key, maxAttempts, again) == (y', issued)
  {
    var y' := DispatchOtp(y, subject, key, maxAttempts, now).0;
    DispatchOk(y.p, Request(subject, key, maxAttempts), now);
    assert y'.s.subjects[DispatchOtp(y, subject, key, maxAttempts, now).1.value.id := subject] == y'.s.subjects;
  }

  /** Cleaning one session takes exactly its own unkept challenges, and every other challenge keeps its dispatch key. */
  lemma CleanupStaysInSession(p: Provider, session: string, kept: set<ChallengeId>, id: ChallengeId)
    requires ProviderOk(p) && Retain(p, session, kept).1.Success? && id in p.challenges
    ensures var p' := Retain(p, session, kept).0;
            if p.challenges[id].request.subject.session == Strip(session) && id !in kept then
              id !in p'.challenges && p.challenges[id].request.dispatchKey !in p'.byDispatch
            else
              && id in p'.challenges && p'.challenges[id] == p.challenges[id]
              && p.challenges[id].request.dispatchKey in p'.byDispatch
              && p'.byDispatch[p.challenges[id].request.dispatchKey] == id
  {
  }

  // ---------------------------------------------------------------- what a proof is evidence of

  /** The moment a challenge was answered: with the exact code, before its expiry, with attempts left. */
  ghost predicate AnsweredAt(y: Sys, step: Step, id: ChallengeId) {
    match step
    case StoreVerify(i, code, now, _) => i == id && id in y.s.subjects && Live(y.p, id, now) && ExactCode(y.p, id, code)
    case PeerVerify(i, code, now) => i == id && Live(y.p, id, now) && ExactCode(y.p, id, code)
    case _ => false
  }

  ghost predicate Earned(ys: seq<Sys>, steps: seq<Step>, k: nat, id: ChallengeId, subject: Subject)
    requires |ys| == |steps| + 1 && k <= |steps|
  {
    exists i :: 0 <= i < k && AnsweredAt(ys[i], steps[i], id) && ys[i].p.challenges[id].request.subject == subject
  }

  /** Every verified challenge, and every proof the store holds, was answered at some earlier step of the run. */
  ghost predicate AllEarned(ys: seq<Sys>, steps: seq<Step>, k: nat)
    requires |ys| == |steps| + 1 && k <= |steps|
  {
    && (forall id :: id in ys[k].p.challenges && ys[k].p.challenges[id].verified.Some? ==>
          Earned(ys, steps, k, id, ys[k].p.challenges[id].request.subject))
    && (forall id :: id in ys[k].s.proofs ==> Earned(ys, steps, k, id, ys[k].s.proofs[id].subject))
  }

  lemma EarnedLater(ys: seq<Sys>, steps: seq<Step>, k: nat, id: ChallengeId, subject: Subject)
    requires |ys| == |steps| + 1 && k < |steps| && Earned(ys, steps, k, id, subject)
    ensures Earned(ys, steps, k + 1, id, subject)
  {
  }

  lemma VerifyVerifiesOnly(p: Provider, i: ChallengeId, code: string, now: Time, id: ChallengeId)
    requires ProviderOk(p)
    requires id in Verify(p, i, code, now).0.challenges && Verify(p, i, code, now).0.challenges[id].verified.Some?
    ensures id in p.challenges && Verify(p, i, code, now).0.challenges[id].request == p.challenges[id].request
    ensures p.challenges[id].verified.Some? || (i == id && Live(p, id, now) && ExactCode(p, id, code))
  {
  }

  lemma DispatchVerifiesNone(p: Provider, r: Request, now: Time, id: ChallengeId)
    requires ProviderOk(p)
    requires id in Dispatch(p, r, now).0.challenges && Dispatch(p, r, now).0.challenges[id].verified.Some?
    ensures id in p.challenges && Dispatch(p, r, now).0.challenges[id] == p.challenges[id]
  {
  }

  /** A challenge is verified after a step only if it was before or the step answered it. */
  lemma VerifiedOnlyByAnswer(y: Sys, step: Step, id: ChallengeId)
    requires Inv(y) && id in After(y, step).p.challenges && After(y, step).p.challenges[id].verified.Some?
    ensures id in y.p.challenges
            && After(y, step).p.challenges[id].request == y.p.challenges[id].request
            && (y.p.challenges[id].verified.Some? || AnsweredAt(y, step, id))
  {
    if step.StoreVerify? {
      if step.id in y.s.subjects {
        VerifyVerifiesOnly(y.p, step.id, step.code, step.now, id);
      }
    } else if step.PeerVerify? {
      VerifyVerifiesOnly(y.p, step.id, step.code, step.now, id);
    } else if step.StoreDispatch? {
      if After(y, step).p != y.p {
        DispatchVerifiesNone(y.p, Request(step.subject, step.key, step.maxAttempts), step.now, id);
      }
    } else if step.PeerDispatch? {
      DispatchVerifiesNone(y.p, step.request, step.now, id);
    } else {
      RetentionOnlyDrops(y, step);
    }
  }

  lemma RetentionOnlyDrops(y: Sys, step: Step)
    requires step.StoreRetain? || step.StoreClear? || step.PeerRetain?
    ensures forall id :: id in After(y, step).p.challenges ==>
                           id in y.p.challenges && After(y, step).p.challenges[id] == y.p.challenges[id]
  {
  }

  /** A proof is in the store after a step only if it was before or its challenge is now verified for that subject. */
  lemma ProofOnlyIfVerified(y: Sys, step: Step, id: ChallengeId)
    requires Inv(y) && id in After(y, step).s.proofs
    ensures (id in y.s.proofs && y.s.proofs[id].subject == After(y, step).s.proofs[id].subject)
            || (&& id in After(y, step).p.challenges && After(y, step).p.challenges[id].verified.Some?
                && After(y, step).p.challenges[id].request.subject == After(y, step).s.proofs[id].subject)
  {
    if step.StoreVerify? {
      VerifyOk(y.p, step.id, step.code, step.now);
    }
  }

  lemma {:induction false} RunKeepsEarned(ys: seq<Sys>, steps: seq<Step>, k: nat)
    requires IsRun(ys, steps) && k <= |steps|
    ensures AllEarned(ys, steps, k)
  {
    if k > 0 {
      var y, step := ys[k - 1], steps[k - 1];
      RunKeepsEarned(ys, steps, k - 1);
      RunKeepsInv(ys, steps, k - 1);
      forall id | id in ys[k].p.challenges && ys[k].p.challenges[id].verified.Some?
        ensures Earned(ys, steps, k, id, ys[k].p.challenges[id].request.subject)
      {
        VerifiedOnlyByAnswer(y, step, id);
        if y.p.challenges[id].verified.Some? {
          EarnedLater(ys, steps, k - 1, id, y.p.challenges[id].request.subject);
        }
      }
      forall id | id in ys[k].s.proofs
        ensures Earned(ys, steps, k, id, ys[k].s.proofs[id].subject)
      {
        ProofOnlyIfVerified(y, step, id);
        if id in y.s.proofs && y.s.proofs[id].subject == ys[k].s.proofs[id].subject {
          EarnedLater(ys, steps, k - 1, id, y.s.proofs[id].subject);
        }
      }
    }
  }

  /**
   * Authorization at any level is evidence: some challenge for the same tenant, session, customer and
   * factor was answered in this run with its exact code, before its expiry and within its attempts,
   * and the proof of it has not expired.
   */
  lemma AuthorizationWasEarned(ys: seq<Sys>, steps: seq<Step>, k: nat, subject: Subject, level: int, now: Time)
    requires IsRun(ys, steps) && k <= |steps| && AuthorizationSatisfies(ys[k].s, subject, level, now)
    ensures level <= PROOF_LEVEL
    ensures exists id, answered: Subject ::
              && id in ys[k].s.proofs && now < ys[k].s.proofs[id].until
              && Earned(ys, steps, k, id, answered)
              && answered.tenant == subject.tenant && answered.session == subject.session
              && answered.customer == subject.customer && answered.factor == subject.factor
  {
    RunKeepsEarned(ys, steps, k);
    var id :| id in ys[k].s.proofs && Fresh(ys[k].s.proofs[id], now) && SameCaller(ys[k].s.proofs[id], subject);
    assert Earned(ys, steps, k, id, ys[k].s.proofs[id].subject);
  }

  /** The other direction: the exact code, in time and with attempts left, does authorise until its proof expires. */
  lemma ExactCodeAuthorizes(y: Sys, id: ChallengeId, code: string, now: Time, later: Time)
    requires Inv(y) && id in y.s.subjects && id !in y.s.proofs
    requires Live(y.p, id, now) && ExactCode(y.p, id, code) && later < now + y.p.proofTtl
    ensures var (y', r) := VerifyOtp(y, id, code, now, later);
            && r.Success? && r.value.IsVerified?
            && AuthorizationSatisfies(y'.s, y.s.subjects[id], PROOF_LEVEL, later)
            && ChallengeSatisfies(y'.s, id, y.s.subjects[id], PROOF_LEVEL, later)
            && !ChallengeSatisfies(y'.s, id, y.s.subjects[id], PROOF_LEVEL, now + y.p.proofTtl)
  {
    var y' := VerifyOtp(y, id, code, now, later).0;
    assert ChallengeOk(y.p, id, y.p.challenges[id]);
    assert id in y'.s.proofs && SameCaller(y'.s.proofs[id], y.s.subjects[id]);
  }

  // ---------------------------------------------------------------- the attempt budget

  /** Whether the step has the provider compare a code for this challenge. */
  predicate Compares(y: Sys, step: Step, id: ChallengeId) {
    match step
    case StoreVerify(i, _, now, _) => i == id && id in y.s.subjects && Live(y.p, id, now)
    case PeerVerify(i, _, now) => i == id && Live(y.p, id, now)
    case _ => false
  }

  /** How many of the run's first `k` steps compared a code for the challenge. */
  ghost function Comparisons(ys: seq<Sys>, steps: seq<Step>, k: nat, id: ChallengeId): nat
    requires |ys| == |steps| + 1 && k <= |steps|
  {
    if k == 0 then 0 else Comparisons(ys, steps, k - 1, id) + if Compares(ys[k - 1], steps[k - 1], id) then 1 else 0
  }

  lemma ComparisonSpendsOne(y: Sys, step: Step, id: ChallengeId)
    requires Inv(y) && id in y.p.challenges && id in After(y, step).p.challenges
    ensures var c, c' := y.p.challenges[id], After(y, step).p.challenges[id];
            c'.request == c.request && c'.remaining == c.remaining - if Compares(y, step, id) then 1 else 0
  {
    if step.StoreVerify? {
      SpendsOne(y.p, step.id, step.code, step.now, id);
    } else if step.PeerVerify? {
      SpendsOne(y.p, step.id, step.code, step.now, id);
    } else if step.StoreRetain? || step.StoreClear? || step.PeerRetain? {
      RetentionOnlyDrops(y, step);
    }
  }

  lemma SpendsOne(p: Provider, i: ChallengeId, code: string, now: Time, id: ChallengeId)
    requires ProviderOk(p) && id in p.challenges
    ensures var p' := Verify(p, i, code, now).0;
            && id in p'.challenges && p'.challenges[id].request == p.challenges[id].request
            && p'.challenges[id].remaining == p.challenges[id].remaining - if i == id && Live(p, id, now) then 1 else 0
  {
    assert ChallengeOk(p, id, p.challenges[id]);
  }

  lemma NewChallengeIsFull(y: Sys, step: Step, id: ChallengeId)
    requires Inv(y) && id !in y.p.challenges && id in After(y, step).p.challenges
    ensures id == y.p.dispatched
    ensures After(y, step).p.challenges[id].remaining == After(y, step).p.challenges[id].request.maxAttempts
  {
    if step.StoreVerify? {
      VerifyOk(y.p, step.id, step.code, step.now);
    } else if step.PeerVerify? {
      VerifyOk(y.p, step.id, step.code, step.now);
    } else if step.StoreRetain? || step.StoreClear? || step.PeerRetain? {
      RetentionOnlyDrops(y, step);
    }
  }

  /** Nothing was compared for a challenge that is yet to be dispatched. */
  lemma {:induction false} NotYetCompared(ys: seq<Sys>, steps: seq<Step>, k: nat, id: ChallengeId)
    requires IsRun(ys, steps) && k <= |steps| && ys[k].p.dispatched <= id
    ensures Comparisons(ys, steps, k, id) == 0
  {
    if k > 0 {
      RunKeepsInv(ys, steps, k - 1);
      StepKeepsInv(ys[k - 1], steps[k - 1]);
      NotYetCompared(ys, steps, k - 1, id);
      assert id in ys[k - 1].p.challenges ==> ChallengeOk(ys[k - 1].p, id, ys[k - 1].p.challenges[id]);
    }
  }

  /**
   * The attempt budget over a whole run, whoever tries: codes compared so far and attempts left always
   * add up to the attempts the challenge was dispatched with.
   */
  lemma {:induction false} AttemptsAddUp(ys: seq<Sys>, steps: seq<Step>, k: nat, id: ChallengeId)
    requires IsRun(ys, steps) && k <= |steps| && id in ys[k].p.challenges
    ensures Comparisons(ys, steps, k, id) + ys[k].p.challenges[id].remaining == ys[k].p.challenges[id].request.maxAttempts
  {
    if k > 0 {
      var y, step := ys[k - 1], steps[k - 1];
      RunKeepsInv(ys, steps, k - 1);
      if id in y.p.challenges {
        AttemptsAddUp(ys, steps, k - 1, id);
        ComparisonSpendsOne(y, step, id);
      } else {
        NewChallengeIsFull(y, step, id);
        NotYetCompared(ys, steps, k - 1, id);
      }
    }
  }

  // ---------------------------------------------------------------- challenges that are spent

  /** No later answer can verify it: it is gone, or unverified with no attempts left. */
  ghost predicate Spent(y: Sys, id: ChallengeId) {
    && id < y.p.dispatched && id !in y.s.proofs
    && (id in y.p.challenges ==> y.p.challenges[id].verified.None? && y.p.challenges[id].remaining == 0)
  }

  /** A challenge exhausted without a match is never verified, nor proves anything, in any later state of any run. */
  lemma {:induction false} ExhaustedForGood(ys: seq<Sys>, steps: seq<Step>, i: nat, k: nat, id: ChallengeId)
    requires IsRun(ys, steps) && i <= k < |ys| && Spent(ys[i], id)
    ensures Spent(ys[k], id)
  {
    if i < k {
      ExhaustedForGood(ys, steps, i, k - 1, id);
      RunKeepsInv(ys, steps, k - 1);
      SpentStaysSpent(ys[k - 1], steps[k - 1], id);
    }
  }

  lemma SpentStaysSpent(y: Sys, step: Step, id: ChallengeId)
    requires Inv(y) && Spent(y, id)
    ensures Spent(After(y, step), id)
  {
    StepKeepsInv(y, step);
    if id in After(y, step).p.challenges && After(y, step).p.challenges[id].verified.Some? {
      VerifiedOnlyByAnswer(y, step, id);
    }
    if id in After(y, step).s.proofs {
      ProofOnlyIfVerified(y, step, id);
      VerifiedOnlyByAnswer(y, step, id);
    }
  }

  function ReadAt(step: Step): Option<Time> {
    match step
    case StoreDispatch(_, _, _, now) => Some(now)
    case StoreVerify(_, _, now, _) => Some(now)
    case PeerDispatch(_, now) => Some(now)
    case PeerVerify(_, _, now) => Some(now)
    case _ => None
  }

  /** It is gone, or was let expire unanswered. */
  ghost predicate Lapsed(y: Sys, id: ChallengeId, since: Time) {
    && id < y.p.dispatched && id !in y.s.proofs
    && (id in y.p.challenges ==> y.p.challenges[id].verified.None? && y.p.challenges[id].expiresAt <= since)
  }

  /** While clocks do not run backwards, a challenge that expired unanswered is never verified either. */
  lemma {:induction false} ExpiredForGood(ys: seq<Sys>, steps: seq<Step>, i: nat, k: nat, id: ChallengeId, since: Time)
    requires IsRun(ys, steps) && i <= k < |ys| && Lapsed(ys[i], id, since)
    requires forall j :: i <= j < k && ReadAt(steps[j]).Some? ==> since <= ReadAt(steps[j]).value
    ensures Lapsed(ys[k], id, since)
  {
    if i < k {
      ExpiredForGood(ys, steps, i, k - 1, id, since);
      RunKeepsInv(ys, steps, k - 1);
      LapsedStaysLapsed(ys[k - 1], steps[k - 1], id, since);
    }
  }

  lemma LapsedStaysLapsed(y: Sys, step: Step, id: ChallengeId, since: Time)
    requires Inv(y) && Lapsed(y, id, since)
    requires ReadAt(step).Some? ==> since <= ReadAt(step).value
    ensures Lapsed(After(y, step), id, since)
  {
    StepKeepsInv(y, step);
    if id in After(y, step).p.challenges && After(y, step).p.challenges[id].verified.Some? {
      VerifiedOnlyByAnswer(y, step, id);
    }
    if id in After(y, step).s.proofs {
      ProofOnlyIfVerified(y, step, id);
      VerifiedOnlyByAnswer(y, step, id);
    }
  }
}
