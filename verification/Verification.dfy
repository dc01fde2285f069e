/**
 * One-time-code verification: the provider that owns challenges, and a session's store of the
 * subjects it dispatched and the proofs it earned.
 */
module Verification {
  import opened Results
  import opened Text

  type Time = real
  type ChallengeId = nat  // the source draws a fresh random id; here it is the dispatch number

  datatype Purpose = ForIdentity | ForProfile | ForRefund

  datatype Subject = Subject(tenant: string, session: string, customer: string, factor: string, purpose: Purpose)

  datatype Request = Request(subject: Subject, dispatchKey: string, maxAttempts: nat)

  datatype Verified = Verified(at: Time, until: Time)

  datatype Challenge = Challenge(request: Request, expiresAt: Time, remaining: nat, verified: Option<Verified>)

  datatype Issued = Issued(id: ChallengeId, expiresAt: Time)

  datatype Provider = Provider(
    tenant: string, codes: map<string, string>, challengeTtl: Time, proofTtl: Time,
    byDispatch: map<string, ChallengeId>, challenges: map<ChallengeId, Challenge>, dispatched: nat)

  datatype Error =
    | WrongTenant | WrongSession | UnknownFactor | NoAttempts | DispatchConflict | LookupMissed
    | BlankSession | RetainedUnknown | CrossedSession | ScopeChanged | Undispatched | NotEarned

  datatype Outcome =
    | IsVerified(subject: Subject, at: Time, until: Time) | Mismatched | Expired | Exhausted | Unknown | Conflict | Broken

  // ---------------------------------------------------------------- the provider

  function Dispatch(p: Provider, r: Request, now: Time): (Provider, Result<Issued, Error>) {
    if r.subject.tenant != p.tenant then (p, Failure(WrongTenant))
    else if r.subject.factor !in p.codes then (p, Failure(UnknownFactor))
    else if r.dispatchKey in p.byDispatch then
      var id := p.byDispatch[r.dispatchKey];
      if id !in p.challenges then (p, Failure(LookupMissed))
      else if p.challenges[id].request != r then (p, Failure(DispatchConflict))
      else (p, Success(Issued(id, p.challenges[id].expiresAt)))
    else
      var id := p.dispatched;
      var challenge := Challenge(r, now + p.challengeTtl, r.maxAttempts, None);
      (p.(byDispatch := p.byDispatch[r.dispatchKey := id], challenges := p.challenges[id := challenge],
          dispatched := id + 1),
       Success(Issued(id, challenge.expiresAt)))
  }

  /** A try that the provider actually compares: the challenge is open, unexpired and has attempts left. */
  predicate Live(p: Provider, id: ChallengeId, now: Time) {
    && id in p.challenges && p.challenges[id].verified.None?
    && now < p.challenges[id].expiresAt && p.challenges[id].remaining > 0
  }

  predicate ExactCode(p: Provider, id: ChallengeId, code: string) {
    && id in p.challenges && p.challenges[id].request.subject.factor in p.codes
    && Strip(code) == p.codes[p.challenges[id].request.subject.factor]
  }

  function Verify(p: Provider, id: ChallengeId, code: string, now: Time): (Provider, Outcome) {
    if id !in p.challenges then (p, Unknown)
    else
      var c := p.challenges[id];
      if c.request.subject.factor !in p.codes then (p, Broken)
      else if c.verified.Some? then
        if !ExactCode(p, id, code) then (p, Conflict)
        else (p, IsVerified(c.request.subject, c.verified.value.at, c.verified.value.until))
      else if now >= c.expiresAt then (p, Expired)
      else if c.remaining == 0 then (p, Exhausted)
      else
        var tried := c.(remaining := c.remaining - 1);
        if !ExactCode(p, id, code) then
          (p.(challenges := p.challenges[id := tried]), if tried.remaining == 0 then Exhausted else Mismatched)
        else
          var proven := tried.(verified := Some(Verified(now, now + p.proofTtl)));
          (p.(challenges := p.challenges[id := proven]), IsVerified(c.request.subject, now, now + p.proofTtl))
  }

  /** The challenges of `session` that a cleanup keeping only `kept` throws away. */
  function Discarded(p: Provider, session: string, kept: set<ChallengeId>): set<ChallengeId> {
    set id | id in p.challenges && p.challenges[id].request.subject.session == session && id !in kept
  }

  /** The dispatch keys that dropping these challenges frees. */
  function FreedKeys(p: Provider, gone: set<ChallengeId>): set<string> {
    set id | id in gone && id in p.challenges && p.challenges[id].request.dispatchKey in p.byDispatch
             && p.byDispatch[p.challenges[id].request.dispatchKey] == id
    :: p.challenges[id].request.dispatchKey
  }

  function Retain(p: Provider, session: string, kept: set<ChallengeId>): (Provider, Result<(), Error>) {
    if Strip(session) == "" then (p, Failure(BlankSession))
    else if !(kept <= p.challenges.Keys) then (p, Failure(RetainedUnknown))
    else if exists id :: id in kept && p.challenges[id].request.subject.session != Strip(session) then
      (p, Failure(CrossedSession))
    else
      var gone := Discarded(p, Strip(session), kept);
      (p.(challenges := p.challenges - gone, byDispatch := p.byDispatch - FreedKeys(p, gone)), Success(()))
  }

  // ---------------------------------------------------------------- the session's store

  datatype Proof = Proof(subject: Subject, id: ChallengeId, at: Time, until: Time)

  const PROOF_LEVEL := 2
  const INITIAL_LEVEL := 1

  datatype Store = Store(session: string, subjects: map<ChallengeId, Subject>, proofs: map<ChallengeId, Proof>)

  datatype Sys = Sys(p: Provider, s: Store)

  predicate Fresh(proof: Proof, now: Time) {
    now < proof.until
  }

  function DispatchOtp(y: Sys, subject: Subject, key: string, maxAttempts: nat, now: Time): (Sys, Result<Issued, Error>) {
    if subject.tenant != y.p.tenant then (y, Failure(WrongTenant))
    else if subject.session != y.s.session then (y, Failure(WrongSession))
    else if maxAttempts == 0 then (y, Failure(NoAttempts))
    else
      var (p, r) := Dispatch(y.p, Request(subject, key, maxAttempts), now);
      if r.Failure? then (Sys(p, y.s), r)
      else if r.value.id in y.s.subjects && y.s.subjects[r.value.id] != subject then
        (Sys(p, y.s), Failure(ScopeChanged))
      else (Sys(p, y.s.(subjects := y.s.subjects[r.value.id := subject])), r)
  }

  /** `code` is the committed answer after digit normalisation; `later` is when freshness is judged. */
  function VerifyOtp(y: Sys, id: ChallengeId, code: string, now: Time, later: Time): (Sys, Result<Outcome, Error>) {
    if id !in y.s.subjects then (y, Failure(Undispatched))
    else
      var (p, outcome) := Verify(y.p, id, code, now);
      if !outcome.IsVerified? then (Sys(p, y.s), Success(outcome))
      else if outcome.subject != y.s.subjects[id] then (Sys(p, y.s), Failure(ScopeChanged))
      else
        var proof := if id in y.s.proofs then y.s.proofs[id]
                     else Proof(y.s.subjects[id], id, outcome.at, outcome.until);
        (Sys(p, y.s.(proofs := y.s.proofs[id := proof])), Success(if Fresh(proof, later) then outcome else Expired))
  }

  function RetainProof(y: Sys, proof: Proof, now: Time): (Sys, Result<(), Error>) {
    if proof.id !in y.s.proofs || y.s.proofs[proof.id] != proof || !Fresh(proof, now) then (y, Failure(NotEarned))
    else if proof.id !in y.s.subjects then (y, Failure(LookupMissed))
    else
      var (p, r) := Retain(y.p, y.s.session, {proof.id});
      if r.Failure? then (Sys(p, y.s), r)
      else
        (Sys(p, y.s.(subjects := map[proof.id := y.s.subjects[proof.id]], proofs := map[proof.id := proof])), r)
  }

  function Clear(y: Sys): (Sys, Result<(), Error>) {
    var (p, r) := Retain(y.p, y.s.session, {});
    if r.Failure? then (Sys(p, y.s), r) else (Sys(p, y.s.(subjects := map[], proofs := map[])), r)
  }

  predicate SameCaller(proof: Proof, subject: Subject) {
    && proof.subject.tenant == subject.tenant && proof.subject.session == subject.session
    && proof.subject.customer == subject.customer && proof.subject.factor == subject.factor
  }

  /** A fresh proof for the same session, customer and factor; the purpose is not a second boundary. */
  predicate AuthorizationSatisfies(s: Store, subject: Subject, level: int, now: Time) {
    exists id :: id in s.proofs && Fresh(s.proofs[id], now) && PROOF_LEVEL >= level && SameCaller(s.proofs[id], subject)
  }

  predicate ChallengeSatisfies(s: Store, id: ChallengeId, subject: Subject, level: int, now: Time) {
    && id in s.subjects && s.subjects[id] == subject && id in s.proofs
    && Fresh(s.proofs[id], now) && PROOF_LEVEL >= level
    && SameCaller(s.proofs[id], subject) && s.proofs[id].subject.purpose == subject.purpose
  }

  // ---------------------------------------------------------------- the classes

  class OtpProvider {
    const tenant: string
    const codes: map<string, string>
    const challengeTtl: Time
    const proofTtl: Time
    var challengeByDispatch: map<string, ChallengeId>
    var challenges: map<ChallengeId, Challenge>
    var dispatchCount: nat

    function State(): Provider
      reads this
    {
      Provider(tenant, codes, challengeTtl, proofTtl, challengeByDispatch, challenges, dispatchCount)
    }

    constructor (tenant: string, codes: map<string, string>, challengeTtl: Time, proofTtl: Time)
      ensures State() == Provider(tenant, codes, challengeTtl, proofTtl, map[], map[], 0)
    {
      this.tenant, this.codes, this.challengeTtl, this.proofTtl := tenant, codes, challengeTtl, proofTtl;
      challengeByDispatch, challenges, dispatchCount := map[], map[], 0;
    }

    method DispatchChallenge(r: Request, now: Time) returns (issued: Result<Issued, Error>)
      modifies this
      ensures (State(), issued) == Dispatch(old(State()), r, now)
    {
      if r.subject.tenant != tenant {
        return Failure(WrongTenant);
      }
      if r.subject.factor !in codes {
        return Failure(UnknownFactor);
      }
      if r.dispatchKey in challengeByDispatch {
        var known := challengeByDispatch[r.dispatchKey];
        if known !in challenges {
          return Failure(LookupMissed);
        }
        if challenges[known].request != r {
          return Failure(DispatchConflict);
        }
        return Success(Issued(known, challenges[known].expiresAt));
      }
      var id := dispatchCount;
      var expiresAt := now + challengeTtl;
      challengeByDispatch := challengeByDispatch[r.dispatchKey := id];
      challenges := challenges[id := Challenge(r, expiresAt, r.maxAttempts, None)];
      dispatchCount := dispatchCount + 1;
      return Success(Issued(id, expiresAt));
    }

    method VerifyCode(id: ChallengeId, code: string, now: Time) returns (outcome: Outcome)
      modifies this`challenges
      ensures (State(), outcome) == Verify(old(State()), id, code, now)
    {
      if id !in challenges {
        return Unknown;
      }
      var c := challenges[id];
      if c.request.subject.factor !in codes {
        return Broken;
      }
      var expected := codes[c.request.subject.factor];
      if c.verified.Some? {
        if Strip(code) != expected {
          return Conflict;
        }
        return IsVerified(c.request.subject, c.verified.value.at, c.verified.value.until);
      }
      if now >= c.expiresAt {
        return Expired;
      }
      if c.remaining <= 0 {
        return Exhausted;
      }
      c := c.(remaining := c.remaining - 1);
      challenges := challenges[id := c];
      if Strip(code) != expected {
        return if c.remaining == 0 then Exhausted else Mismatched;
      }
      c := c.(verified := Some(Verified(now, now + proofTtl)));
      challenges := challenges[id := c];
      assert challenges == old(challenges)[id := c];
      return IsVerified(c.request.subject, now, now + proofTtl);
    }

    method RetainOnly(session: string, kept: set<ChallengeId>) returns (r: Result<(), Error>)
      modifies this
      ensures (State(), r) == Retain(old(State()), session, kept)
    {
      var cleaned := Strip(session);
      if cleaned == "" {
        return Failure(BlankSession);
      }
      if !(kept <= challenges.Keys) {
        return Failure(RetainedUnknown);
      }
      if exists id :: id in kept && challenges[id].request.subject.session != cleaned {
        return Failure(CrossedSession);
      }
      ghost var before := State();
      var gone := Discarded(State(), cleaned, kept);
      var left := gone;
      while left != {}
        invariant left <= gone
        invariant challenges == before.challenges - (gone - left)
        invariant challengeByDispatch == before.byDispatch - FreedKeys(before, gone - left)
        invariant dispatchCount == before.dispatched
        decreases left
      {
        var id :| id in left;
        var key := challenges[id].request.dispatchKey;
        challenges := challenges - {id};
        if key in challengeByDispatch && challengeByDispatch[key] == id {
          challengeByDispatch := challengeByDispatch - {key};
        }
        left := left - {id};
        assert gone - left == (gone - (left + {id})) + {id};
      }
      assert gone - left == gone;
      return Success(());
    }
  }

  class VerificationStore {
    const otp: OtpProvider
    const session: string
    var subjectsByChallenge: map<ChallengeId, Subject>
    var proofsByChallenge: map<ChallengeId, Proof>

    function State(): Sys
      reads this, otp
    {
      Sys(otp.State(), Store(session, subjectsByChallenge, proofsByChallenge))
    }

    constructor (otp: OtpProvider, session: string)
      ensures this.otp == otp && State() == Sys(otp.State(), Store(session, map[], map[]))
    {
      this.otp, this.session := otp, session;
      subjectsByChallenge, proofsByChallenge := map[], map[];
    }

    method Dispatch(subject: Subject, key: string, maxAttempts: nat, now: Time) returns (r: Result<Issued, Error>)
      modifies this, otp
      ensures (State(), r) == DispatchOtp(old(State()), subject, key, maxAttempts, now)
    {
      if subject.tenant != otp.tenant {
        return Failure(WrongTenant);
      }
      if subject.session != session {
        return Failure(WrongSession);
      }
      if maxAttempts == 0 {
        return Failure(NoAttempts);
      }
      r := otp.DispatchChallenge(Request(subject, key, maxAttempts), now);
      if r.Success? {
        var id := r.value.id;
        if id in subjectsByChallenge && subjectsByChallenge[id] != subject {
          return Failure(ScopeChanged);
        }
        subjectsByChallenge := subjectsByChallenge[id := subject];
      }
    }

    method Verify(id: ChallengeId, code: string, now: Time, later: Time) returns (r: Result<Outcome, Error>)
      modifies this`proofsByChallenge, otp
      ensures (State(), r) == VerifyOtp(old(State()), id, code, now, later)
    {
      if id !in subjectsByChallenge {
        return Failure(Undispatched);
      }
      var expected := subjectsByChallenge[id];
      var outcome := otp.VerifyCode(id, code, now);
      if !outcome.IsVerified? {
        return Success(outcome);
      }
      if outcome.subject != expected {
        return Failure(ScopeChanged);
      }
      if id !in proofsByChallenge {
        proofsByChallenge := proofsByChallenge[id := Proof(expected, id, outcome.at, outcome.until)];
      }
      assert proofsByChallenge == proofsByChallenge[id := proofsByChallenge[id]];
      return Success(if Fresh(proofsByChallenge[id], later) then outcome else Expired);
    }

    method RetainOnly(proof: Proof, now: Time) returns (r: Result<(), Error>)
      modifies this, otp
      ensures (State(), r) == RetainProof(old(State()), proof, now)
    {
      if proof.id !in proofsByChallenge || proofsByChallenge[proof.id] != proof || !Fresh(proof, now) {
        return Failure(NotEarned);
      }
      if proof.id !in subjectsByChallenge {
        return Failure(LookupMissed);
      }
      var subject := subjectsByChallenge[proof.id];
      r := otp.RetainOnly(session, {proof.id});
      if r.Success? {
        subjectsByChallenge := map[proof.id := subject];
        proofsByChallenge := map[proof.id := proof];
      }
    }

    method ClearAll() returns (r: Result<(), Error>)
      modifies this, otp
      ensures (State(), r) == Clear(old(State()))
    {
      r := otp.RetainOnly(session, {});
      if r.Success? {
        subjectsByChallenge := map[];
        proofsByChallenge := map[];
      }
    }
  }
}
