/** Stored decisions: they always decode, repeats return them unchanged, and the fast path agrees with the slow one. */
module Idempotency {
  import opened Wrappers
  import opened Verdict
  import opened KeyringCodec
  import opened Schema
  import opened Transactions
  import opened Runs
  import opened Effects
  import opened Coherence
  import opened Requests

  // ----- every stored decision decodes to the result that was returned -----

  /** What the service guarantees of its arguments: nonempty text, a TTL in range, a clock past the epoch. */
  ghost predicate Validated(op: Op) {
    && (op.Issue? ==>
          && op.now >= 0
          && 1 <= op.record.expiresAt - op.record.issuedAt <= 3600
          && op.record.tag != "" && op.record.clientId != ""
          && op.record.subject != "" && op.record.purpose != "" && op.record.audience != "")
    && (op.Verify? ==> op.now >= 0 && op.decisionId != "" && op.clientId != "")
  }

  ghost predicate AllValidated(run: Run) {
    forall i :: 0 <= i < |run.ops| ==> Validated(run.ops[i])
  }

  /** A proof that can still be accepted carries claims the codec trusts. */
  ghost predicate Claimable(l: Ledger, p: Proof) {
    && p.tag != "" && p.clientId != "" && p.subject != "" && p.purpose != "" && p.audience != ""
    && p.issuedAt >= 0
    && (p.clientId in l.clients && l.clients[p.clientId].status == Active && p.consumedAt.None? ==>
          p.issuedAt < p.expiresAt)
  }

  ghost predicate Decodable(id: Id, d: Decision) {
    && FromDict(d.resultJson).Success?
    && FromDict(d.resultJson).value.attestation.verificationId == id
    && FromDict(d.resultJson).value.attestation.decidedAt == d.createdAt
  }

  ghost predicate Persistent(l: Ledger) {
    && (forall d :: d in l.proofs ==> Claimable(l, l.proofs[d]))
    && (forall id :: id in l.decisions ==> Decodable(id, l.decisions[id]))
  }

  lemma KeepsClaimable(l: Ledger, op: Op, d: TokenDigest)
    requires References(l) && Persistent(l) && Validated(op) && d in Next(l, op).proofs
    ensures Claimable(Next(l, op), Next(l, op).proofs[d])
  {
    hide Next, Decides, FreshResult, Issuing, FromDict;
    ProofSteps(l, op, d);
    ClientSteps(l, op, Next(l, op).proofs[d].clientId);
    if Revokes(l, op) { RevokeCommits(l, op); }
    if Activates(l, op) { ActivateCommits(l, op); }
    if d in l.proofs {
      assert Claimable(l, l.proofs[d]) && ProofReferences(l, l.proofs[d]);
    }
  }

  lemma DecisionIsTrusted(l: Ledger, clientId: Id, request: Request, now: int, decisionId: Id)
    requires Persistent(l) && clientId in l.clients && l.clients[clientId].status == Active
    requires clientId != "" && now >= 0 && decisionId != ""
    ensures Trusted(Decide(l, clientId, request, now, decisionId).1)
  {
    hide FromDict, ToDict;
    if request.digest in l.proofs {
      assert Claimable(l, l.proofs[request.digest]);
    }
  }

  /** Every result the ledger decides is one the codec gives back. */
  lemma FreshIsTrusted(l: Ledger, op: Op)
    requires Persistent(l) && Validated(op) && Decides(l, op)
    ensures Trusted(FreshResult(l, op))
    ensures FromDict(ToDict(FreshResult(l, op))) == Success(FreshResult(l, op))
  {
    hide Next, FromDict, ToDict, FreshResult, Decide, Trusted, Persistent;
    DecideCommits(l, op);
    DecisionIsTrusted(l, op.clientId, op.request, op.now, op.decisionId);
    EncodeThenDecode(FreshResult(l, op));
  }

  lemma KeepsPersistent(l: Ledger, op: Op)
    requires References(l) && Persistent(l) && Validated(op)
    ensures Persistent(Next(l, op))
  {
    var m := Next(l, op);
    forall d | d in m.proofs
      ensures Claimable(m, m.proofs[d])
    {
      KeepsClaimable(l, op, d);
    }
    forall id | id in m.decisions
      ensures Decodable(id, m.decisions[id])
    {
      DecisionSteps(l, op, id);
      if id in l.decisions {
        assert Decodable(id, l.decisions[id]);
      } else {
        FreshIsTrusted(l, op);
        FreshIsDated(l, op);
      }
    }
  }

  lemma FreshIsDated(l: Ledger, op: Op)
    requires Decides(l, op)
    ensures FreshResult(l, op).attestation.verificationId == op.decisionId
    ensures FreshResult(l, op).attestation.decidedAt == op.now
  {
    hide Next, FreshResult, Decides, ToDict, FromDict;
    DecideCommits(l, op);
  }

  lemma {:induction false} ReachableIsPersistent(run: Run, i: nat)
    requires IsRun(run) && AllValidated(run) && i < |run.states|
    ensures Persistent(run.states[i])
  {
    if i > 0 {
      ReachableIsPersistent(run, i - 1);
      ReachableIsCoherent(run, i - 1);
      KeepsPersistent(run.states[i - 1], run.ops[i - 1]);
    }
  }

  /** Looking up a stored decision never reports corruption, in any run. */
  lemma RetriesNeverCorrupt(run: Run, i: nat, clientId: Id, key: Option<string>, fingerprint: Fingerprint)
    requires IsRun(run) && AllValidated(run) && i < |run.states|
    ensures IdempotentResult(run.states[i], clientId, key, fingerprint) != Failure(Corrupt)
  {
    ReachableIsPersistent(run, i);
    if key.Some? && KeyedDecision(run.states[i], clientId, key.value).Some? {
      var id := KeyedDecision(run.states[i], clientId, key.value).value;
      assert Decodable(id, run.states[i].decisions[id]);
    }
  }

  // ----- repeats within the retention period -----

  lemma DecisionKept(l: Ledger, op: Op, id: Id)
    requires id in l.decisions
    requires op.Clean? ==> op.now <= l.decisions[id].createdAt + 86_400
    ensures id in Next(l, op).decisions && Next(l, op).decisions[id] == l.decisions[id]
  {
    DecisionSteps(l, op, id);
  }

  lemma {:induction false} DecisionSurvives(run: Run, clock: seq<int>, i: nat, j: nat, id: Id)
    requires IsRun(run) && Timed(run, clock) && i < j < |run.states|
    requires id in run.states[i + 1].decisions && run.states[i + 1].decisions[id].createdAt == clock[i]
    requires clock[j - 1] <= clock[i] + 86_400
    ensures id in run.states[j].decisions
    ensures run.states[j].decisions[id] == run.states[i + 1].decisions[id]
  {
    hide Next;
    if i + 1 < j {
      assert clock[j - 2] <= clock[j - 1];
      DecisionSurvives(run, clock, i, j - 1, id);
      DecisionKept(run.states[j - 1], run.ops[j - 1], id);
    }
  }

  lemma OneDecision(run: Run, i: nat)
    requires IsRun(run) && i < |run.states|
    ensures OneDecisionPerKey(run.states[i])
  {
    ReachableIsCoherent(run, i);
  }

  /** The index finds the decision that is there. */
  lemma KeyFindsDecision(l: Ledger, id: Id, clientId: Id, key: string)
    requires OneDecisionPerKey(l) && id in l.decisions && HoldsKey(l.decisions[id], clientId, key)
    ensures KeyedDecision(l, clientId, key) == Some(id)
  {
  }

  /** The two requests present the same proof with the same bindings. */
  ghost predicate SameRequest(first: Request, second: Request) {
    && first.digest.proof == second.digest.proof
    && first.subject == second.subject
    && first.purpose == second.purpose
    && first.audience == second.audience
  }

  /**
   * For a day after a decision, every authorised use of its client and key answers from it and changes nothing: a
   * request for the same proof, subject, purpose and audience gets the identical result, one that differs in any of
   * the four a conflict.
   */
  lemma StableIdempotency(run: Run, clock: seq<int>, i: nat, j: nat)
    requires IsRun(run) && AllValidated(run) && Timed(run, clock) && i < j < |run.ops|
    requires Decides(run.states[i], run.ops[i]) && run.ops[i].key.Some?
    requires var first, again := run.ops[i], run.ops[j];
             && again.Verify? && again.clientId == first.clientId && again.key == first.key
             && !Sealed(run.states[j])
             && Authorised(run.states[j], again.credentialId, again.clientId, Role.Verification, again.now)
    requires clock[j] <= clock[i] + 86_400
    ensures Next(run.states[j], run.ops[j]) == run.states[j]
    ensures ReplyOf(run.states[j], run.ops[j]) ==
            if SameRequest(run.ops[j].request, run.ops[i].request)
            then Reply.Verdict(Answer(FreshResult(run.states[i], run.ops[i]), Replayed))
            else Failed(IdempotencyConflict)
  {
    hide Next, ReplyOf, FromDict, ToDict, Decide, Persistent, Coherent, KeyedDecision;
    assert clock[j - 1] <= clock[j];
    StoredForADay(run, clock, i, j);
    ReplayAnswers(run.states[j], run.ops[j], run.ops[i].decisionId);
  }

  /** In every state of the day after it, the index finds the decision, and it decodes to what was returned. */
  lemma StoredForADay(run: Run, clock: seq<int>, i: nat, j: nat)
    requires IsRun(run) && AllValidated(run) && Timed(run, clock) && i < j < |run.states|
    requires Decides(run.states[i], run.ops[i]) && run.ops[i].key.Some?
    requires clock[j - 1] <= clock[i] + 86_400
    ensures var m, op := run.states[j], run.ops[i];
            && KeyedDecision(m, op.clientId, op.key.value) == Some(op.decisionId)
            && op.decisionId in m.decisions
            && m.decisions[op.decisionId].fingerprint ==
                 Fingerprint(op.request.digest.proof, op.request.subject, op.request.purpose, op.request.audience)
            && FromDict(m.decisions[op.decisionId].resultJson) == Success(FreshResult(run.states[i], op))
  {
    hide Next, ReplyOf, FromDict, ToDict, Decide, Persistent, Coherent, KeyedDecision;
    var l, op := run.states[i], run.ops[i];
    DecideCommits(l, op);
    DecisionSurvives(run, clock, i, j, op.decisionId);
    OneDecision(run, j);
    ReachableIsPersistent(run, i);
    FreshIsTrusted(l, op);
    KeyFindsDecision(run.states[j], op.decisionId, op.clientId, op.key.value);
  }

  lemma ReplayAnswers(l: Ledger, op: Op, id: Id)
    requires op.Verify? && op.key.Some? && !Sealed(l)
    requires Authorised(l, op.credentialId, op.clientId, Role.Verification, op.now)
    requires KeyedDecision(l, op.clientId, op.key.value) == Some(id)
    requires id in l.decisions && FromDict(l.decisions[id].resultJson).Success?
    ensures Next(l, op) == l
    ensures ReplyOf(l, op) ==
            if FingerprintOf(op.request) == l.decisions[id].fingerprint
            then Reply.Verdict(Answer(FromDict(l.decisions[id].resultJson).value, Replayed))
            else Failed(IdempotencyConflict)
  {
    hide FromDict, KeyedDecision, DecideFresh;
  }

  // ----- the lookup before the lock -----

  ghost function Looking(l: Ledger, op: Op): Result<Option<VerificationResult>, Error>
    requires op.Verify?
  {
    CachedVerification(l, op.credentialId, op.clientId, FingerprintOf(op.request), op.key, op.now)
  }

  /** Whatever the lookup returns or raises, the transaction at the same point answers too, and changes nothing. */
  lemma FastPathRefinesSlowPath(l: Ledger, op: Op)
    requires op.Verify?
    ensures Looking(l, op).Failure? ==> ReplyOf(l, op) == Failed(Looking(l, op).error) && Next(l, op) == l
    ensures Looking(l, op).Success? && Looking(l, op).value.Some? ==>
              ReplyOf(l, op) == Reply.Verdict(Answer(Looking(l, op).value.value, Replayed)) && Next(l, op) == l
    ensures (Looking(l, op).Success? && Looking(l, op).value.Some?)
            <==> (ReplyOf(l, op).Verdict? && ReplyOf(l, op).answer.origin == Replayed)
  {
    hide FromDict, KeyedDecision, Decide;
  }

  /** A verification past early authentication: look up in one state, then consume in a later one if need be. */
  ghost function VerifyInTwoSteps(atLookup: Ledger, lookup: Op, atConsume: Ledger, consume: Op): (Ledger, Reply)
    requires lookup.Verify? && consume.Verify?
  {
    var cached := Looking(atLookup, lookup);
    if cached.Failure? then (atConsume, Failed(cached.error))
    else if cached.value.Some? then (atConsume, Reply.Verdict(Answer(cached.value.value, Replayed)))
    else (Next(atConsume, consume), ReplyOf(atConsume, consume))
  }

  /** The two steps together are one atomic consume, at the lookup or at the transaction. */
  lemma TwoStepsAreOne(atLookup: Ledger, lookup: Op, atConsume: Ledger, consume: Op)
    requires lookup.Verify? && consume.Verify?
    ensures var (after, reply) := VerifyInTwoSteps(atLookup, lookup, atConsume, consume);
            || (reply == ReplyOf(atLookup, lookup) && Next(atLookup, lookup) == atLookup && after == atConsume)
            || (reply == ReplyOf(atConsume, consume) && after == Next(atConsume, consume))
  {
    FastPathRefinesSlowPath(atLookup, lookup);
  }

  // ----- a verification from secret to reply -----

  /** When a verification authenticates, looks up a stored decision, and takes the write lock. */
  datatype VerifyTimes = VerifyTimes(authenticated: int, lookedUp: int, locked: int)

  /**
   * One verification from secret to reply. It reads the ledger at three points, and other transactions may run
   * between them; the result is the ledger it leaves at the last one and what its caller is told.
   */
  ghost function VerifyReply(atAuth: Ledger, atLookup: Ledger, atLock: Ledger, ring: Ring, p: Presentation,
                             times: VerifyTimes, decisionId: Id, eventId: Id): (Ledger, Reply)
  {
    var id := Authenticate(atAuth, ring, p.secret, Role.Verification, times.authenticated);
    if id.None? then
      var result := RejectedResult(CredentialRejected, decisionId, None, None, times.authenticated);
      (atLock, Reply.Verdict(Answer(result, Unauthenticated)))
    else
      var clientId := atAuth.credentials[id.value].clientId;
      VerifyInTwoSteps(atLookup, VerifyOp(ring, id.value, clientId, p, times.lookedUp, decisionId, eventId),
                       atLock, VerifyOp(ring, id.value, clientId, p, times.locked, decisionId, eventId))
  }

  /** A lookup of the stored decision answers like the transaction, or leaves the answer to it. */
  lemma LookupAnswers(l: Ledger, op: Op, id: Id)
    requires op.Verify? && op.key.Some? && !Sealed(l)
    requires KeyedDecision(l, op.clientId, op.key.value) == Some(id)
    requires id in l.decisions && FromDict(l.decisions[id].resultJson).Success?
    ensures Looking(l, op) ==
            if !Authorised(l, op.credentialId, op.clientId, Role.Verification, op.now) then Success(None)
            else if FingerprintOf(op.request) == l.decisions[id].fingerprint
            then Success(Some(FromDict(l.decisions[id].resultJson).value))
            else Failure(IdempotencyConflict)
  {
    hide FromDict, KeyedDecision;
  }

  /**
   * The same from what callers present. For a day after a keyed decision, whoever verifies with that key for the same
   * client, from authentication to reply and with other transactions in between, and is still authorised at the lookup
   * or at the lock, is told the identical result if proof, subject, purpose and audience are those of the first request
   * and a conflict if any of them differs, and the call changes nothing.
   */
  lemma KeyedRetryIsStable(run: Run, clock: seq<int>, i: nat, first: nat, middle: nat, last: nat, ring: Ring,
                           original: Presentation, again: Presentation, id: Id, times: VerifyTimes,
                           decisionId: Id, eventId: Id)
    requires IsRun(run) && AllValidated(run) && Timed(run, clock)
    requires i < first <= middle <= last < |run.states| && clock[last - 1] <= clock[i] + 86_400
    requires Decides(run.states[i], run.ops[i]) && run.ops[i].key.Some? && Asked(run.ops[i], original)
    requires again.key == original.key
    requires Authenticate(run.states[first], ring, again.secret, Role.Verification, times.authenticated) == Some(id)
    requires run.states[first].credentials[id].clientId == run.ops[i].clientId
    requires !Sealed(run.states[middle]) && !Sealed(run.states[last])
    requires || Authorised(run.states[middle], id, run.ops[i].clientId, Role.Verification, times.lookedUp)
             || Authorised(run.states[last], id, run.ops[i].clientId, Role.Verification, times.locked)
    ensures var (after, reply) := VerifyReply(run.states[first], run.states[middle], run.states[last], ring, again,
                                              times, decisionId, eventId);
            && after == run.states[last]
            && reply ==
                 if again.proof == original.proof && again.subject == original.subject
                    && again.purpose == original.purpose && again.audience == original.audience
                 then Reply.Verdict(Answer(FreshResult(run.states[i], run.ops[i]), Replayed))
                 else Failed(IdempotencyConflict)
  {
    hide Next, ReplyOf, FromDict, FreshResult, Authenticate, KeyedDecision, Looking, Authorised, Decides, ProofKid;
    assert clock[middle - 1] <= clock[last - 1];
    StoredForADay(run, clock, i, middle);
    StoredForADay(run, clock, i, last);
    var clientId := run.ops[i].clientId;
    LookupAnswers(run.states[middle], VerifyOp(ring, id, clientId, again, times.lookedUp, decisionId, eventId),
                  run.ops[i].decisionId);
    if Authorised(run.states[last], id, clientId, Role.Verification, times.locked) {
      ReplayAnswers(run.states[last], VerifyOp(ring, id, clientId, again, times.locked, decisionId, eventId),
                    run.ops[i].decisionId);
    }
  }

  /** The transaction verifies what was presented: its proof, its bindings and its key. */
  ghost predicate Asked(op: Op, p: Presentation) {
    && op.Verify?
    && op.request.digest.proof == p.proof && op.request.subject == p.subject
    && op.request.purpose == p.purpose && op.request.audience == p.audience
    && op.key == p.key
  }

  /** What is decided about a presentation is stored under its key and with its four parts. */
  lemma PresentationIsStored(l: Ledger, ring: Ring, id: Id, clientId: Id, p: Presentation, now: int,
                             decisionId: Id, eventId: Id)
    requires Decides(l, VerifyOp(ring, id, clientId, p, now, decisionId, eventId))
    ensures Asked(VerifyOp(ring, id, clientId, p, now, decisionId, eventId), p)
    ensures var m := Next(l, VerifyOp(ring, id, clientId, p, now, decisionId, eventId));
            && decisionId in m.decisions
            && m.decisions[decisionId].idempotencyKey == p.key
            && m.decisions[decisionId].clientId == clientId && m.decisions[decisionId].credentialId == id
            && m.decisions[decisionId].fingerprint == Fingerprint(p.proof, p.subject, p.purpose, p.audience)
            && m.decisions[decisionId].createdAt == now
  {
    hide Next;
    DecideCommits(l, VerifyOp(ring, id, clientId, p, now, decisionId, eventId));
  }

  /** Without authentication nothing is looked up or changed, and the witness names neither client nor proof. */
  lemma UnauthenticatedReply(atAuth: Ledger, atLookup: Ledger, atLock: Ledger, ring: Ring, p: Presentation,
                             times: VerifyTimes, decisionId: Id, eventId: Id)
    requires Authenticate(atAuth, ring, p.secret, Role.Verification, times.authenticated) == None
    ensures VerifyReply(atAuth, atLookup, atLock, ring, p, times, decisionId, eventId) ==
            (atLock,
             Reply.Verdict(Answer(
               VerificationResult(false, Some(CredentialRejected),
                 VerificationWitness("rejected", decisionId, None, None, times.authenticated, Some(CredentialRejected)),
                 None),
               Unauthenticated)))
  {
  }
}
