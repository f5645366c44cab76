/**
 * What callers are told, said in terms of rows: which condition refuses a request, and with what, and what a granted
 * request is answered (src/onceproof/store.py:447-849, 1094-1188).
 */
module Answers {
  import opened Wrappers
  import opened Verdict
  import opened KeyringCodec
  import opened Schema
  import opened Transactions
  import opened Runs
  import opened Effects
  import RateQuota

  predicate SealedRow(l: Ledger) {
    l.restoreRequired.Some? && l.restoreRequired.value != 0
  }

  /** An active client's credential of this role that is current, or superseded and still in its grace. */
  predicate MayAct(l: Ledger, id: Id, clientId: Id, role: Role, now: int) {
    && id in l.credentials && clientId in l.clients && l.clients[clientId].status == Active
    && var c := l.credentials[id];
       && c.clientId == clientId && c.role == role
       && (c.status == Current || (c.status == Previous && c.validUntil.Some? && now < c.validUntil.value))
  }

  predicate OtherKey(l: Ledger, op: Op)
    requires op.Issue?
  {
    op.record.hashKid in l.hashKeys && l.hashKeys[op.record.hashKid] != op.check
  }

  // ----- issue -----

  /** The rows an issue must not collide with. */
  predicate FreshIssue(l: Ledger, op: Op)
    requires op.Issue?
  {
    && op.digest !in l.proofs && op.eventId !in l.auditEvents
    && forall d | d in l.proofs :: l.proofs[d].tag != op.record.tag
  }

  /** The slots taken by a client in the last minute. */
  function Taken(l: Ledger, clientId: Id, operation: Operation, now: int): nat {
    |Slots(l.rateEvents, clientId, operation, now - 60)|
  }

  lemma SlotsDecide(l: Ledger, clientId: Id, operation: Operation, limit: Quota, now: int)
    ensures ConsumeRateSlot(l, clientId, operation, limit, now).Success? <==> Taken(l, clientId, operation, now) < limit
    ensures var slot := ConsumeRateSlot(l, clientId, operation, limit, now);
            if slot.Success? then slot.value == l.(rateEvents := slot.value.rateEvents) else slot.error.RateLimited?
  {
    RateQuota.SlotsOfPruned(l.rateEvents, now - 60, clientId, operation, now - 60);
  }

  predicate GrantedRow(row: Proof, prepared: Proof, now: int) {
    && row.tag == prepared.tag && row.hashKid == prepared.hashKid && row.clientId == prepared.clientId
    && row.issueCredentialId == prepared.issueCredentialId
    && row.subject == prepared.subject && row.purpose == prepared.purpose && row.audience == prepared.audience
    && row.issuedAt == now
    && row.expiresAt - row.issuedAt == prepared.expiresAt - prepared.issuedAt
  }

  lemma RegistersOrNot(l: Ledger, kid: Kid, check: KeyCheck)
    ensures RegisterHashKey(l, kid, check) ==
            if kid in l.hashKeys && l.hashKeys[kid] != check then Failure(Corrupt)
            else Success(l.(hashKeys := Registered(l, kid, check)))
  {
  }

  lemma MayActMeansAuthorised(l: Ledger, id: Id, clientId: Id, role: Role, now: int)
    ensures MayAct(l, id, clientId, role, now) <==> Authorised(l, id, clientId, role, now)
  {
  }

  /**
   * An issue is refused, in this order, by a sealed ledger, another key under its identifier, an issuer that may not
   * act, and a full quota; otherwise it is granted if its identifiers are new. Granted, the proof has the fields it was
   * prepared with, and its period begins when the lock is taken.
   */
  lemma IssueAnswers(l: Ledger, op: Op)
    requires op.Issue?
    ensures var r, reply := op.record, ReplyOf(l, op);
            if SealedRow(l) then reply == Failed(RestoreRequired)
            else if OtherKey(l, op) then reply == Failed(Corrupt)
            else if !MayAct(l, r.issueCredentialId, r.clientId, Issuance, op.now) then reply == Failed(PermissionDenied)
            else if Taken(l, r.clientId, IssueSlot, op.now) >= l.clients[r.clientId].issueLimit then
              reply.Failed? && reply.error.RateLimited?
            else if FreshIssue(l, op) then
              reply.Issued? && GrantedRow(reply.proof, r, op.now)
            else reply == Failed(ConstraintFailed)
  {
    hide ConsumeRateSlot, Slots, Next, Authorised, RegisterHashKey;
    var r := op.record;
    RegistersOrNot(l, r.hashKid, op.check);
    if !OtherKey(l, op) {
      var l1 := RegisterHashKey(l, r.hashKid, op.check).value;
      MayActMeansAuthorised(l1, r.issueCredentialId, r.clientId, Issuance, op.now);
      if r.clientId in l.clients {
        SlotsDecide(l1, r.clientId, IssueSlot, l.clients[r.clientId].issueLimit, op.now);
      }
    }
  }

  /** The row of a granted issue has the same fields, and is not consumed. */
  lemma GrantedIsStored(l: Ledger, op: Op)
    requires Issues(l, op)
    ensures op.digest in Next(l, op).proofs && GrantedRow(Next(l, op).proofs[op.digest], op.record, op.now)
    ensures Next(l, op).proofs[op.digest].consumedAt.None?
    ensures GrantedRow(Issuing(l, op).value.value, op.record, op.now)
  {
    hide Next;
    IssueCommits(l, op);
  }

  // ----- verify -----

  /** A verifier that may not act is told so, with a witness that names neither client nor proof; nothing changes. */
  lemma UnauthorisedAnswers(l: Ledger, op: Op)
    requires op.Verify? && !MayAct(l, op.credentialId, op.clientId, Role.Verification, op.now)
    ensures Next(l, op) == l
    ensures ReplyOf(l, op) ==
            if SealedRow(l) then Failed(RestoreRequired)
            else
              var refused := VerificationWitness("rejected", op.decisionId, None, None, op.now,
                                                 Some(CredentialRejected));
              Reply.Verdict(Answer(VerificationResult(false, Some(CredentialRejected), refused, None), Unauthenticated))
  {
    hide IdempotentResult, DecideFresh;
  }

  /** Acceptance says exactly what was asked and what was issued. */
  lemma AcceptanceAnswers(l: Ledger, op: Op)
    requires Accepts(l, op)
    ensures op.request.digest in l.proofs
    ensures var row, request := l.proofs[op.request.digest], op.request;
            ReplyOf(l, op) == Reply.Verdict(Answer(
              VerificationResult(true, None,
                VerificationWitness("verified_once", op.decisionId, Some(row.tag), Some(op.clientId), op.now, None),
                Some(ProofClaims(op.clientId, request.subject, request.purpose, request.audience,
                                 row.issuedAt, row.expiresAt))),
              Fresh))
    ensures MayAct(l, op.credentialId, op.clientId, Role.Verification, op.now)
  {
    AcceptCommits(l, op);
    DecideCommits(l, op);
    hide Next;
  }

  /** A verification that gets past its caller and finds nothing under its key is decided, unless the quota is full. */
  lemma VerifyAnswers(l: Ledger, op: Op)
    requires op.Verify? && !SealedRow(l) && MayAct(l, op.credentialId, op.clientId, Role.Verification, op.now)
    requires op.key.Some? ==> forall id :: id in l.decisions ==>
               !(l.decisions[id].clientId == op.clientId && l.decisions[id].idempotencyKey == op.key)
    requires op.decisionId !in l.decisions && op.eventId !in l.auditEvents
    ensures if Taken(l, op.clientId, VerifySlot, op.now) < l.clients[op.clientId].verifyLimit then Decides(l, op)
            else ReplyOf(l, op).Failed? && ReplyOf(l, op).error.RateLimited? && Next(l, op) == l
  {
    hide Slots, FromDict, ToDict, ConsumeRateSlot, Authorised, DecideFresh;
    MayActMeansAuthorised(l, op.credentialId, op.clientId, Role.Verification, op.now);
    assert op.key.Some? ==> forall id :: id in l.decisions ==> !HoldsKey(l.decisions[id], op.clientId, op.key.value);
    FreshAnswers(l, op.credentialId, op.clientId, op.request, FingerprintOf(op.request), op.key, op.now,
                 op.decisionId, op.eventId);
  }

  lemma FreshAnswers(l: Ledger, credentialId: Id, clientId: Id, request: Request, fingerprint: Fingerprint,
                     key: Option<string>, now: int, decisionId: Id, eventId: Id)
    requires clientId in l.clients
    requires key.Some? ==> forall id :: id in l.decisions ==> !HoldsKey(l.decisions[id], clientId, key.value)
    requires decisionId !in l.decisions && eventId !in l.auditEvents
    ensures var t := DecideFresh(l, credentialId, clientId, request, fingerprint, key, now, decisionId, eventId);
            if Taken(l, clientId, VerifySlot, now) < l.clients[clientId].verifyLimit
            then t.Success? && t.value.value.origin == Fresh
            else t.Failure? && t.error.RateLimited?
  {
    hide Slots, FromDict, ToDict, ConsumeRateSlot, Decide;
    var limit := l.clients[clientId].verifyLimit;
    SlotsDecide(l, clientId, VerifySlot, limit, now);
    var slot := ConsumeRateSlot(l, clientId, VerifySlot, limit, now);
    if slot.Success? { DecisionKeepsRest(slot.value, clientId, request, now, decisionId); }
  }

  // ----- rotate -----

  /**
   * A rotation is refused by a sealed ledger, another key under its identifier, an unknown and a revoked client.
   * Granted, it answers the credential it superseded, which was the client's current one of that role, and the end of
   * its grace.
   */
  lemma RotateAnswers(l: Ledger, op: Op)
    requires op.Rotate?
    ensures var t := Rotating(l, op);
            if SealedRow(l) then t == Failure(RestoreRequired)
            else if op.kid in l.hashKeys && l.hashKeys[op.kid] != op.check then t == Failure(Corrupt)
            else if op.clientId !in l.clients then t == Failure(UnknownClient)
            else if l.clients[op.clientId].status == Closed then t == Failure(ClientIsRevoked)
            else t.Success? ==>
              var (previousId, validUntil) := t.value.value;
              && previousId in l.credentials
              && l.credentials[previousId].clientId == op.clientId && l.credentials[previousId].role == op.role
              && l.credentials[previousId].status == Current
              && validUntil == op.now + op.graceSeconds
              && previousId in t.value.ledger.credentials
              && t.value.ledger.credentials[previousId] ==
                   l.credentials[previousId].(status := Previous, validUntil := Some(validUntil))
  {
    hide Next, RegisterHashKey, InsertCredential, InsertAudit;
    RegistersOrNot(l, op.kid, op.check);
    if Rotates(l, op) { RotationStatements(l, op); }
  }

  lemma RotationStatements(l: Ledger, op: Op)
    requires Rotates(l, op)
    ensures var committed := Rotating(l, op).value;
            var (previousId, validUntil) := committed.value;
            && previousId in l.credentials && IsCurrent(l.credentials[previousId], op.clientId, op.role)
            && validUntil == op.now + op.graceSeconds
            && previousId in committed.ledger.credentials
            && committed.ledger.credentials[previousId] ==
                 l.credentials[previousId].(status := Previous, validUntil := Some(validUntil))
  {
    RotateCommits(l, op);
    hide Next;
  }

  // ----- create, revoke, activate -----

  /** A creation is refused by a sealed ledger and by secrets digested under two keys. */
  lemma CreateAnswers(l: Ledger, clientId: Id, name: string, audiences: seq<string>, ttlSeconds: int, issueLimit: int,
                      verifyLimit: int, issuance: NewCredential, verification: NewCredential,
                      check: KeyCheck, now: int, eventId: Id)
    ensures var t := CreateClient(l, clientId, name, audiences, ttlSeconds, issueLimit, verifyLimit, issuance,
                                  verification, check, now, eventId);
            if SealedRow(l) then t == Failure(RestoreRequired)
            else if issuance.hashKid != verification.hashKid then t == Failure(KeyMismatch)
            else if issuance.hashKid in l.hashKeys && l.hashKeys[issuance.hashKid] != check then t == Failure(Corrupt)
            else if clientId in l.clients then t == Failure(ConstraintFailed)
            else t.Success? || t == Failure(ConstraintFailed)
  {
  }

  /** A revocation answers whether it changed anything, and refuses a sealed ledger and an unknown client. */
  lemma RevokeAnswers(l: Ledger, clientId: Id, now: int, eventId: Id)
    ensures var t := RevokeClient(l, clientId, now, eventId);
            if SealedRow(l) then t == Failure(RestoreRequired)
            else if clientId !in l.clients then t == Failure(UnknownClient)
            else if l.clients[clientId].status == Closed then t == Success(Committed(l, false))
            else if eventId in l.auditEvents then t == Failure(ConstraintFailed)
            else t.Success? && t.value.value && t.value.ledger != l
  {
    var op := Op.Revoke(clientId, now, eventId);
    if Revokes(l, op) { RevokeCommits(l, op); }
  }

  /** Activation is refused unless the ledger is sealed. */
  lemma ActivateAnswers(l: Ledger, now: int, eventId: Id)
    ensures var t := ActivateRestoredBackup(l, now, eventId);
            if !SealedRow(l) then t == Failure(NotSealed)
            else if eventId in l.auditEvents then t == Failure(ConstraintFailed)
            else t.Success?
  {
  }
}
