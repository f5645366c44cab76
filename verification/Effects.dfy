/** What one step can do to each table, read off the transactions once and used by every later proof. */
module Effects {
  import opened Wrappers
  import opened Verdict
  import opened KeyringCodec
  import opened Schema
  import opened Transactions
  import opened Runs

  // ----- committed transactions -----

  function IssuedRow(op: Op): Proof
    requires op.Issue?
  {
    Restamped(op.record, op.now).(consumedAt := None, consumedBy := None)
  }

  ghost predicate Issues(l: Ledger, op: Op) {
    op.Issue? && Issuing(l, op).Success?
  }

  ghost predicate Decides(l: Ledger, op: Op) {
    op.Verify? && Verifying(l, op).Success? && Verifying(l, op).value.value.origin == Fresh
  }

  ghost function FreshResult(l: Ledger, op: Op): VerificationResult
    requires Decides(l, op)
  {
    Verifying(l, op).value.value.result
  }

  ghost predicate Accepts(l: Ledger, op: Op) {
    Decides(l, op) && FreshResult(l, op).verified
  }

  ghost predicate Rotates(l: Ledger, op: Op) {
    op.Rotate? && Rotating(l, op).Success?
  }

  ghost predicate Creates(l: Ledger, op: Op) {
    op.Create? && Creating(l, op).Success?
  }

  ghost predicate Revokes(l: Ledger, op: Op) {
    && op.Revoke?
    && RevokeClient(l, op.clientId, op.now, op.eventId).Success?
    && RevokeClient(l, op.clientId, op.now, op.eventId).value.value
  }

  ghost predicate Activates(l: Ledger, op: Op) {
    op.Activate? && ActivateRestoredBackup(l, op.now, op.eventId).Success?
  }

  function Registered(l: Ledger, kid: Kid, check: KeyCheck): map<Kid, KeyCheck> {
    if kid in l.hashKeys then l.hashKeys else l.hashKeys[kid := check]
  }

  lemma SlotTaken(l: Ledger, clientId: Id, operation: Operation, limit: Quota, now: int)
    requires ConsumeRateSlot(l, clientId, operation, limit, now).Success?
    ensures ConsumeRateSlot(l, clientId, operation, limit, now).value ==
            l.(rateEvents := Prune(l.rateEvents, now - 60) + [RateEvent(clientId, operation, now)])
  {
  }

  lemma IssueCommits(l: Ledger, op: Op)
    requires Issues(l, op)
    ensures var r, m := op.record, Next(l, op);
            && !Sealed(l)
            && Authorised(l, r.issueCredentialId, r.clientId, Issuance, op.now)
            && op.digest !in l.proofs
            && (forall d :: d in l.proofs ==> l.proofs[d].tag != r.tag)
            && (r.hashKid in l.hashKeys ==> l.hashKeys[r.hashKid] == op.check)
            && m.proofs == l.proofs[op.digest := IssuedRow(op)]
            && m.hashKeys == Registered(l, r.hashKid, op.check)
            && m.rateEvents == Prune(l.rateEvents, op.now - 60) + [RateEvent(r.clientId, IssueSlot, op.now)]
            && op.eventId !in l.auditEvents
            && m.auditEvents == l.auditEvents[op.eventId :=
                 AuditEvent(op.now, ProofIssued, Some(r.clientId), Some(r.issueCredentialId), Some(r.tag), None)]
            && m == l.(proofs := m.proofs, hashKeys := m.hashKeys, rateEvents := m.rateEvents,
                       auditEvents := m.auditEvents)
  {
    hide Next;
    var l1 := RegisterHashKey(l, op.record.hashKid, op.check).value;
    var p := Restamped(op.record, op.now);
    SlotTaken(l1, p.clientId, IssueSlot, l1.clients[p.clientId].issueLimit, op.now);
    NextOfIssue(l, op);
    hide ConsumeRateSlot, Prune, Accepted;
  }

  lemma NextOfIssue(l: Ledger, op: Op)
    requires Issues(l, op)
    ensures Next(l, op) == Issuing(l, op).value.ledger
  {
  }

  lemma CreateCommits(l: Ledger, op: Op)
    requires Creates(l, op)
    ensures var m := Next(l, op);
            && !Sealed(l)
            && op.clientId !in l.clients
            && op.issuanceId !in l.credentials && op.verificationId !in l.credentials
            && op.issuanceId != op.verificationId
            && 1 <= op.ttlSeconds <= 3600 && 1 <= op.issueLimit <= 100_000 && 1 <= op.verifyLimit <= 100_000
            && (op.kid in l.hashKeys ==> l.hashKeys[op.kid] == op.check)
            && m.clients == l.clients[op.clientId :=
                 Client(op.name, Active, op.audiences, op.ttlSeconds, op.issueLimit, op.verifyLimit, op.now, None)]
            && m.credentials == l.credentials
                 [op.issuanceId :=
                   Credential(op.clientId, Issuance, op.kid, op.issuanceDigest, Current, op.now, None, None)]
                 [op.verificationId :=
                   Credential(op.clientId, Role.Verification, op.kid, op.verificationDigest, Current, op.now, None,
                              None)]
            && m.hashKeys == Registered(l, op.kid, op.check)
            && op.eventId !in l.auditEvents
            && m.auditEvents == l.auditEvents[op.eventId :=
                 AuditEvent(op.now, ClientCreated, Some(op.clientId), None, None, None)]
            && m == l.(clients := m.clients, credentials := m.credentials, hashKeys := m.hashKeys,
                       auditEvents := m.auditEvents)
  {
    hide Next, InsertClient, InsertCredential, InsertAudit, RegisterHashKey;
    CreationStatements(l, op);
    NextOfCreation(l, op);
  }

  lemma NextOfCreation(l: Ledger, op: Op)
    requires Creates(l, op)
    ensures Next(l, op) == Creating(l, op).value.ledger
  {
  }

  /** The statements of a committed creation, one after the other. */
  lemma CreationStatements(l: Ledger, op: Op)
    requires Creates(l, op)
    ensures !Sealed(l)
    ensures op.kid in l.hashKeys ==> l.hashKeys[op.kid] == op.check
    ensures op.clientId !in l.clients
    ensures op.issuanceId !in l.credentials && op.verificationId !in l.credentials && op.issuanceId != op.verificationId
    ensures 1 <= op.ttlSeconds <= 3600 && 1 <= op.issueLimit <= 100_000 && 1 <= op.verifyLimit <= 100_000
    ensures op.eventId !in l.auditEvents
    ensures Creating(l, op).value.ledger ==
              l.(clients := l.clients[op.clientId :=
                   Client(op.name, Active, op.audiences, op.ttlSeconds, op.issueLimit, op.verifyLimit, op.now, None)],
                 credentials := l.credentials
                   [op.issuanceId :=
                     Credential(op.clientId, Issuance, op.kid, op.issuanceDigest, Current, op.now, None, None)]
                   [op.verificationId :=
                     Credential(op.clientId, Role.Verification, op.kid, op.verificationDigest, Current, op.now, None,
                                None)],
                 hashKeys := Registered(l, op.kid, op.check),
                 auditEvents := l.auditEvents[op.eventId :=
                   AuditEvent(op.now, ClientCreated, Some(op.clientId), None, None, None)])
  {
  }

  lemma DecisionKeepsRest(l: Ledger, clientId: Id, request: Request, now: int, decisionId: Id)
    ensures var (m, result) := Decide(l, clientId, request, now, decisionId);
            && m == l.(proofs := m.proofs)
            && result.attestation.verificationId == decisionId
    ensures forall events :: Decide(l.(rateEvents := events), clientId, request, now, decisionId).1
                             == Decide(l, clientId, request, now, decisionId).1
                          && Decide(l.(rateEvents := events), clientId, request, now, decisionId).0.proofs
                             == Decide(l, clientId, request, now, decisionId).0.proofs
  {
  }

  lemma DecidedFresh(l: Ledger, op: Op)
    requires Decides(l, op)
    ensures !Sealed(l)
    ensures Authorised(l, op.credentialId, op.clientId, Role.Verification, op.now)
    ensures op.key.Some? ==> KeyedDecision(l, op.clientId, op.key.value).None?
    ensures Verifying(l, op) == DecideFresh(l, op.credentialId, op.clientId, op.request, FingerprintOf(op.request),
                                            op.key, op.now, op.decisionId, op.eventId)
  {
    hide DecideFresh, KeyedDecision, FromDict;
  }

  lemma FreshSteps(l: Ledger, credentialId: Id, clientId: Id, request: Request, fingerprint: Fingerprint,
                   key: Option<string>, now: int, decisionId: Id, eventId: Id)
    requires clientId in l.clients
    requires DecideFresh(l, credentialId, clientId, request, fingerprint, key, now, decisionId, eventId).Success?
    ensures var committed := DecideFresh(l, credentialId, clientId, request, fingerprint, key, now, decisionId,
                                         eventId).value;
            var m, result := committed.ledger, committed.value.result;
            && (m.proofs, result) == (Decide(l, clientId, request, now, decisionId).0.proofs,
                                      Decide(l, clientId, request, now, decisionId).1)
            && committed.value.origin == Fresh
            && decisionId !in l.decisions
            && m.decisions == l.decisions[decisionId :=
                 Decision(clientId, credentialId, result.attestation.proofTag, fingerprint, key, ToDict(result), now)]
            && m.rateEvents == Prune(l.rateEvents, now - 60) + [RateEvent(clientId, VerifySlot, now)]
            && eventId !in l.auditEvents
            && m.auditEvents == l.auditEvents[eventId :=
                 AuditEvent(now, if result.verified then ProofVerified else ProofRejected, Some(clientId),
                            Some(credentialId), result.attestation.proofTag, result.reason)]
            && m == l.(proofs := m.proofs, decisions := m.decisions, rateEvents := m.rateEvents,
                       auditEvents := m.auditEvents)
  {
    var limit := l.clients[clientId].verifyLimit;
    SlotTaken(l, clientId, VerifySlot, limit, now);
    DecisionKeepsRest(l, clientId, request, now, decisionId);
    DecisionKeepsRest(ConsumeRateSlot(l, clientId, VerifySlot, limit, now).value, clientId, request, now, decisionId);
    hide ConsumeRateSlot, Prune, ToDict, Decide;
  }

  lemma DecideCommits(l: Ledger, op: Op)
    requires Decides(l, op)
    ensures var m, result := Next(l, op), FreshResult(l, op);
            && !Sealed(l)
            && Authorised(l, op.credentialId, op.clientId, Role.Verification, op.now)
            && (op.key.Some? ==> KeyedDecision(l, op.clientId, op.key.value).None?)
            && result == Decide(l, op.clientId, op.request, op.now, op.decisionId).1
            && m.proofs == Decide(l, op.clientId, op.request, op.now, op.decisionId).0.proofs
            && op.decisionId !in l.decisions
            && m.decisions == l.decisions[op.decisionId :=
                 Decision(op.clientId, op.credentialId, result.attestation.proofTag, FingerprintOf(op.request),
                          op.key, ToDict(result), op.now)]
            && m.rateEvents == Prune(l.rateEvents, op.now - 60) + [RateEvent(op.clientId, VerifySlot, op.now)]
            && op.eventId !in l.auditEvents
            && m.auditEvents == l.auditEvents[op.eventId :=
                 AuditEvent(op.now, if result.verified then ProofVerified else ProofRejected, Some(op.clientId),
                            Some(op.credentialId), result.attestation.proofTag, result.reason)]
            && m == l.(proofs := m.proofs, decisions := m.decisions, rateEvents := m.rateEvents,
                       auditEvents := m.auditEvents)
  {
    hide ConsumeRateSlot, Prune, Accepted, KeyedDecision, ToDict, FromDict, Decide, DecideFresh;
    DecidedFresh(l, op);
    FreshSteps(l, op.credentialId, op.clientId, op.request, FingerprintOf(op.request), op.key,
               op.now, op.decisionId, op.eventId);
  }

  lemma AcceptCommits(l: Ledger, op: Op)
    requires Accepts(l, op)
    ensures var d := op.request.digest;
            && d in l.proofs
            && var p := l.proofs[d];
               && p.clientId == op.clientId && p.consumedAt.None? && op.now < p.expiresAt && BoundTo(p, op.request)
               && FreshResult(l, op) == AcceptedResult(p, op.decisionId, op.now)
               && Next(l, op).proofs ==
                    l.proofs[d := p.(consumedAt := Some(op.now), consumedBy := Some(op.decisionId))]
  {
    DecideCommits(l, op);
  }

  /** With a slot free, a live and correctly bound proof is accepted from an authorised verifier without a key. */
  lemma AcceptanceSucceeds(l: Ledger, op: Op)
    requires op.Verify? && op.key.None? && !Sealed(l)
    requires Authorised(l, op.credentialId, op.clientId, Role.Verification, op.now)
    requires op.request.digest in l.proofs
    requires var p := l.proofs[op.request.digest];
             p.clientId == op.clientId && p.consumedAt.None? && op.now < p.expiresAt && BoundTo(p, op.request)
    requires op.decisionId !in l.decisions && op.eventId !in l.auditEvents
    requires ConsumeRateSlot(l, op.clientId, VerifySlot, l.clients[op.clientId].verifyLimit, op.now).Success?
    ensures Accepts(l, op)
  {
    hide Prune, Slots, Oldest, KeyedDecision, Accepted, FromDict, ToDict;
    var limit := l.clients[op.clientId].verifyLimit;
    SlotTaken(l, op.clientId, VerifySlot, limit, op.now);
    var l1 := ConsumeRateSlot(l, op.clientId, VerifySlot, limit, op.now).value;
    ConditionalUpdateHits(l1, op.clientId, op.request, op.now, op.decisionId);
  }

  lemma RejectCommits(l: Ledger, op: Op)
    requires Decides(l, op) && !Accepts(l, op)
    ensures Next(l, op).proofs == l.proofs
  {
    DecideCommits(l, op);
  }

  /** A verification that is not freshly decided changes no table. */
  lemma UndecidedChangesNothing(l: Ledger, op: Op)
    requires op.Verify? && !Decides(l, op)
    ensures Next(l, op) == l
  {
  }

  lemma RotateCommits(l: Ledger, op: Op)
    requires Rotates(l, op)
    ensures var m, previous := Next(l, op), Rotating(l, op).value.value.0;
            && !Sealed(l)
            && op.clientId in l.clients && l.clients[op.clientId].status == Active
            && previous in l.credentials && IsCurrent(l.credentials[previous], op.clientId, op.role)
            && op.credentialId !in l.credentials
            && (op.kid in l.hashKeys ==> l.hashKeys[op.kid] == op.check)
            && m.credentials == l.credentials
                 [previous :=
                   l.credentials[previous].(status := Previous, validUntil := Some(op.now + op.graceSeconds))]
                 [op.credentialId :=
                   Credential(op.clientId, op.role, op.kid, op.secretDigest, Current, op.now, None, None)]
            && m.hashKeys == Registered(l, op.kid, op.check)
            && op.eventId !in l.auditEvents
            && m.auditEvents == l.auditEvents[op.eventId :=
                 AuditEvent(op.now, CredentialRotated, Some(op.clientId), Some(op.credentialId), None, None)]
            && m == l.(credentials := m.credentials, hashKeys := m.hashKeys, auditEvents := m.auditEvents)
  {
    hide Creating, Issuing, Verifying, RevokeClient, ActivateRestoredBackup, Cleanup;
  }

  lemma RevokeCommits(l: Ledger, op: Op)
    requires Revokes(l, op)
    ensures var m, closed := Next(l, op), CloseClient(l, op.clientId, op.now);
            && !Sealed(l)
            && op.clientId in l.clients && l.clients[op.clientId].status == Active
            && op.eventId !in l.auditEvents
            && m.auditEvents == l.auditEvents[op.eventId :=
                 AuditEvent(op.now, ClientRevoked, Some(op.clientId), None, None, None)]
            && m == closed.(auditEvents := m.auditEvents)
  {
  }

  lemma ActivateCommits(l: Ledger, op: Op)
    requires Activates(l, op)
    ensures var m := Next(l, op);
            && Sealed(l)
            && op.eventId !in l.auditEvents
            && m.auditEvents == l.auditEvents[op.eventId := AuditEvent(op.now, RestoreActivated, None, None, None,
                                                                       None)]
            && m == Invalidated(l, op.now).(auditEvents := m.auditEvents, restoreRequired := Some(0))
  {
  }

  ghost predicate Commits(l: Ledger, op: Op) {
    || Issues(l, op) || Creates(l, op) || Decides(l, op) || Rotates(l, op) || Revokes(l, op) || Activates(l, op)
    || op.Clean? || op.Seal?
  }

  /** A transaction that fails, or only reads, leaves every table as it was. */
  lemma RollsBack(l: Ledger, op: Op)
    requires !Commits(l, op)
    ensures Next(l, op) == l
  {
    if op.Verify? { UndecidedChangesNothing(l, op); }
  }

  lemma NextOfUpkeep(l: Ledger, op: Op)
    requires op.Clean? || op.Seal?
    ensures Next(l, op) == if op.Clean? then Cleanup(l, op.now) else Snapshot(l)
  {
  }

  // ----- one row at a time -----

  ghost predicate ProofStep(l: Ledger, op: Op, d: TokenDigest) {
    var m := Next(l, op);
    if d !in l.proofs then
      d !in m.proofs || (Issues(l, op) && op.digest == d && m.proofs[d] == IssuedRow(op))
    else if d !in m.proofs then
      op.Clean? && l.proofs[d].expiresAt < op.now - 3_600
    else
      var p, q := l.proofs[d], m.proofs[d];
      || q == p
      || (Accepts(l, op) && op.request.digest == d
          && q == p.(consumedAt := Some(op.now), consumedBy := Some(op.decisionId)))
      || (Revokes(l, op) && op.clientId == p.clientId && q == Lowered(p, op.now))
      || (Activates(l, op) && q == Lowered(p, op.now))
  }

  lemma ProofSteps(l: Ledger, op: Op, d: TokenDigest)
    ensures ProofStep(l, op, d)
  {
    hide Next, Issuing, Creating, Verifying, Rotating, RevokeClient, ActivateRestoredBackup;
    if Issues(l, op) { IssueCommits(l, op); }
    else if Creates(l, op) { CreateCommits(l, op); }
    else if Accepts(l, op) { AcceptCommits(l, op); }
    else if Decides(l, op) { RejectCommits(l, op); }
    else if Rotates(l, op) { RotateCommits(l, op); }
    else if Revokes(l, op) { RevokeCommits(l, op); }
    else if Activates(l, op) { ActivateCommits(l, op); }
    else if op.Clean? || op.Seal? { NextOfUpkeep(l, op); }
    else { RollsBack(l, op); }
  }

  ghost predicate CredentialStep(l: Ledger, op: Op, id: Id) {
    var m := Next(l, op);
    if id !in l.credentials then
      || id !in m.credentials
      || (Creates(l, op) && id in {op.issuanceId, op.verificationId}
          && m.credentials[id].clientId == op.clientId && m.credentials[id].hashKid == op.kid
          && m.credentials[id].status == Current && m.credentials[id].validUntil == None)
      || (Rotates(l, op) && id == op.credentialId
          && m.credentials[id] == Credential(op.clientId, op.role, op.kid, op.secretDigest, Current, op.now, None,
                                             None))
    else if id !in m.credentials then
      op.Clean? && Deletable(l.credentials[id], op.now) && !IssuedSomething(m.proofs, id)
    else
      var c, k := l.credentials[id], m.credentials[id];
      || k == c
      || (Rotates(l, op) && IsCurrent(c, op.clientId, op.role)
          && k == c.(status := Previous, validUntil := Some(op.now + op.graceSeconds)))
      || (Revokes(l, op) && op.clientId == c.clientId && c.status != Revoked && k == RevokedCredential(c, op.now))
      || (Activates(l, op)
          && k == c.(status := Revoked, validUntil := Some(op.now), revokedAt := OrElse(c.revokedAt, op.now)))
  }

  lemma CredentialSteps(l: Ledger, op: Op, id: Id)
    ensures CredentialStep(l, op, id)
  {
    hide Next, Issuing, Creating, Verifying, Rotating, RevokeClient, ActivateRestoredBackup;
    if Issues(l, op) { IssueCommits(l, op); }
    else if Creates(l, op) { CreateCommits(l, op); }
    else if Decides(l, op) { DecideCommits(l, op); }
    else if Rotates(l, op) { RotateCommits(l, op); }
    else if Revokes(l, op) { RevokeCommits(l, op); }
    else if Activates(l, op) { ActivateCommits(l, op); }
    else if op.Clean? || op.Seal? { NextOfUpkeep(l, op); }
    else { RollsBack(l, op); }
  }

  ghost predicate ClientStep(l: Ledger, op: Op, id: Id) {
    var m := Next(l, op);
    if id !in l.clients then
      || id !in m.clients
      || (Creates(l, op) && id == op.clientId && m.clients[id].status == Active
          && m.clients[id].audiences == op.audiences && m.clients[id].ttlSeconds == op.ttlSeconds)
    else
      && id in m.clients
      && var c, k := l.clients[id], m.clients[id];
         || k == c
         || (Revokes(l, op) && op.clientId == id && c.status == Active
             && k == c.(status := Closed, revokedAt := Some(op.now)))
         || (Activates(l, op) && k == c.(status := Closed, revokedAt := OrElse(c.revokedAt, op.now)))
  }

  lemma ClientSteps(l: Ledger, op: Op, id: Id)
    ensures ClientStep(l, op, id)
  {
    hide Next, Issuing, Creating, Verifying, Rotating, RevokeClient, ActivateRestoredBackup;
    if Issues(l, op) { IssueCommits(l, op); }
    else if Creates(l, op) { CreateCommits(l, op); }
    else if Decides(l, op) { DecideCommits(l, op); }
    else if Rotates(l, op) { RotateCommits(l, op); }
    else if Revokes(l, op) { RevokeCommits(l, op); }
    else if Activates(l, op) { ActivateCommits(l, op); }
    else if op.Clean? || op.Seal? { NextOfUpkeep(l, op); }
    else { RollsBack(l, op); }
  }

  ghost predicate DecisionStep(l: Ledger, op: Op, id: Id) {
    var m := Next(l, op);
    if id !in l.decisions then
      || id !in m.decisions
      || (Decides(l, op) && id == op.decisionId
          && m.decisions[id] == Decision(op.clientId, op.credentialId, FreshResult(l, op).attestation.proofTag,
                                         FingerprintOf(op.request), op.key, ToDict(FreshResult(l, op)), op.now))
    else if id !in m.decisions then
      op.Clean? && l.decisions[id].createdAt < op.now - 86_400
    else
      m.decisions[id] == l.decisions[id]
  }

  lemma DecisionSteps(l: Ledger, op: Op, id: Id)
    ensures DecisionStep(l, op, id)
  {
    hide Next, Issuing, Creating, Verifying, Rotating, RevokeClient, ActivateRestoredBackup;
    if Issues(l, op) { IssueCommits(l, op); }
    else if Creates(l, op) { CreateCommits(l, op); }
    else if Decides(l, op) { DecideCommits(l, op); }
    else if Rotates(l, op) { RotateCommits(l, op); }
    else if Revokes(l, op) { RevokeCommits(l, op); }
    else if Activates(l, op) { ActivateCommits(l, op); }
    else if op.Clean? || op.Seal? { NextOfUpkeep(l, op); }
    else { RollsBack(l, op); }
  }

  function Earlier(a: int, b: int): int {
    if a < b then a else b
  }

  /** Row by row, a revocation: the client's own rows lose their authority and every other row stays. */
  lemma RevocationReaches(l: Ledger, op: Op)
    requires Revokes(l, op)
    ensures var m := Next(l, op);
            && m.clients.Keys == l.clients.Keys && m.credentials.Keys == l.credentials.Keys
            && m.proofs.Keys == l.proofs.Keys && m.decisions == l.decisions
            && m.rateEvents == l.rateEvents && m.hashKeys == l.hashKeys
    ensures forall id :: id in l.clients ==>
              Next(l, op).clients[id] ==
              if id == op.clientId then l.clients[id].(status := Closed, revokedAt := Some(op.now)) else l.clients[id]
    ensures forall id :: id in l.credentials ==>
              var c, k := l.credentials[id], Next(l, op).credentials[id];
              if c.clientId == op.clientId && c.status != Revoked
              then k == c.(status := Revoked, validUntil := Some(op.now), revokedAt := Some(op.now))
              else k == c
    ensures forall d :: d in l.proofs ==>
              var p := l.proofs[d];
              Next(l, op).proofs[d] ==
              if p.clientId == op.clientId && p.consumedAt.None?
              then p.(expiresAt := Earlier(p.expiresAt, op.now)) else p
  {
    RevokeCommits(l, op);
    hide Next, Revokes;
  }

  /** Row by row, an activation: nobody's credential is accepted and no proof can be consumed any more. */
  lemma ActivationReaches(l: Ledger, op: Op)
    requires Activates(l, op)
    ensures var m := Next(l, op);
            && m.clients.Keys == l.clients.Keys && m.credentials.Keys == l.credentials.Keys
            && m.proofs.Keys == l.proofs.Keys && m.decisions == l.decisions
            && m.rateEvents == [] && m.hashKeys == l.hashKeys && !Sealed(m)
    ensures forall id :: id in l.clients ==>
              var c, k := l.clients[id], Next(l, op).clients[id];
              && k == c.(status := Closed, revokedAt := k.revokedAt)
              && k.revokedAt == (if c.revokedAt.Some? then c.revokedAt else Some(op.now))
    ensures forall id, now :: id in l.credentials ==> !Accepted(Next(l, op).credentials[id], now)
    ensures forall id :: id in l.credentials ==>
              var c, k := l.credentials[id], Next(l, op).credentials[id];
              && k == c.(status := Revoked, validUntil := Some(op.now), revokedAt := k.revokedAt)
              && k.revokedAt == (if c.revokedAt.Some? then c.revokedAt else Some(op.now))
    ensures forall d, now :: now >= op.now ==> !Updatable(Next(l, op), d, now)
    ensures forall d :: d in l.proofs ==>
              var p := l.proofs[d];
              Next(l, op).proofs[d] ==
              if p.consumedAt.None? then p.(expiresAt := Earlier(p.expiresAt, op.now)) else p
  {
    ActivateCommits(l, op);
    hide Next, Activates;
  }

  /** Only a backup seals a ledger, and only activation opens it again. */
  lemma SealSteps(l: Ledger, op: Op)
    ensures Sealed(Next(l, op)) <==> op.Seal? || (Sealed(l) && !Activates(l, op))
  {
    if Issues(l, op) { IssueCommits(l, op); }
    else if Creates(l, op) { CreateCommits(l, op); }
    else if Decides(l, op) { DecideCommits(l, op); }
    else if Rotates(l, op) { RotateCommits(l, op); }
    else if Revokes(l, op) { RevokeCommits(l, op); }
    else if Activates(l, op) { ActivateCommits(l, op); }
    else if !op.Clean? && !op.Seal? { RollsBack(l, op); }
  }

  /** While sealed, nothing is issued, decided, created, rotated or revoked. */
  lemma SealedRefuses(l: Ledger, op: Op)
    requires Sealed(l)
    ensures !Issues(l, op) && !Decides(l, op) && !Creates(l, op) && !Rotates(l, op) && !Revokes(l, op)
    ensures op.Issue? || op.Verify? || op.Create? || op.Rotate? || op.Revoke? ==>
              ReplyOf(l, op) == Failed(RestoreRequired) && Next(l, op) == l
  {
  }
}
