/**
 * The ledger as the code drives it: statements on tables inside a transaction that an exception may cut short
 * anywhere (src/onceproof/store.py:357-1188). Each method is proved to do all of its transaction or none of it.
 */
module Store {
  import opened Wrappers
  import opened Verdict
  import opened KeyringCodec
  import opened Schema
  import opened Transactions

  /** The body of a `with self._write()` block: done, or failed and about to be rolled back. */
  ghost predicate Attempted<T>(after: Ledger, t: Transaction<T>, r: Result<T, Error>) {
    if r.Success? then t == Success(Committed(after, r.value))
    else r.error == Interrupted || t == Failure(r.error)
  }

  /**
   * What a caller finds. Unless interrupted, the reply and the tables are those of the transaction; an exception
   * raised between two statements, or after COMMIT, leaves the tables of before or of the whole transaction.
   */
  ghost predicate AllOrNothing<T>(before: Ledger, after: Ledger, t: Transaction<T>, r: Result<T, Error>) {
    if r == Failure(Interrupted) then after == before || after == LedgerAfter(before, t)
    else
      && after == LedgerAfter(before, t)
      && r == if t.Success? then Success(t.value.value) else Failure(t.error)
  }

  datatype RowCounts = RowCounts(proofs: nat, credentials: nat, decisions: nat, auditEvents: nat, rateEvents: nat)

  class Store {
    var clients: map<Id, Client>
    var credentials: map<Id, Credential>
    var proofs: map<TokenDigest, Proof>
    var decisions: map<Id, Decision>
    var auditEvents: map<Id, AuditEvent>
    var rateEvents: seq<RateEvent>
    var hashKeys: map<Kid, KeyCheck>
    var lastCleanupAt: Option<int>
    var restoreRequired: Option<int>

    function Tables(): Ledger
      reads this
    {
      Ledger(clients, credentials, proofs, decisions, auditEvents, rateEvents, hashKeys, lastCleanupAt, restoreRequired)
    }

    /** The two unique partial indexes. */
    ghost predicate Valid()
      reads this`credentials, this`decisions
    {
      UniqueCurrent(credentials) && UniqueKeys(decisions)
    }

    constructor ()
      ensures Valid() && Tables() == EMPTY
    {
      clients, credentials, proofs, decisions, auditEvents := map[], map[], map[], map[], map[];
      rateEvents, hashKeys, lastCleanupAt, restoreRequired := [], map[], None, None;
    }

    /** A store opened on a backup snapshot. */
    constructor Open(snapshot: Ledger)
      requires UniqueCurrent(snapshot.credentials) && UniqueKeys(snapshot.decisions)
      ensures Valid() && Tables() == snapshot
    {
      clients, credentials, proofs := snapshot.clients, snapshot.credentials, snapshot.proofs;
      decisions, auditEvents, rateEvents := snapshot.decisions, snapshot.auditEvents, snapshot.rateEvents;
      hashKeys, lastCleanupAt, restoreRequired := snapshot.hashKeys, snapshot.lastCleanupAt, snapshot.restoreRequired;
    }

    method Rollback(saved: Ledger)
      modifies this
      ensures Tables() == saved
    {
      clients, credentials, proofs := saved.clients, saved.credentials, saved.proofs;
      decisions, auditEvents, rateEvents := saved.decisions, saved.auditEvents, saved.rateEvents;
      hashKeys, lastCleanupAt, restoreRequired := saved.hashKeys, saved.lastCleanupAt, saved.restoreRequired;
    }

    // ----- statements shared by transactions; None means success -----

    method RegisterHashKey(kid: Kid, check: KeyCheck) returns (failure: Option<Error>)
      modifies this`hashKeys
      ensures Outcome(failure, old(Tables()), Tables(), Schema.RegisterHashKey(old(Tables()), kid, check))
    {
      if kid !in hashKeys {
        hashKeys := hashKeys[kid := check];
        return None;
      }
      if hashKeys[kid] != check {
        return Some(Corrupt);
      }
      return None;
    }

    /** A failing statement may leave the tables half way; the transaction then rolls back. */
    static ghost predicate Outcome(failure: Option<Error>, before: Ledger, after: Ledger, s: Result<Ledger, Error>) {
      match failure
      case None => s == Success(after)
      case Some(e) => s == Failure(e)
    }

    method InsertCredential(c: NewCredential, now: int) returns (failure: Option<Error>)
      requires Valid()
      modifies this`credentials
      ensures failure.None? ==> Valid()
      ensures Outcome(failure, old(Tables()), Tables(), Schema.InsertCredential(old(Tables()), c, now))
    {
      if c.credentialId in credentials || c.clientId !in clients
         || exists id | id in credentials :: IsCurrent(credentials[id], c.clientId, c.role)
      {
        return Some(ConstraintFailed);
      }
      credentials := credentials[c.credentialId :=
        Credential(c.clientId, c.role, c.hashKid, c.secretDigest, Current, now, None, None)];
      return None;
    }

    method MarkPrevious(credentialId: Id, validUntil: int)
      requires Valid() && credentialId in credentials
      modifies this`credentials
      ensures Valid()
      ensures Tables() == Supersede(old(Tables()), credentialId, validUntil)
    {
      credentials := credentials[credentialId :=
        credentials[credentialId].(status := Previous, validUntil := Some(validUntil))];
      FewerCurrent(old(credentials), credentials);
    }

    method InsertProof(digest: TokenDigest, p: Proof) returns (failure: Option<Error>)
      modifies this`proofs
      ensures Outcome(failure, old(Tables()), Tables(), Schema.InsertProof(old(Tables()), digest, p))
    {
      if digest in proofs || (exists d | d in proofs :: proofs[d].tag == p.tag)
         || p.clientId !in clients || p.issueCredentialId !in credentials
      {
        return Some(ConstraintFailed);
      }
      proofs := proofs[digest := p.(consumedAt := None, consumedBy := None)];
      return None;
    }

    method InsertAudit(eventId: Id, e: AuditEvent) returns (failure: Option<Error>)
      modifies this`auditEvents
      ensures Outcome(failure, old(Tables()), Tables(), Schema.InsertAudit(old(Tables()), eventId, e))
    {
      if eventId in auditEvents {
        return Some(ConstraintFailed);
      }
      auditEvents := auditEvents[eventId := e];
      return None;
    }

    method ConsumeRateSlot(clientId: Id, operation: Operation, limit: Quota, now: int) returns (failure: Option<Error>)
      modifies this`rateEvents
      ensures Outcome(failure, old(Tables()), Tables(),
                      Schema.ConsumeRateSlot(old(Tables()), clientId, operation, limit, now))
    {
      var cutoff := now - 60;
      rateEvents := Prune(rateEvents, cutoff);
      var slots := Slots(rateEvents, clientId, operation, cutoff);
      if |slots| >= limit {
        return Some(RateLimited(Clamp(Oldest(slots) + 60 - now)));
      }
      rateEvents := rateEvents + [RateEvent(clientId, operation, now)];
      return None;
    }

    /** Reads through the index on client and idempotency key. */
    method FindDecision(clientId: Id, key: string) returns (found: Option<Id>)
      requires Valid()
      ensures found == KeyedDecision(Tables(), clientId, key)
    {
      var rest := decisions.Keys;
      while rest != {}
        invariant rest <= decisions.Keys
        invariant forall id :: id in decisions && id !in rest ==> !HoldsKey(decisions[id], clientId, key)
        decreases rest
      {
        var id :| id in rest;
        if HoldsKey(decisions[id], clientId, key) {
          return Some(id);
        }
        rest := rest - {id};
      }
      return None;
    }

    method FindCurrent(clientId: Id, role: Role) returns (found: Option<Id>)
      requires Valid()
      ensures found == CurrentCredential(Tables(), clientId, role)
    {
      var rest := credentials.Keys;
      while rest != {}
        invariant rest <= credentials.Keys
        invariant forall id :: id in credentials && id !in rest ==> !IsCurrent(credentials[id], clientId, role)
        decreases rest
      {
        var id :| id in rest;
        if IsCurrent(credentials[id], clientId, role) {
          return Some(id);
        }
        rest := rest - {id};
      }
      return None;
    }

    method IdempotentResult(clientId: Id, key: Option<string>, fingerprint: Fingerprint)
      returns (r: Result<Option<VerificationResult>, Error>)
      requires Valid()
      ensures r == Transactions.IdempotentResult(Tables(), clientId, key, fingerprint)
    {
      if key.None? {
        return Success(None);
      }
      var id := FindDecision(clientId, key.value);
      if id.None? {
        return Success(None);
      }
      var row := decisions[id.value];
      if row.fingerprint != fingerprint {
        return Failure(IdempotencyConflict);
      }
      var decoded := FromDict(row.resultJson);
      if decoded.Failure? {
        return Failure(Corrupt);
      }
      return Success(Some(decoded.value));
    }

    // ----- transactions -----

    method CreateClientBody(clientId: Id, name: string, audiences: seq<string>, ttlSeconds: int, issueLimit: int,
                            verifyLimit: int, issuance: NewCredential, verification: NewCredential, check: KeyCheck,
                            now: int, eventId: Id) returns (r: Result<(), Error>)
      requires Valid()
      modifies this
      ensures Attempted(Tables(),
                        Transactions.CreateClient(old(Tables()), clientId, name, audiences, ttlSeconds, issueLimit,
                                                  verifyLimit, issuance, verification, check, now, eventId), r)
      ensures r.Success? ==> Valid()
    {
      if Sealed(Tables()) { return Failure(RestoreRequired); }
      if issuance.hashKid != verification.hashKid { return Failure(KeyMismatch); }
      var failure := RegisterHashKey(issuance.hashKid, check);
      if failure.Some? { return Failure(failure.value); }
      if * { return Failure(Interrupted); }
      if clientId in clients
         || !(1 <= ttlSeconds <= 3600 && 1 <= issueLimit <= 100_000 && 1 <= verifyLimit <= 100_000)
      {
        return Failure(ConstraintFailed);
      }
      clients := clients[clientId := Client(name, Active, audiences, ttlSeconds, issueLimit, verifyLimit, now, None)];
      if * { return Failure(Interrupted); }
      failure := InsertCredential(issuance, now);
      if failure.Some? { return Failure(failure.value); }
      if * { return Failure(Interrupted); }
      failure := InsertCredential(verification, now);
      if failure.Some? { return Failure(failure.value); }
      if * { return Failure(Interrupted); }
      failure := InsertAudit(eventId, AuditEvent(now, ClientCreated, Some(clientId), None, None, None));
      if failure.Some? { return Failure(failure.value); }
      if * { return Failure(Interrupted); }
      return Success(());
    }

    method CreateClient(clientId: Id, name: string, audiences: seq<string>, ttlSeconds: int, issueLimit: int,
                        verifyLimit: int, issuance: NewCredential, verification: NewCredential, check: KeyCheck,
                        now: int, eventId: Id) returns (r: Result<(), Error>)
      requires Valid()
      modifies this
      ensures Valid()
      ensures AllOrNothing(old(Tables()), Tables(),
                           Transactions.CreateClient(old(Tables()), clientId, name, audiences, ttlSeconds, issueLimit,
                                                  verifyLimit, issuance, verification, check, now, eventId), r)
    {
      var saved := Tables();
      r := CreateClientBody(clientId, name, audiences, ttlSeconds, issueLimit, verifyLimit, issuance, verification,
                            check, now, eventId);
      if r.Failure? {
        Rollback(saved);
      } else if * {
        r := Failure(Interrupted);
      }
    }

    method IssueProofBody(digest: TokenDigest, record: Proof, check: KeyCheck, now: int, eventId: Id)
      returns (r: Result<Proof, Error>)
      requires Valid()
      modifies this
      ensures Attempted(Tables(),
                        Transactions.IssueProof(old(Tables()), digest, record, check, now, eventId), r)
      ensures r.Success? ==> Valid()
    {
      hide Prune, Slots, Oldest, Clamp, Accepted, Schema.ConsumeRateSlot, Schema.InsertProof, Schema.InsertAudit;
      hide Schema.RegisterHashKey, UniqueCurrent, UniqueKeys;
      if Sealed(Tables()) { return Failure(RestoreRequired); }
      var failure := RegisterHashKey(record.hashKid, check);
      if failure.Some? { return Failure(failure.value); }
      if * { return Failure(Interrupted); }
      var p := record.(issuedAt := now, expiresAt := now + (record.expiresAt - record.issuedAt));
      if !Authorised(Tables(), p.issueCredentialId, p.clientId, Issuance, now) {
        return Failure(PermissionDenied);
      }
      failure := ConsumeRateSlot(p.clientId, IssueSlot, clients[p.clientId].issueLimit, now);
      if failure.Some? { return Failure(failure.value); }
      if * { return Failure(Interrupted); }
      failure := InsertProof(digest, p);
      if failure.Some? { return Failure(failure.value); }
      if * { return Failure(Interrupted); }
      failure := InsertAudit(eventId,
        AuditEvent(now, ProofIssued, Some(p.clientId), Some(p.issueCredentialId), Some(p.tag), None));
      if failure.Some? { return Failure(failure.value); }
      if * { return Failure(Interrupted); }
      return Success(p);
    }

    method IssueProof(digest: TokenDigest, record: Proof, check: KeyCheck, now: int, eventId: Id)
      returns (r: Result<Proof, Error>)
      requires Valid()
      modifies this
      ensures Valid()
      ensures AllOrNothing(old(Tables()), Tables(),
                           Transactions.IssueProof(old(Tables()), digest, record, check, now, eventId), r)
    {
      var saved := Tables();
      r := IssueProofBody(digest, record, check, now, eventId);
      if r.Failure? {
        Rollback(saved);
      } else if * {
        r := Failure(Interrupted);
      }
    }

    /** The SELECT, the checks and the conditional UPDATE of a decision. */
    method DecideProof(clientId: Id, request: Request, now: int, decisionId: Id) returns (result: VerificationResult)
      modifies this`proofs
      ensures (Tables(), result) == Decide(old(Tables()), clientId, request, now, decisionId)
    {
      var digest := request.digest;
      if digest !in proofs || proofs[digest].clientId != clientId {
        return RejectedResult(Invalid, decisionId, None, Some(clientId), now);
      }
      var p := proofs[digest];
      if p.consumedAt.Some? {
        return RejectedResult(AlreadyConsumed, decisionId, Some(p.tag), Some(clientId), now);
      }
      if now >= p.expiresAt {
        return RejectedResult(Expired, decisionId, Some(p.tag), Some(clientId), now);
      }
      if p.purpose != request.purpose || p.audience != request.audience || p.subject != request.subject {
        return RejectedResult(BindingMismatch, decisionId, Some(p.tag), Some(clientId), now);
      }
      var updated := 0;
      if proofs[digest].consumedAt.None? && proofs[digest].expiresAt > now {
        proofs := proofs[digest := proofs[digest].(consumedAt := Some(now), consumedBy := Some(decisionId))];
        updated := 1;
      }
      if updated == 1 {
        return AcceptedResult(p, decisionId, now);
      }
      return RejectedResult(AlreadyConsumed, decisionId, Some(p.tag), Some(clientId), now);
    }

    method InsertDecision(decisionId: Id, d: Decision) returns (failure: Option<Error>)
      requires Valid()
      modifies this`decisions
      ensures failure.None? ==> Valid()
      ensures Outcome(failure, old(Tables()), Tables(), Schema.InsertDecision(old(Tables()), decisionId, d))
    {
      if decisionId in decisions
         || (d.idempotencyKey.Some?
             && exists id | id in decisions :: HoldsKey(decisions[id], d.clientId, d.idempotencyKey.value))
      {
        return Some(ConstraintFailed);
      }
      decisions := decisions[decisionId := d];
      return None;
    }

    method DecideFresh(credentialId: Id, clientId: Id, request: Request, fingerprint: Fingerprint,
                       key: Option<string>, now: int, decisionId: Id, eventId: Id) returns (r: Result<Answer, Error>)
      requires Valid() && clientId in clients
      modifies this
      ensures Attempted(Tables(),
                        Transactions.DecideFresh(old(Tables()), credentialId, clientId, request, fingerprint, key,
                                                 now, decisionId, eventId), r)
      ensures r.Success? ==> Valid()
    {
      hide ToDict, Prune, Slots, Oldest, Clamp, Schema.ConsumeRateSlot, Schema.InsertDecision, Schema.InsertAudit;
      var failure := ConsumeRateSlot(clientId, VerifySlot, clients[clientId].verifyLimit, now);
      if failure.Some? { return Failure(failure.value); }
      if * { return Failure(Interrupted); }
      var result := DecideProof(clientId, request, now, decisionId);
      if * { return Failure(Interrupted); }
      var tag := result.attestation.proofTag;
      failure := InsertDecision(result.attestation.verificationId,
        Decision(clientId, credentialId, tag, fingerprint, key, ToDict(result), now));
      if failure.Some? { return Failure(failure.value); }
      if * { return Failure(Interrupted); }
      failure := InsertAudit(eventId,
        AuditEvent(now, if result.verified then ProofVerified else ProofRejected,
                   Some(clientId), Some(credentialId), tag, result.reason));
      if failure.Some? { return Failure(failure.value); }
      if * { return Failure(Interrupted); }
      return Success(Answer(result, Fresh));
    }

    method ConsumeProofBody(credentialId: Id, clientId: Id, request: Request, fingerprint: Fingerprint,
                            key: Option<string>, now: int, decisionId: Id, eventId: Id)
      returns (r: Result<Answer, Error>)
      requires Valid()
      modifies this
      ensures Attempted(Tables(),
                        Transactions.ConsumeProof(old(Tables()), credentialId, clientId, request, fingerprint, key,
                                                  now, decisionId, eventId), r)
      ensures r.Success? ==> Valid()
    {
      if Sealed(Tables()) { return Failure(RestoreRequired); }
      if !Authorised(Tables(), credentialId, clientId, Role.Verification, now) {
        return Success(Answer(RejectedResult(CredentialRejected, decisionId, None, None, now), Unauthenticated));
      }
      var cached := IdempotentResult(clientId, key, fingerprint);
      if cached.Failure? { return Failure(cached.error); }
      if cached.value.Some? { return Success(Answer(cached.value.value, Replayed)); }
      r := DecideFresh(credentialId, clientId, request, fingerprint, key, now, decisionId, eventId);
    }

    method ConsumeProof(credentialId: Id, clientId: Id, request: Request, fingerprint: Fingerprint,
                        key: Option<string>, now: int, decisionId: Id, eventId: Id) returns (r: Result<Answer, Error>)
      requires Valid()
      modifies this
      ensures Valid()
      ensures AllOrNothing(old(Tables()), Tables(),
                           Transactions.ConsumeProof(old(Tables()), credentialId, clientId, request, fingerprint, key,
                                                     now, decisionId, eventId), r)
    {
      var saved := Tables();
      r := ConsumeProofBody(credentialId, clientId, request, fingerprint, key, now, decisionId, eventId);
      if r.Failure? {
        Rollback(saved);
      } else if * {
        r := Failure(Interrupted);
      }
    }

    /** The lookup before the lock; it changes nothing. */
    method CachedVerification(credentialId: Id, clientId: Id, fingerprint: Fingerprint, key: Option<string>, now: int)
      returns (r: Result<Option<VerificationResult>, Error>)
      requires Valid()
      ensures r == Transactions.CachedVerification(Tables(), credentialId, clientId, fingerprint, key, now)
    {
      if key.None? { return Success(None); }
      if Sealed(Tables()) { return Failure(RestoreRequired); }
      if !Authorised(Tables(), credentialId, clientId, Role.Verification, now) { return Success(None); }
      r := IdempotentResult(clientId, key, fingerprint);
    }

    method RotateCredentialBody(clientId: Id, role: Role, replacement: NewCredential, check: KeyCheck,
                                graceSeconds: int, now: int, eventId: Id) returns (r: Result<(Id, int), Error>)
      requires Valid()
      modifies this
      ensures Attempted(Tables(),
                        Transactions.RotateCredential(old(Tables()), clientId, role, replacement, check,
                                                      graceSeconds, now, eventId), r)
      ensures r.Success? ==> Valid()
    {
      hide IsCurrent, Schema.InsertCredential, Schema.InsertAudit, Schema.RegisterHashKey, UniqueCurrent, UniqueKeys;
      var previousValidUntil := now + graceSeconds;
      if Sealed(Tables()) { return Failure(RestoreRequired); }
      var failure := RegisterHashKey(replacement.hashKid, check);
      if failure.Some? { return Failure(failure.value); }
      if * { return Failure(Interrupted); }
      if clientId !in clients { return Failure(UnknownClient); }
      if clients[clientId].status != Active { return Failure(ClientIsRevoked); }
      var current := FindCurrent(clientId, role);
      if current.None? { return Failure(CurrentMissing); }
      var previousId := current.value;
      MarkPrevious(previousId, previousValidUntil);
      if * { return Failure(Interrupted); }
      failure := InsertCredential(replacement, now);
      if failure.Some? { return Failure(failure.value); }
      if * { return Failure(Interrupted); }
      failure := InsertAudit(eventId,
        AuditEvent(now, CredentialRotated, Some(clientId), Some(replacement.credentialId), None, None));
      if failure.Some? { return Failure(failure.value); }
      if * { return Failure(Interrupted); }
      return Success((previousId, previousValidUntil));
    }

    method RotateCredential(clientId: Id, role: Role, replacement: NewCredential, check: KeyCheck, graceSeconds: int,
                            now: int, eventId: Id) returns (r: Result<(Id, int), Error>)
      requires Valid()
      modifies this
      ensures Valid()
      ensures AllOrNothing(old(Tables()), Tables(),
                           Transactions.RotateCredential(old(Tables()), clientId, role, replacement, check,
                                                      graceSeconds, now, eventId), r)
    {
      var saved := Tables();
      r := RotateCredentialBody(clientId, role, replacement, check, graceSeconds, now, eventId);
      if r.Failure? {
        Rollback(saved);
      } else if * {
        r := Failure(Interrupted);
      }
    }

    method RevokeClientBody(clientId: Id, now: int, eventId: Id) returns (r: Result<bool, Error>)
      requires Valid()
      modifies this
      ensures Attempted(Tables(),
                        Transactions.RevokeClient(old(Tables()), clientId, now, eventId), r)
      ensures r.Success? ==> Valid()
    {
      if Sealed(Tables()) { return Failure(RestoreRequired); }
      if clientId !in clients { return Failure(UnknownClient); }
      if clients[clientId].status == Closed { return Success(false); }
      clients := clients[clientId := clients[clientId].(status := Closed, revokedAt := Some(now))];
      if * { return Failure(Interrupted); }
      credentials := RevokedOf(credentials, clientId, now);
      FewerCurrent(old(credentials), credentials);
      if * { return Failure(Interrupted); }
      proofs := LoweredOf(proofs, clientId, now);
      if * { return Failure(Interrupted); }
      var failure := InsertAudit(eventId, AuditEvent(now, ClientRevoked, Some(clientId), None, None, None));
      if failure.Some? { return Failure(failure.value); }
      if * { return Failure(Interrupted); }
      return Success(true);
    }

    method RevokeClient(clientId: Id, now: int, eventId: Id) returns (r: Result<bool, Error>)
      requires Valid()
      modifies this
      ensures Valid()
      ensures AllOrNothing(old(Tables()), Tables(), Transactions.RevokeClient(old(Tables()), clientId, now, eventId), r)
    {
      var saved := Tables();
      r := RevokeClientBody(clientId, now, eventId);
      if r.Failure? {
        Rollback(saved);
      } else if * {
        r := Failure(Interrupted);
      }
    }

    method DeleteProofs(now: int) returns (rowCount: nat)
      modifies this`proofs
      ensures proofs == RetainedProofs(old(proofs), now) && rowCount == |old(proofs)| - |proofs|
    {
      SubsetIsSmaller(RetainedProofs(proofs, now).Keys, proofs.Keys);
      rowCount := |proofs| - |RetainedProofs(proofs, now)|;
      proofs := RetainedProofs(proofs, now);
    }

    method DeleteCredentials(now: int) returns (rowCount: nat)
      modifies this`credentials
      ensures credentials == RetainedCredentials(old(credentials), proofs, now)
      ensures rowCount == |old(credentials)| - |credentials|
    {
      SubsetIsSmaller(RetainedCredentials(credentials, proofs, now).Keys, credentials.Keys);
      rowCount := |credentials| - |RetainedCredentials(credentials, proofs, now)|;
      credentials := RetainedCredentials(credentials, proofs, now);
    }

    method DeleteDecisions(now: int) returns (rowCount: nat)
      modifies this`decisions
      ensures decisions == RetainedDecisions(old(decisions), now) && rowCount == |old(decisions)| - |decisions|
    {
      SubsetIsSmaller(RetainedDecisions(decisions, now).Keys, decisions.Keys);
      rowCount := |decisions| - |RetainedDecisions(decisions, now)|;
      decisions := RetainedDecisions(decisions, now);
    }

    method DeleteAuditEvents(now: int) returns (rowCount: nat)
      modifies this`auditEvents
      ensures auditEvents == RetainedAudit(old(auditEvents), now) && rowCount == |old(auditEvents)| - |auditEvents|
    {
      SubsetIsSmaller(RetainedAudit(auditEvents, now).Keys, auditEvents.Keys);
      rowCount := |auditEvents| - |RetainedAudit(auditEvents, now)|;
      auditEvents := RetainedAudit(auditEvents, now);
    }

    method DeleteRateEvents(cutoff: int) returns (rowCount: nat)
      modifies this`rateEvents
      ensures rateEvents == Prune(old(rateEvents), cutoff) && rowCount == |old(rateEvents)| - |rateEvents|
    {
      PruneShortens(rateEvents, cutoff);
      rowCount := |rateEvents| - |Prune(rateEvents, cutoff)|;
      rateEvents := Prune(rateEvents, cutoff);
    }

    method CleanBody(now: int) returns (r: Result<RowCounts, Error>)
      requires Valid()
      modifies this
      ensures r.Success? ==> Valid() && Tables() == Cleanup(old(Tables()), now)
      ensures r.Success? ==> r.value == Removed(old(Tables()), now)
      ensures r.Failure? ==> r.error == Interrupted
    {
      hide Prune, RetainedProofs, RetainedCredentials, RetainedDecisions, RetainedAudit, UniqueCurrent, UniqueKeys;
      hide Cleanup, Removed;
      ghost var l := Tables();
      var proofCount := DeleteProofs(now);
      if * { return Failure(Interrupted); }
      var credentialCount := DeleteCredentials(now);
      if * { return Failure(Interrupted); }
      var decisionCount := DeleteDecisions(now);
      if * { return Failure(Interrupted); }
      var auditCount := DeleteAuditEvents(now);
      if * { return Failure(Interrupted); }
      var rateCount := DeleteRateEvents(now - 60);
      if * { return Failure(Interrupted); }
      lastCleanupAt := Some(now);
      StatementsCleanUp(l, Tables(), now);
      CleanupKeepsIndexes(l, now);
      return Success(RowCounts(proofCount, credentialCount, decisionCount, auditCount, rateCount));
    }

    method Clean(now: int) returns (r: Result<RowCounts, Error>)
      requires Valid()
      modifies this
      ensures Valid()
      ensures AllOrNothing(old(Tables()), Tables(),
                           Success(Committed(Cleanup(old(Tables()), now), Removed(old(Tables()), now))), r)
      ensures r.Success? ==>
                r.value == RowCounts(|old(proofs)| - |proofs|, |old(credentials)| - |credentials|,
                                     |old(decisions)| - |decisions|, |old(auditEvents)| - |auditEvents|,
                                     |old(rateEvents)| - |rateEvents|)
    {
      var saved := Tables();
      r := CleanBody(now);
      if r.Failure? {
        Rollback(saved);
      } else if * {
        r := Failure(Interrupted);
      }
    }

    /** The new file's tables, or no file at all when copying failed; the store itself is only read. */
    method Backup() returns (r: Result<Ledger, Error>)
      ensures r.Success? ==> r.value == Snapshot(Tables())
      ensures r.Success? ==>
                && r.value.clients == clients && r.value.credentials == credentials && r.value.proofs == proofs
                && r.value.decisions == decisions && r.value.auditEvents == auditEvents
                && r.value.rateEvents == rateEvents && r.value.hashKeys == hashKeys
                && r.value.lastCleanupAt == lastCleanupAt && r.value.restoreRequired == Some(1)
      ensures r.Failure? ==> r.error == Interrupted
    {
      if * { return Failure(Interrupted); }
      var snapshot := Tables();
      if * { return Failure(Interrupted); }
      snapshot := snapshot.(restoreRequired := Some(1));
      if * { return Failure(Interrupted); }
      return Success(snapshot);
    }

    method ActivateRestoredBackupBody(now: int, eventId: Id) returns (r: Result<(), Error>)
      requires Valid()
      modifies this
      ensures Attempted(Tables(),
                        Transactions.ActivateRestoredBackup(old(Tables()), now, eventId), r)
      ensures r.Success? ==> Valid()
    {
      if !Sealed(Tables()) { return Failure(NotSealed); }
      clients := ClosedClients(clients, now);
      if * { return Failure(Interrupted); }
      credentials := AllRevoked(credentials, now);
      FewerCurrent(old(credentials), credentials);
      if * { return Failure(Interrupted); }
      proofs := AllLowered(proofs, now);
      if * { return Failure(Interrupted); }
      rateEvents := [];
      if * { return Failure(Interrupted); }
      var failure := InsertAudit(eventId, AuditEvent(now, RestoreActivated, None, None, None, None));
      if failure.Some? { return Failure(failure.value); }
      if * { return Failure(Interrupted); }
      restoreRequired := Some(0);
      if * { return Failure(Interrupted); }
      return Success(());
    }

    method ActivateRestoredBackup(now: int, eventId: Id) returns (r: Result<(), Error>)
      requires Valid()
      modifies this
      ensures Valid()
      ensures AllOrNothing(old(Tables()), Tables(),
                           Transactions.ActivateRestoredBackup(old(Tables()), now, eventId), r)
    {
      var saved := Tables();
      r := ActivateRestoredBackupBody(now, eventId);
      if r.Failure? {
        Rollback(saved);
      } else if * {
        r := Failure(Interrupted);
      }
    }

    // ----- key references -----

    /** False exactly when neither a credential nor a proof names the key. */
    method HashKeyIsInUse(kid: Kid) returns (used: bool)
      ensures !used <==> CredentialsAvoid(Tables(), kid) && ProofsAvoid(Tables(), kid)
    {
      var credential := exists id | id in credentials :: credentials[id].hashKid == kid;
      var proof := exists d | d in proofs :: proofs[d].hashKid == kid;
      used := credential || proof;
    }

    /** The recorded check of every referenced key; a key without one means a corrupt store. */
    method ReferencedHashKeyChecks() returns (r: Result<map<Kid, KeyCheck>, Error>)
      ensures r.Success? <==>
              (forall id :: id in credentials ==> credentials[id].hashKid in hashKeys)
              && (forall d :: d in proofs ==> proofs[d].hashKid in hashKeys)
      ensures r.Success? ==> forall kid ::
                kid in r.value <==> !CredentialsAvoid(Tables(), kid) || !ProofsAvoid(Tables(), kid)
      ensures r.Success? ==> forall kid :: kid in r.value ==> kid in hashKeys && r.value[kid] == hashKeys[kid]
      ensures r.Failure? ==> r.error == Corrupt
    {
      var kids := (set id | id in credentials :: credentials[id].hashKid) + (set d | d in proofs :: proofs[d].hashKid);
      assert forall id :: id in credentials ==> credentials[id].hashKid in kids;
      assert forall d :: d in proofs ==> proofs[d].hashKid in kids;
      var checks := map kid | kid in kids && kid in hashKeys :: hashKeys[kid];
      if checks.Keys != kids {
        return Failure(Corrupt);
      }
      return Success(checks);
    }
  }

  lemma FewerCurrent(before: map<Id, Credential>, after: map<Id, Credential>)
    requires UniqueCurrent(before)
    requires forall id :: id in after && after[id].status == Current ==> id in before && before[id] == after[id]
    ensures UniqueCurrent(after)
  {
  }

  /** The five deletions and the timestamp make up a cleanup. */
  lemma StatementsCleanUp(l: Ledger, m: Ledger, now: int)
    requires m.clients == l.clients && m.hashKeys == l.hashKeys && m.restoreRequired == l.restoreRequired
    requires m.proofs == RetainedProofs(l.proofs, now)
    requires m.credentials == RetainedCredentials(l.credentials, m.proofs, now)
    requires m.decisions == RetainedDecisions(l.decisions, now)
    requires m.auditEvents == RetainedAudit(l.auditEvents, now)
    requires m.rateEvents == Prune(l.rateEvents, now - 60)
    requires m.lastCleanupAt == Some(now)
    ensures m == Cleanup(l, now)
    ensures |m.proofs| <= |l.proofs| && |m.credentials| <= |l.credentials| && |m.decisions| <= |l.decisions|
    ensures |m.auditEvents| <= |l.auditEvents| && |m.rateEvents| <= |l.rateEvents|
    ensures Removed(l, now) ==
              RowCounts(|l.proofs| - |m.proofs|, |l.credentials| - |m.credentials|, |l.decisions| - |m.decisions|,
                        |l.auditEvents| - |m.auditEvents|, |l.rateEvents| - |m.rateEvents|)
  {
    CleanupOnlyRemoves(l, now);
  }

  lemma CleanupKeepsIndexes(l: Ledger, now: int)
    requires UniqueCurrent(l.credentials) && UniqueKeys(l.decisions)
    ensures UniqueCurrent(Cleanup(l, now).credentials) && UniqueKeys(Cleanup(l, now).decisions)
  {
    FewerCurrent(l.credentials, Cleanup(l, now).credentials);
  }

  /** How many rows each DELETE of a cleanup removes. */
  function Removed(l: Ledger, now: int): RowCounts {
    CleanupOnlyRemoves(l, now);
    var m := Cleanup(l, now);
    RowCounts(|l.proofs| - |m.proofs|, |l.credentials| - |m.credentials|, |l.decisions| - |m.decisions|,
              |l.auditEvents| - |m.auditEvents|, |l.rateEvents| - |m.rateEvents|)
  }

  lemma {:induction false} PruneShortens(events: seq<RateEvent>, cutoff: int)
    ensures |Prune(events, cutoff)| <= |events|
  {
    if events != [] { PruneShortens(events[..|events| - 1], cutoff); }
  }

  lemma SubsetIsSmaller<T>(a: set<T>, b: set<T>)
    requires a <= b
    ensures |a| <= |b|
  {
    assert b == a + (b - a);
  }

  lemma CleanupOnlyRemoves(l: Ledger, now: int)
    ensures var m := Cleanup(l, now);
            && |m.proofs| <= |l.proofs| && |m.credentials| <= |l.credentials| && |m.decisions| <= |l.decisions|
            && |m.auditEvents| <= |l.auditEvents| && |m.rateEvents| <= |l.rateEvents|
  {
    var m := Cleanup(l, now);
    SubsetIsSmaller(m.proofs.Keys, l.proofs.Keys);
    SubsetIsSmaller(m.credentials.Keys, l.credentials.Keys);
    SubsetIsSmaller(m.decisions.Keys, l.decisions.Keys);
    SubsetIsSmaller(m.auditEvents.Keys, l.auditEvents.Keys);
    PruneShortens(l.rateEvents, now - 60);
  }
}
