/** What each write transaction does to the tables; a failed one leaves them alone (src/onceproof/store.py). */
module Transactions {
  import opened Wrappers
  import opened Verdict
  import opened KeyringCodec
  import opened Schema

  const IDEMPOTENCY_RETENTION := 86_400
  const PROOF_RETENTION := 3_600
  const AUDIT_RETENTION := 604_800

  /** The tables at COMMIT and the value returned to the caller. */
  datatype Committed<+T> = Committed(ledger: Ledger, value: T)

  type Transaction<+T> = Result<Committed<T>, Error>

  /** The tables once the transaction has committed or rolled back. */
  function LedgerAfter<T>(before: Ledger, t: Transaction<T>): Ledger {
    if t.Success? then t.value.ledger else before
  }

  function CreateClient(l: Ledger, clientId: Id, name: string, audiences: seq<string>, ttlSeconds: int,
                        issueLimit: int, verifyLimit: int, issuance: NewCredential, verification: NewCredential,
                        check: KeyCheck, now: int, eventId: Id): Transaction<()>
  {
    if Sealed(l) then Failure(RestoreRequired) else
    :- Need(issuance.hashKid == verification.hashKid, KeyMismatch);
    var l1 :- RegisterHashKey(l, issuance.hashKid, check);
    var l2 :- InsertClient(l1, clientId, name, audiences, ttlSeconds, issueLimit, verifyLimit, now);
    var l3 :- InsertCredential(l2, issuance, now);
    var l4 :- InsertCredential(l3, verification, now);
    var l5 :- InsertAudit(l4, eventId, AuditEvent(now, ClientCreated, Some(clientId), None, None, None));
    Success(Committed(l5, ()))
  }

  /** The record prepared before the lock was taken, moved to the time sampled under it. */
  function Restamped(record: Proof, now: int): Proof {
    record.(issuedAt := now, expiresAt := now + (record.expiresAt - record.issuedAt))
  }

  function IssueProof(l: Ledger, digest: TokenDigest, record: Proof, check: KeyCheck, now: int, eventId: Id)
    : Transaction<Proof>
  {
    if Sealed(l) then Failure(RestoreRequired) else
    var l1 :- RegisterHashKey(l, record.hashKid, check);
    var p := Restamped(record, now);
    :- Need(Authorised(l1, p.issueCredentialId, p.clientId, Issuance, now), PermissionDenied);
    var l2 :- ConsumeRateSlot(l1, p.clientId, IssueSlot, l1.clients[p.clientId].issueLimit, now);
    var l3 :- InsertProof(l2, digest, p);
    var l4 :- InsertAudit(l3, eventId,
      AuditEvent(now, ProofIssued, Some(p.clientId), Some(p.issueCredentialId), Some(p.tag), None));
    Success(Committed(l4, p))
  }

  // ----- consume -----

  function RejectedResult(reason: Reason, decisionId: Id, tag: Option<string>, clientId: Option<Id>, now: int)
    : VerificationResult
  {
    VerificationResult(false, Some(reason),
      VerificationWitness(RejectionState(reason), decisionId, tag, clientId, now, Some(reason)), None)
  }

  function AcceptedResult(p: Proof, decisionId: Id, now: int): VerificationResult {
    VerificationResult(true, None,
      VerificationWitness(VERIFIED_ONCE, decisionId, Some(p.tag), Some(p.clientId), now, None),
      Some(ProofClaims(p.clientId, p.subject, p.purpose, p.audience, p.issuedAt, p.expiresAt)))
  }

  /** The result stored under the key, or the conflict raised for another request's key. */
  ghost function IdempotentResult(l: Ledger, clientId: Id, key: Option<string>, fingerprint: Fingerprint)
    : Result<Option<VerificationResult>, Error>
  {
    if key.None? || KeyedDecision(l, clientId, key.value).None? then Success(None)
    else
      var row := l.decisions[KeyedDecision(l, clientId, key.value).value];
      if row.fingerprint != fingerprint then Failure(IdempotencyConflict)
      else
        var decoded := FromDict(row.resultJson);
        if decoded.Failure? then Failure(Corrupt) else Success(Some(decoded.value))
  }

  predicate Updatable(l: Ledger, digest: TokenDigest, now: int) {
    digest in l.proofs && l.proofs[digest].consumedAt.None? && l.proofs[digest].expiresAt > now
  }

  function MarkConsumed(l: Ledger, digest: TokenDigest, decisionId: Id, now: int): Ledger
    requires digest in l.proofs
  {
    l.(proofs := l.proofs[digest := l.proofs[digest].(consumedAt := Some(now), consumedBy := Some(decisionId))])
  }

  /** What is being verified: a presented proof and the bindings it must have. */
  datatype Request = Request(digest: TokenDigest, subject: string, purpose: string, audience: string)

  predicate BoundTo(p: Proof, request: Request) {
    p.purpose == request.purpose && p.audience == request.audience && p.subject == request.subject
  }

  function Decide(l: Ledger, clientId: Id, request: Request, now: int, decisionId: Id): (Ledger, VerificationResult) {
    var digest := request.digest;
    if !(digest in l.proofs && l.proofs[digest].clientId == clientId) then
      (l, RejectedResult(Invalid, decisionId, None, Some(clientId), now))
    else
      var p := l.proofs[digest];
      if p.consumedAt.Some? then
        (l, RejectedResult(AlreadyConsumed, decisionId, Some(p.tag), Some(clientId), now))
      else if now >= p.expiresAt then
        (l, RejectedResult(Expired, decisionId, Some(p.tag), Some(clientId), now))
      else if !BoundTo(p, request) then
        (l, RejectedResult(BindingMismatch, decisionId, Some(p.tag), Some(clientId), now))
      else if Updatable(l, digest, now) then
        (MarkConsumed(l, digest, decisionId, now), AcceptedResult(p, decisionId, now))
      else
        (l, RejectedResult(AlreadyConsumed, decisionId, Some(p.tag), Some(clientId), now))
  }

  /** The conditional UPDATE always finds its row: the last branch of the decision is never taken. */
  lemma ConditionalUpdateHits(l: Ledger, clientId: Id, request: Request, now: int, decisionId: Id)
    requires request.digest in l.proofs
    requires var p := l.proofs[request.digest];
             p.clientId == clientId && p.consumedAt.None? && now < p.expiresAt && BoundTo(p, request)
    ensures Updatable(l, request.digest, now)
    ensures Decide(l, clientId, request, now, decisionId).1 == AcceptedResult(l.proofs[request.digest], decisionId, now)
  {
  }

  /** How a verdict came about: without the ledger, from a stored decision, or newly decided. */
  datatype Origin = Unauthenticated | Replayed | Fresh

  datatype Answer = Answer(result: VerificationResult, origin: Origin)

  ghost function ConsumeProof(l: Ledger, credentialId: Id, clientId: Id, request: Request, fingerprint: Fingerprint,
                              key: Option<string>, now: int, decisionId: Id, eventId: Id): Transaction<Answer>
  {
    if Sealed(l) then Failure(RestoreRequired) else
    if !Authorised(l, credentialId, clientId, Role.Verification, now) then
      Success(Committed(l, Answer(RejectedResult(CredentialRejected, decisionId, None, None, now), Unauthenticated)))
    else
      var cached :- IdempotentResult(l, clientId, key, fingerprint);
      if cached.Some? then Success(Committed(l, Answer(cached.value, Replayed)))
      else DecideFresh(l, credentialId, clientId, request, fingerprint, key, now, decisionId, eventId)
  }

  /** Past authentication and the idempotency lookup: spend a slot, decide, record the decision. */
  function DecideFresh(l: Ledger, credentialId: Id, clientId: Id, request: Request, fingerprint: Fingerprint,
                       key: Option<string>, now: int, decisionId: Id, eventId: Id): Transaction<Answer>
    requires clientId in l.clients
  {
    var l1 :- ConsumeRateSlot(l, clientId, VerifySlot, l.clients[clientId].verifyLimit, now);
    var (l2, result) := Decide(l1, clientId, request, now, decisionId);
    var tag := result.attestation.proofTag;
    var l3 :- InsertDecision(l2, result.attestation.verificationId,
      Decision(clientId, credentialId, tag, fingerprint, key, ToDict(result), now));
    var l4 :- InsertAudit(l3, eventId,
      AuditEvent(now, if result.verified then ProofVerified else ProofRejected,
                 Some(clientId), Some(credentialId), tag, result.reason));
    Success(Committed(l4, Answer(result, Fresh)))
  }

  /** The read-only lookup made before the write lock is taken. */
  ghost function CachedVerification(l: Ledger, credentialId: Id, clientId: Id, fingerprint: Fingerprint,
                                    key: Option<string>, now: int): Result<Option<VerificationResult>, Error>
  {
    if key.None? then Success(None)
    else if Sealed(l) then Failure(RestoreRequired)
    else if !Authorised(l, credentialId, clientId, Role.Verification, now) then Success(None)
    else IdempotentResult(l, clientId, key, fingerprint)
  }

  // ----- credentials and clients -----

  ghost function RotateCredential(l: Ledger, clientId: Id, role: Role, replacement: NewCredential, check: KeyCheck,
                                  graceSeconds: int, now: int, eventId: Id): Transaction<(Id, int)>
  {
    if Sealed(l) then Failure(RestoreRequired) else
    var l1 :- RegisterHashKey(l, replacement.hashKid, check);
    :- Need(clientId in l1.clients, UnknownClient);
    :- Need(l1.clients[clientId].status == Active, ClientIsRevoked);
    var current := CurrentCredential(l1, clientId, role);
    :- Need(current.Some?, CurrentMissing);
    var l2 := Supersede(l1, current.value, now + graceSeconds);
    var l3 :- InsertCredential(l2, replacement, now);
    var l4 :- InsertAudit(l3, eventId,
      AuditEvent(now, CredentialRotated, Some(clientId), Some(replacement.credentialId), None, None));
    Success(Committed(l4, (current.value, now + graceSeconds)))
  }

  function Supersede(l: Ledger, credentialId: Id, validUntil: int): Ledger
    requires credentialId in l.credentials
  {
    var row := l.credentials[credentialId].(status := Previous, validUntil := Some(validUntil));
    l.(credentials := l.credentials[credentialId := row])
  }

  function Lowered(p: Proof, now: int): Proof {
    if p.consumedAt.None? && !(p.expiresAt < now) then p.(expiresAt := now) else p
  }

  function RevokedCredential(c: Credential, now: int): Credential {
    c.(status := Revoked, validUntil := Some(now), revokedAt := Some(now))
  }

  function RevokedOf(credentials: map<Id, Credential>, clientId: Id, now: int): map<Id, Credential> {
    map id | id in credentials ::
      if credentials[id].clientId == clientId && credentials[id].status != Revoked
      then RevokedCredential(credentials[id], now) else credentials[id]
  }

  function LoweredOf(proofs: map<TokenDigest, Proof>, clientId: Id, now: int): map<TokenDigest, Proof> {
    map d | d in proofs :: if proofs[d].clientId == clientId then Lowered(proofs[d], now) else proofs[d]
  }

  /** Three UPDATE statements restricted to one client. */
  function CloseClient(l: Ledger, clientId: Id, now: int): Ledger
    requires clientId in l.clients
  {
    l.(clients := l.clients[clientId := l.clients[clientId].(status := Closed, revokedAt := Some(now))],
       credentials := RevokedOf(l.credentials, clientId, now),
       proofs := LoweredOf(l.proofs, clientId, now))
  }

  function RevokeClient(l: Ledger, clientId: Id, now: int, eventId: Id): Transaction<bool> {
    if Sealed(l) then Failure(RestoreRequired) else
    :- Need(clientId in l.clients, UnknownClient);
    if l.clients[clientId].status == Closed then Success(Committed(l, false))
    else
      var l1 :- InsertAudit(CloseClient(l, clientId, now), eventId,
        AuditEvent(now, ClientRevoked, Some(clientId), None, None, None));
      Success(Committed(l1, true))
  }

  // ----- cleanup -----

  predicate Deletable(c: Credential, now: int) {
    && c.status != Current
    && (if c.validUntil.Some? then c.validUntil.value
        else if c.revokedAt.Some? then c.revokedAt.value
        else c.createdAt) < now
  }

  predicate IssuedSomething(proofs: map<TokenDigest, Proof>, credentialId: Id) {
    exists d :: d in proofs && proofs[d].issueCredentialId == credentialId
  }

  function RetainedProofs(proofs: map<TokenDigest, Proof>, now: int): map<TokenDigest, Proof> {
    map d | d in proofs && !(proofs[d].expiresAt < now - PROOF_RETENTION) :: proofs[d]
  }

  function RetainedCredentials(credentials: map<Id, Credential>, proofs: map<TokenDigest, Proof>, now: int)
    : map<Id, Credential>
  {
    map id | id in credentials && !(Deletable(credentials[id], now) && !IssuedSomething(proofs, id)) :: credentials[id]
  }

  function RetainedDecisions(decisions: map<Id, Decision>, now: int): map<Id, Decision> {
    map id | id in decisions && !(decisions[id].createdAt < now - IDEMPOTENCY_RETENTION) :: decisions[id]
  }

  function RetainedAudit(events: map<Id, AuditEvent>, now: int): map<Id, AuditEvent> {
    map id | id in events && !(events[id].createdAt < now - AUDIT_RETENTION) :: events[id]
  }

  /** Cleanup with the retention periods every caller uses; credentials go after the proofs they issued. */
  function Cleanup(l: Ledger, now: int): Ledger {
    var proofs := RetainedProofs(l.proofs, now);
    l.(proofs := proofs,
       credentials := RetainedCredentials(l.credentials, proofs, now),
       decisions := RetainedDecisions(l.decisions, now),
       auditEvents := RetainedAudit(l.auditEvents, now),
       rateEvents := Prune(l.rateEvents, now - 60),
       lastCleanupAt := Some(now))
  }

  // ----- backup and restore -----

  /** The snapshot written by a backup: every table, with the flag set. */
  function Snapshot(l: Ledger): Ledger {
    l.(restoreRequired := Some(1))
  }

  function OrElse(first: Option<int>, second: int): Option<int> {
    if first.Some? then first else Some(second)
  }

  function ClosedClients(clients: map<Id, Client>, now: int): map<Id, Client> {
    map id | id in clients :: clients[id].(status := Closed, revokedAt := OrElse(clients[id].revokedAt, now))
  }

  function AllRevoked(credentials: map<Id, Credential>, now: int): map<Id, Credential> {
    map id | id in credentials ::
      credentials[id].(status := Revoked, validUntil := Some(now), revokedAt := OrElse(credentials[id].revokedAt, now))
  }

  function AllLowered(proofs: map<TokenDigest, Proof>, now: int): map<TokenDigest, Proof> {
    map d | d in proofs :: Lowered(proofs[d], now)
  }

  function Invalidated(l: Ledger, now: int): Ledger {
    l.(clients := ClosedClients(l.clients, now),
       credentials := AllRevoked(l.credentials, now),
       proofs := AllLowered(l.proofs, now),
       rateEvents := [])
  }

  function ActivateRestoredBackup(l: Ledger, now: int, eventId: Id): Transaction<()> {
    if !Sealed(l) then Failure(NotSealed) else
    var l1 :- InsertAudit(Invalidated(l, now), eventId, AuditEvent(now, RestoreActivated, None, None, None, None));
    Success(Committed(l1.(restoreRequired := Some(0)), ()))
  }

  // ----- key references -----

  ghost predicate CredentialsAvoid(l: Ledger, kid: Kid) {
    forall id :: id in l.credentials ==> l.credentials[id].hashKid != kid
  }

  ghost predicate ProofsAvoid(l: Ledger, kid: Kid) {
    forall d :: d in l.proofs ==> l.proofs[d].hashKid != kid
  }
}
