/** The tables of the replay ledger and the statements that change them (src/onceproof/store.py). */
module Schema {
  import opened Wrappers
  import opened Verdict
  import opened KeyringCodec

  type Id = string

  // SHA-256 and the keyed digests are modelled as injective: a digest remembers what was digested.
  datatype KeyCheck = KeyCheck(key: Key)
  datatype SecretDigest = SecretDigest(key: Key, secret: string)
  datatype TokenDigest = Keyed(key: Key, proof: string) | Plain(proof: string)
  datatype Fingerprint = Fingerprint(proof: string, subject: string, purpose: string, audience: string)

  datatype Role = Issuance | Verification
  datatype ClientStatus = Active | Closed
  datatype CredentialStatus = Current | Previous | Revoked
  datatype Operation = IssueSlot | VerifySlot

  // CHECK constraints of the schema.
  type Ttl = n: int | 1 <= n <= 3600 witness 1
  type Quota = n: int | 1 <= n <= 100_000 witness 1

  datatype Client = Client(
    name: string, status: ClientStatus, audiences: seq<string>, ttlSeconds: Ttl,
    issueLimit: Quota, verifyLimit: Quota, createdAt: int, revokedAt: Option<int>)

  datatype NewCredential = NewCredential(
    credentialId: Id, clientId: Id, role: Role, hashKid: Kid, secretDigest: SecretDigest)

  datatype Credential = Credential(
    clientId: Id, role: Role, hashKid: Kid, secretDigest: SecretDigest, status: CredentialStatus,
    createdAt: int, validUntil: Option<int>, revokedAt: Option<int>)

  datatype Proof = Proof(
    tag: string, hashKid: Kid, clientId: Id, issueCredentialId: Id,
    subject: string, purpose: string, audience: string, issuedAt: int, expiresAt: int,
    consumedAt: Option<int>, consumedBy: Option<Id>)

  // The table `verifications`; the result is kept in its persisted form.
  datatype Decision = Decision(
    clientId: Id, credentialId: Id, proofTag: Option<string>, fingerprint: Fingerprint,
    idempotencyKey: Option<string>, resultJson: Json, createdAt: int)

  datatype AuditKind =
    | ClientCreated | ProofIssued | ProofVerified | ProofRejected
    | CredentialRotated | ClientRevoked | RestoreActivated

  datatype AuditEvent = AuditEvent(
    createdAt: int, kind: AuditKind, clientId: Option<Id>, credentialId: Option<Id>,
    proofTag: Option<string>, reason: Option<Reason>)

  datatype RateEvent = RateEvent(clientId: Id, operation: Operation, occurredAt: int)

  datatype Ledger = Ledger(
    clients: map<Id, Client>,
    credentials: map<Id, Credential>,
    proofs: map<TokenDigest, Proof>,
    decisions: map<Id, Decision>,
    auditEvents: map<Id, AuditEvent>,
    rateEvents: seq<RateEvent>,
    hashKeys: map<Kid, KeyCheck>,
    lastCleanupAt: Option<int>,
    restoreRequired: Option<int>)

  const EMPTY := Ledger(map[], map[], map[], map[], map[], [], map[], None, None)

  datatype Error =
    | RestoreRequired
    | PermissionDenied
    | RateLimited(retryAfter: int)
    | Corrupt
    | ConstraintFailed
    | IdempotencyConflict
    | KeyMismatch
    | UnknownClient
    | ClientIsRevoked
    | CurrentMissing
    | NotSealed
    | Interrupted

  // ----- reads -----

  predicate Sealed(l: Ledger) {
    l.restoreRequired.Some? && l.restoreRequired.value != 0
  }

  predicate Accepted(c: Credential, now: int) {
    || c.status == Current
    || (c.status == Previous && c.validUntil.Some? && now < c.validUntil.value)
  }

  /** credentials JOIN clients: the credential has this role and its client is active and accepts it now. */
  predicate Authorised(l: Ledger, credentialId: Id, clientId: Id, role: Role, now: int) {
    && credentialId in l.credentials
    && l.credentials[credentialId].role == role
    && l.credentials[credentialId].clientId == clientId
    && clientId in l.clients
    && l.clients[clientId].status == Active
    && Accepted(l.credentials[credentialId], now)
  }

  predicate HoldsKey(d: Decision, clientId: Id, key: string) {
    d.clientId == clientId && d.idempotencyKey == Some(key)
  }

  /** The row of the unique index on client and idempotency key. */
  ghost function KeyedDecision(l: Ledger, clientId: Id, key: string): Option<Id> {
    if id :| id in l.decisions && HoldsKey(l.decisions[id], clientId, key) then Some(id) else None
  }

  predicate IsCurrent(c: Credential, clientId: Id, role: Role) {
    c.clientId == clientId && c.role == role && c.status == Current
  }

  ghost function CurrentCredential(l: Ledger, clientId: Id, role: Role): Option<Id> {
    if id :| id in l.credentials && IsCurrent(l.credentials[id], clientId, role) then Some(id) else None
  }

  // ----- unique partial indexes -----

  ghost predicate UniqueCurrent(credentials: map<Id, Credential>) {
    forall a, b, clientId, role |
      && a in credentials && b in credentials
      && IsCurrent(credentials[a], clientId, role) && IsCurrent(credentials[b], clientId, role) :: a == b
  }

  ghost predicate UniqueKeys(decisions: map<Id, Decision>) {
    forall a, b, clientId, key |
      && a in decisions && b in decisions
      && HoldsKey(decisions[a], clientId, key) && HoldsKey(decisions[b], clientId, key) :: a == b
  }

  // ----- rate events -----

  function Prune(events: seq<RateEvent>, cutoff: int): seq<RateEvent> {
    if events == [] then []
    else
      var last := events[|events| - 1];
      Prune(events[..|events| - 1], cutoff) + (if last.occurredAt <= cutoff then [] else [last])
  }

  /** When the client's slots for this operation after `cutoff` were taken. */
  function Slots(events: seq<RateEvent>, clientId: Id, operation: Operation, cutoff: int): seq<int> {
    if events == [] then []
    else
      var last := events[|events| - 1];
      Slots(events[..|events| - 1], clientId, operation, cutoff)
      + (if last.clientId == clientId && last.operation == operation && last.occurredAt > cutoff
         then [last.occurredAt] else [])
  }

  function Oldest(times: seq<int>): int
    requires times != []
  {
    if |times| == 1 then times[0]
    else
      var earlier, last := Oldest(times[..|times| - 1]), times[|times| - 1];
      if last < earlier then last else earlier
  }

  function Clamp(wait: int): int {
    var atLeastOne := if wait < 1 then 1 else wait;
    if atLeastOne > 60 then 60 else atLeastOne
  }

  // ----- statements: each returns the changed tables or the constraint that failed -----

  function RegisterHashKey(l: Ledger, kid: Kid, check: KeyCheck): Result<Ledger, Error> {
    if kid !in l.hashKeys then Success(l.(hashKeys := l.hashKeys[kid := check]))
    else if l.hashKeys[kid] != check then Failure(Corrupt)
    else Success(l)
  }

  function InsertClient(l: Ledger, clientId: Id, name: string, audiences: seq<string>, ttlSeconds: int,
                        issueLimit: int, verifyLimit: int, now: int): Result<Ledger, Error>
  {
    if clientId in l.clients then Failure(ConstraintFailed) else
    :- Need(1 <= ttlSeconds <= 3600 && 1 <= issueLimit <= 100_000 && 1 <= verifyLimit <= 100_000, ConstraintFailed);
    var row := Client(name, Active, audiences, ttlSeconds, issueLimit, verifyLimit, now, None);
    Success(l.(clients := l.clients[clientId := row]))
  }

  function InsertCredential(l: Ledger, c: NewCredential, now: int): Result<Ledger, Error> {
    if c.credentialId in l.credentials then Failure(ConstraintFailed) else
    :- Need(c.clientId in l.clients, ConstraintFailed);
    :- Need(forall id | id in l.credentials :: !IsCurrent(l.credentials[id], c.clientId, c.role), ConstraintFailed);
    var row := Credential(c.clientId, c.role, c.hashKid, c.secretDigest, Current, now, None, None);
    Success(l.(credentials := l.credentials[c.credentialId := row]))
  }

  function InsertProof(l: Ledger, digest: TokenDigest, p: Proof): Result<Ledger, Error> {
    if digest in l.proofs then Failure(ConstraintFailed) else
    :- Need(forall d | d in l.proofs :: l.proofs[d].tag != p.tag, ConstraintFailed);
    :- Need(p.clientId in l.clients && p.issueCredentialId in l.credentials, ConstraintFailed);
    Success(l.(proofs := l.proofs[digest := p.(consumedAt := None, consumedBy := None)]))
  }

  function InsertDecision(l: Ledger, decisionId: Id, d: Decision): Result<Ledger, Error> {
    if decisionId in l.decisions then Failure(ConstraintFailed) else
    :- Need(d.idempotencyKey.Some? ==>
              forall id | id in l.decisions :: !HoldsKey(l.decisions[id], d.clientId, d.idempotencyKey.value),
            ConstraintFailed);
    Success(l.(decisions := l.decisions[decisionId := d]))
  }

  function InsertAudit(l: Ledger, eventId: Id, e: AuditEvent): Result<Ledger, Error> {
    if eventId in l.auditEvents then Failure(ConstraintFailed) else
    Success(l.(auditEvents := l.auditEvents[eventId := e]))
  }

  function ConsumeRateSlot(l: Ledger, clientId: Id, operation: Operation, limit: Quota, now: int)
    : Result<Ledger, Error>
  {
    var kept := Prune(l.rateEvents, now - 60);
    var slots := Slots(kept, clientId, operation, now - 60);
    if |slots| >= limit then Failure(RateLimited(Clamp(Oldest(slots) + 60 - now)))
    else Success(l.(rateEvents := kept + [RateEvent(clientId, operation, now)]))
  }
}
