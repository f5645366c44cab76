/** The service operations over a store and a keyring (src/onceproof/service.py). */
module Service {
  import opened Wrappers
  import opened Verdict
  import opened KeyringCodec
  import opened Schema
  import opened Transactions
  import opened Runs
  import opened Effects
  import opened Requests
  import opened Idempotency
  import opened KeyProtocol
  import opened Store
  import opened KeyRing
  import opened Answers
  import Acceptance

  datatype ServiceError =
    | CredentialRefused
    | AudienceNotAllowed
    | InvalidTtl
    | InvalidClient
    | InvalidGrace
    | Keyring(cause: RingError)
    | Ledger(error: Error)

  /** A store error as the service passes it on. */
  function Lifted<T>(r: Result<T, Error>): Result<T, ServiceError> {
    if r.Success? then Success(r.value) else Failure(ServiceError.Ledger(r.error))
  }

  /** What an issuer asks for. */
  datatype IssueRequest = IssueRequest(
    secret: string, subject: string, purpose: string, audience: string, ttl: Option<int>)

  /** What an administrator asks for a new client. */
  datatype ClientRequest = ClientRequest(
    name: string, audiences: seq<string>, ttlSeconds: int, issueLimit: int, verifyLimit: int)

  /** The random parts of a new client: identifiers and the tails of its two secrets. */
  datatype ClientDraw = ClientDraw(
    clientId: Id, issuanceId: Id, issuanceRandom: string, verificationId: Id, verificationRandom: string)

  /** The checks made before the write lock, which read the credential first and its client later. */
  function PrepareIssue(atAuth: Schema.Ledger, atPolicy: Schema.Ledger, ring: Ring, request: IssueRequest,
                        random: string, tag: string, now: int, lockedAt: int, eventId: Id): Result<Op, ServiceError>
    requires ring.current in ring.keys
  {
    var id := Authenticate(atAuth, ring, request.secret, Issuance, now);
    if id.None? then Failure(CredentialRefused)
    else
      var clientId := atAuth.credentials[id.value].clientId;
      if clientId !in atPolicy.clients || atPolicy.clients[clientId].status != Active then Failure(CredentialRefused)
      else if request.audience !in atPolicy.clients[clientId].audiences then Failure(AudienceNotAllowed)
      else
        var client := atPolicy.clients[clientId];
        var ttl := if request.ttl.None? then client.ttlSeconds else request.ttl.value;
        if !(1 <= ttl <= client.ttlSeconds) then Failure(InvalidTtl)
        else
          var proof := BearerProof(ring.current, random);
          var record := Proof(tag, ring.current, clientId, id.value, request.subject, request.purpose,
                              request.audience, now, now + ttl, None, None);
          var key := ring.keys[ring.current];
          Success(Issue(Keyed(key, proof), record, KeyCheck(key), lockedAt, eventId))
  }

  /**
   * What leaves the service's checks is what the ledger and key proofs assume of an issue: its issuer authenticated,
   * it passed the client's policy, its validity period is legal, and its proof names and is digested with the ring's
   * current key.
   */
  lemma PreparedIssueIsVetted(atAuth: Schema.Ledger, atPolicy: Schema.Ledger, ring: Ring, request: IssueRequest,
                              random: string, tag: string, now: int, lockedAt: int, eventId: Id)
    requires ring.current in ring.keys && IsKid(ring.current) && '.' !in ring.current
    requires random != "" && '.' !in random
    requires request.subject != "" && request.purpose != "" && request.audience != "" && tag != ""
    requires now >= 0 && lockedAt >= 0 && forall id :: id in atPolicy.clients ==> id != ""
    requires PrepareIssue(atAuth, atPolicy, ring, request, random, tag, now, lockedAt, eventId).Success?
    ensures var op := PrepareIssue(atAuth, atPolicy, ring, request, random, tag, now, lockedAt, eventId).value;
            && op.Issue?
            && Authenticate(atAuth, ring, request.secret, Issuance, now) == Some(op.record.issueCredentialId)
            && Acceptance.PolicyAllows(atPolicy, op.record)
            && UsesCurrentKey(op, ring)
            && PresentedDigest(ring, op.digest.proof) == op.digest
            && Validated(op)
  {
    hide CredentialIdFromSecret, ProofKid, BearerProof;
    ProofNamesItsKey(BearerProof(ring.current, random), ring.current);
  }

  /** The period asked for, or the client's when none was. */
  function PeriodAsked(request: IssueRequest, client: Client): int {
    match request.ttl
    case None => client.ttlSeconds
    case Some(seconds) => seconds
  }

  /**
   * The checks before the lock, one by one: each refusal has its own check, and what passes them all is an issue of
   * exactly the subject, purpose, audience and period asked for, by the credential of the secret, for its client.
   */
  lemma PreparedAsAsked(atAuth: Schema.Ledger, atPolicy: Schema.Ledger, ring: Ring, request: IssueRequest,
                        random: string, tag: string, now: int, lockedAt: int, eventId: Id)
    requires ring.current in ring.keys
    ensures var id := Authenticate(atAuth, ring, request.secret, Issuance, now);
            var prepared := PrepareIssue(atAuth, atPolicy, ring, request, random, tag, now, lockedAt, eventId);
            if id.None? then prepared == Failure(CredentialRefused)
            else
              var clientId := atAuth.credentials[id.value].clientId;
              if clientId !in atPolicy.clients || atPolicy.clients[clientId].status == Closed then
                prepared == Failure(CredentialRefused)
              else
                var client := atPolicy.clients[clientId];
                if request.audience !in client.audiences then prepared == Failure(AudienceNotAllowed)
                else if PeriodAsked(request, client) < 1 || PeriodAsked(request, client) > client.ttlSeconds then
                  prepared == Failure(InvalidTtl)
                else
                  && prepared.Success? && prepared.value.Issue?
                  && prepared.value.digest.proof == "op1." + ring.current + "." + random
                  && prepared.value.now == lockedAt && prepared.value.eventId == eventId
                  && var record := prepared.value.record;
                     && record.subject == request.subject && record.purpose == request.purpose
                     && record.audience == request.audience
                     && record.expiresAt - record.issuedAt == PeriodAsked(request, client)
                     && record.clientId == clientId && record.issueCredentialId == id.value
                     && record.tag == tag && record.hashKid == ring.current
  {
    hide Authenticate, BearerProof;
    ProofNamesItsKey("", ring.current);
    assert BearerProof(ring.current, random) == "op1." + ring.current + "." + random;
  }

  // ----- what other callers do meanwhile -----

  /** Some run of transactions leads from one ledger to the other. */
  ghost predicate Reaches(l: Schema.Ledger, m: Schema.Ledger) {
    exists run :: Leads(run, l, m)
  }

  ghost predicate Leads(run: Run, l: Schema.Ledger, m: Schema.Ledger) {
    Steps(run) && run.states[0] == l && run.states[|run.ops|] == m
  }

  lemma ReachesItself(l: Schema.Ledger)
    ensures Reaches(l, l)
  {
    assert Leads(Run([l], []), l, l);
  }

  lemma ReachesFurther(l: Schema.Ledger, m: Schema.Ledger, n: Schema.Ledger, op: Op)
    requires Reaches(l, m) && (n == m || n == Next(m, op))
    ensures Reaches(l, n)
  {
    hide Next;
    var run :| Leads(run, l, m);
    if n != m {
      assert Leads(Run(run.states + [n], run.ops + [op]), l, n);
    }
  }

  // ----- new secrets -----

  predicate AcceptableClient(request: ClientRequest) {
    && request.name != "" && request.audiences != []
    && 1 <= request.ttlSeconds <= 3600
    && 1 <= request.issueLimit <= 100_000 && 1 <= request.verifyLimit <= 100_000
  }

  /** Where an audience is first listed. */
  function FirstAt(audiences: seq<string>, audience: string): (i: nat)
    requires audience in audiences
    ensures i < |audiences| && audiences[i] == audience && audience !in audiences[..i]
  {
    var front := audiences[..|audiences| - 1];
    assert audiences == front + [audiences[|audiences| - 1]];
    if audience in front then
      var i := FirstAt(front, audience);
      assert audiences[..i] == front[..i];
      i
    else |audiences| - 1
  }

  /** The first occurrence of every audience, in order. */
  function Distinct(audiences: seq<string>): (kept: seq<string>)
    ensures forall a :: a in kept <==> a in audiences
    ensures forall i, j :: 0 <= i < j < |kept| ==> FirstAt(audiences, kept[i]) < FirstAt(audiences, kept[j])
  {
    if audiences == [] then []
    else
      var last := audiences[|audiences| - 1];
      assert audiences == audiences[..|audiences| - 1] + [last];
      var front := audiences[..|audiences| - 1];
      var earlier := Distinct(front);
      assert forall a :: a in front ==> FirstAt(audiences, a) == FirstAt(front, a);
      if last in earlier then earlier else earlier + [last]
  }

  function CreateOp(ring: Ring, request: ClientRequest, draw: ClientDraw, now: int, eventId: Id): Op
    requires ring.current in ring.keys
  {
    var key := ring.keys[ring.current];
    Create(draw.clientId, request.name, Distinct(request.audiences), request.ttlSeconds, request.issueLimit,
           request.verifyLimit, ring.current, KeyCheck(key),
           draw.issuanceId, SecretDigest(key, BearerSecret(Issuance, draw.issuanceId, draw.issuanceRandom)),
           draw.verificationId,
           SecretDigest(key, BearerSecret(Role.Verification, draw.verificationId, draw.verificationRandom)),
           now, eventId)
  }

  function RotateOp(ring: Ring, clientId: Id, role: Role, credentialId: Id, random: string, graceSeconds: int,
                    now: int, eventId: Id): Op
    requires ring.current in ring.keys
  {
    var key := ring.keys[ring.current];
    Rotate(clientId, role, credentialId, ring.current, SecretDigest(key, BearerSecret(role, credentialId, random)),
           KeyCheck(key), graceSeconds, now, eventId)
  }

  predicate WellFormedSecret(role: Role, id: Id, random: string) {
    IdPrefix(role) <= id && '.' !in id && random != "" && '.' !in random
  }

  lemma MintedSecretNamesItsCredential(role: Role, id: Id, random: string)
    requires WellFormedSecret(role, id, random)
    ensures CredentialIdFromSecret(BearerSecret(role, id, random), role) == Some(id)
  {
    hide CredentialIdFromSecret, BearerSecret;
    SecretNamesItsCredential(BearerSecret(role, id, random), role, id);
  }

  /** Each secret handed to a new client works at once, for its own role only. */
  lemma CreatedSecretsWork(l: Schema.Ledger, ring: Ring, request: ClientRequest, draw: ClientDraw, now: int,
                           eventId: Id, later: int)
    requires ring.current in ring.keys && Creates(l, CreateOp(ring, request, draw, now, eventId))
    requires WellFormedSecret(Issuance, draw.issuanceId, draw.issuanceRandom)
    requires WellFormedSecret(Role.Verification, draw.verificationId, draw.verificationRandom)
    ensures var m := Next(l, CreateOp(ring, request, draw, now, eventId));
            var issuing := BearerSecret(Issuance, draw.issuanceId, draw.issuanceRandom);
            var verifying := BearerSecret(Role.Verification, draw.verificationId, draw.verificationRandom);
            && Authenticate(m, ring, issuing, Issuance, later) == Some(draw.issuanceId)
            && Authenticate(m, ring, verifying, Role.Verification, later) == Some(draw.verificationId)
            && Authenticate(m, ring, issuing, Role.Verification, later) == None
            && Authenticate(m, ring, verifying, Issuance, later) == None
  {
    hide Next, CredentialIdFromSecret, BearerSecret, Distinct;
    CreateCommits(l, CreateOp(ring, request, draw, now, eventId));
    MintedSecretNamesItsCredential(Issuance, draw.issuanceId, draw.issuanceRandom);
    MintedSecretNamesItsCredential(Role.Verification, draw.verificationId, draw.verificationRandom);
    RolesNeverConfused(BearerSecret(Issuance, draw.issuanceId, draw.issuanceRandom));
    RolesNeverConfused(BearerSecret(Role.Verification, draw.verificationId, draw.verificationRandom));
  }

  /** After a rotation the new secret works, and the one it replaces works until the grace has passed, not longer. */
  lemma RotatedSecretsWork(l: Schema.Ledger, ring: Ring, clientId: Id, role: Role, credentialId: Id, random: string,
                           graceSeconds: int, now: int, eventId: Id, former: string, formerId: Id, later: int)
    requires ring.current in ring.keys && WellFormedSecret(role, credentialId, random)
    requires Rotates(l, RotateOp(ring, clientId, role, credentialId, random, graceSeconds, now, eventId))
    requires Authenticate(l, ring, former, role, now) == Some(formerId)
    requires UniqueCurrent(l.credentials) && IsCurrent(l.credentials[formerId], clientId, role)
    ensures var m := Next(l, RotateOp(ring, clientId, role, credentialId, random, graceSeconds, now, eventId));
            && Authenticate(m, ring, BearerSecret(role, credentialId, random), role, later) == Some(credentialId)
            && Authenticate(m, ring, former, role, later) ==
                 (if later < now + graceSeconds then Some(formerId) else None)
  {
    hide Next, CredentialIdFromSecret, BearerSecret;
    RotateCommits(l, RotateOp(ring, clientId, role, credentialId, random, graceSeconds, now, eventId));
    MintedSecretNamesItsCredential(role, credentialId, random);
  }

  /** The row of a credential just handed out. */
  function NewRow(clientId: Id, role: Role, ring: Ring, secret: string, now: int): Credential
    requires ring.current in ring.keys
  {
    Credential(clientId, role, ring.current, SecretDigest(ring.keys[ring.current], secret), Current, now, None, None)
  }

  lemma SecretTexts(id: Id, random: string)
    ensures BearerSecret(Issuance, id, random) == "opi1." + id + "." + random
    ensures BearerSecret(Role.Verification, id, random) == "opv1." + id + "." + random
  {
    SecretNamesItsCredential("", Issuance, id);
    SecretNamesItsCredential("", Role.Verification, id);
    hide BearerSecret;
  }

  class OnceproofService {
    const store: Store
    const keyring: KeyRing

    ghost predicate Valid()
      reads this, store, keyring
    {
      store.Valid() && keyring.Valid()
    }

    constructor (store: Store, keyring: KeyRing)
      requires store.Valid() && keyring.Valid()
      ensures Valid() && this.store == store && this.keyring == keyring
    {
      this.store := store;
      this.keyring := keyring;
    }

    method AuthenticateSecret(secret: string, role: Role, now: int) returns (id: Option<Id>)
      ensures id == Authenticate(store.Tables(), keyring.Copy(), secret, role, now)
    {
      var named := CredentialIdFromSecret(secret, role);
      if named.None? || named.value !in store.credentials {
        return None;
      }
      var record := store.credentials[named.value];
      if record.role != role || record.hashKid !in keyring.keys {
        return None;
      }
      if record.secretDigest != SecretDigest(keyring.keys[record.hashKid], secret) {
        return None;
      }
      if record.status == Current {
        return named;
      }
      if record.status == Previous && record.validUntil.Some? && now < record.validUntil.value {
        return named;
      }
      return None;
    }

    /** Any number of transactions by other callers, each done or rolled back. */
    method Meanwhile()
      requires Valid()
      modifies store
      ensures Valid()
      ensures Reaches(old(store.Tables()), store.Tables())
    {
      ReachesItself(store.Tables());
      var rounds: nat := *;
      while rounds > 0
        invariant Valid()
        invariant Reaches(old(store.Tables()), store.Tables())
        decreases rounds
      {
        ghost var before := store.Tables();
        var op: Op := *;
        AnotherCall(op);
        ReachesFurther(old(store.Tables()), before, store.Tables(), op);
        rounds := rounds - 1;
      }
    }

    method AnotherCall(op: Op)
      requires Valid()
      modifies store
      ensures Valid()
      ensures store.Tables() == old(store.Tables()) || store.Tables() == Next(old(store.Tables()), op)
    {
      hide Transactions.CreateClient, Transactions.IssueProof, Transactions.ConsumeProof, Transactions.RotateCredential;
      hide Transactions.RevokeClient, Transactions.ActivateRestoredBackup, Cleanup;
      match op
      case Create(clientId, name, audiences, ttlSeconds, issueLimit, verifyLimit, kid, check, issuanceId,
                  issuanceDigest, verificationId, verificationDigest, now, eventId) =>
        var _ := store.CreateClient(clientId, name, audiences, ttlSeconds, issueLimit, verifyLimit,
                                    NewCredential(issuanceId, clientId, Issuance, kid, issuanceDigest),
                                    NewCredential(verificationId, clientId, Role.Verification, kid, verificationDigest),
                                    check, now, eventId);
      case Issue(digest, record, check, now, eventId) =>
        var _ := store.IssueProof(digest, record, check, now, eventId);
      case Verify(credentialId, clientId, request, key, now, decisionId, eventId) =>
        var _ := store.ConsumeProof(credentialId, clientId, request, FingerprintOf(request), key, now, decisionId,
                                    eventId);
      case Rotate(clientId, role, credentialId, kid, secretDigest, check, graceSeconds, now, eventId) =>
        var _ := store.RotateCredential(clientId, role, NewCredential(credentialId, clientId, role, kid, secretDigest),
                                        check, graceSeconds, now, eventId);
      case Revoke(clientId, now, eventId) =>
        var _ := store.RevokeClient(clientId, now, eventId);
      case Clean(now) =>
        var _ := store.Clean(now);
      case Seal(_) =>
      case Activate(now, eventId) =>
        var _ := store.ActivateRestoredBackup(now, eventId);
    }

    /**
     * Authenticate, check the policy, issue, while others work in between. A refused request leaves no trace; a
     * committed issue is the prepared one, and an interrupted one leaves no trace or all of it.
     */
    method IssueProof(request: IssueRequest, random: string, tag: string, now: int, lockedAt: int, eventId: Id)
      returns (r: Result<Proof, ServiceError>, ghost atPolicy: Schema.Ledger, ghost atLock: Schema.Ledger)
      requires Valid()
      modifies store
      ensures Valid()
      ensures Reaches(old(store.Tables()), atPolicy) && Reaches(atPolicy, atLock)
      ensures var prepared := PrepareIssue(old(store.Tables()), atPolicy, keyring.Copy(), request, random, tag,
                                           now, lockedAt, eventId);
              if prepared.Failure? then r == Failure(prepared.error) && store.Tables() == atLock == atPolicy
              else exists inner :: AllOrNothing(atLock, store.Tables(), Issuing(atLock, prepared.value), inner)
                     && r == Lifted(inner)
      ensures r.Success? ==>
                && r.value.subject == request.subject && r.value.purpose == request.purpose
                && r.value.audience == request.audience && r.value.tag == tag
                && r.value.issuedAt == lockedAt
                && r.value.clientId in atPolicy.clients
                && r.value.expiresAt == lockedAt + PeriodAsked(request, atPolicy.clients[r.value.clientId])
    {
      hide Transactions.IssueProof, Reaches, CredentialIdFromSecret, BearerProof, Accepted;
      atPolicy, atLock := store.Tables(), store.Tables();
      ReachesItself(store.Tables());
      var id := AuthenticateSecret(request.secret, Issuance, now);
      if id.None? {
        return Failure(CredentialRefused), atPolicy, atLock;
      }
      var clientId := store.credentials[id.value].clientId;
      Meanwhile();
      atPolicy, atLock := store.Tables(), store.Tables();
      ReachesItself(store.Tables());
      if clientId !in store.clients || store.clients[clientId].status != Active {
        return Failure(CredentialRefused), atPolicy, atLock;
      }
      var client := store.clients[clientId];
      if request.audience !in client.audiences {
        return Failure(AudienceNotAllowed), atPolicy, atLock;
      }
      var ttl := if request.ttl.None? then client.ttlSeconds else request.ttl.value;
      if !(1 <= ttl <= client.ttlSeconds) {
        return Failure(InvalidTtl), atPolicy, atLock;
      }
      var kid := keyring.currentKid;
      var key := keyring.keys[kid];
      var proof := BearerProof(kid, random);
      var record := Proof(tag, kid, clientId, id.value, request.subject, request.purpose, request.audience,
                          now, now + ttl, None, None);
      ghost var op := Op.Issue(Keyed(key, proof), record, KeyCheck(key), lockedAt, eventId);
      assert PrepareIssue(old(store.Tables()), atPolicy, keyring.Copy(), request, random, tag, now, lockedAt, eventId)
          == Success(op);
      Meanwhile();
      atLock := store.Tables();
      var committed := store.IssueProof(Keyed(key, proof), record, KeyCheck(key), lockedAt, eventId);
      r := Lifted(committed);
      PreparedAsAsked(old(store.Tables()), atPolicy, keyring.Copy(), request, random, tag, now, lockedAt, eventId);
      if committed.Success? { GrantedIsStored(atLock, op); }
    }

    /**
     * Authenticate, look up, consume, while others work in between. The reply and what the call does to the tables
     * are those of one verification that reads these three ledgers; an interrupted one leaves no trace or all of it.
     */
    method VerifyProof(p: Presentation, times: VerifyTimes, decisionId: Id, eventId: Id)
      returns (r: Result<Answer, Error>, ghost atLookup: Schema.Ledger, ghost atLock: Schema.Ledger)
      requires Valid()
      modifies store
      ensures Valid()
      ensures Reaches(old(store.Tables()), atLookup) && Reaches(atLookup, atLock)
      ensures var (after, reply) := VerifyReply(old(store.Tables()), atLookup, atLock, keyring.Copy(), p, times,
                                                decisionId, eventId);
              if r == Failure(Interrupted) then store.Tables() == atLock || store.Tables() == after
              else
                && store.Tables() == after
                && reply == (if r.Success? then Reply.Verdict(r.value) else Failed(r.error))
    {
      hide FromDict, Split, DecideFresh;
      atLookup, atLock := store.Tables(), store.Tables();
      ReachesItself(store.Tables());
      var id := AuthenticateSecret(p.secret, Role.Verification, times.authenticated);
      if id.None? {
        var refused := RejectedResult(CredentialRejected, decisionId, None, None, times.authenticated);
        return Success(Answer(refused, Unauthenticated)), atLookup, atLock;
      }
      var clientId := store.credentials[id.value].clientId;
      var kid := ProofKid(p.proof);
      var known := kid.Some? && kid.value in keyring.keys;
      var digest := if known then Keyed(keyring.keys[kid.value], p.proof) else Plain(p.proof);
      assert digest == PresentedDigest(keyring.Copy(), p.proof);
      var request := Request(digest, p.subject, p.purpose, p.audience);
      var fingerprint := Fingerprint(p.proof, p.subject, p.purpose, p.audience);
      assert fingerprint == FingerprintOf(request);
      Meanwhile();
      atLookup, atLock := store.Tables(), store.Tables();
      ReachesItself(store.Tables());
      var cached := store.CachedVerification(id.value, clientId, fingerprint, p.key, times.lookedUp);
      if cached.Failure? {
        return Failure(cached.error), atLookup, atLock;
      }
      if cached.value.Some? {
        return Success(Answer(cached.value.value, Replayed)), atLookup, atLock;
      }
      Meanwhile();
      atLock := store.Tables();
      r := store.ConsumeProof(id.value, clientId, request, fingerprint, p.key, times.locked, decisionId, eventId);
    }

    /** A client is registered only under a keyring generation that is still the one on disk. */
    method CreateClient(request: ClientRequest, draw: ClientDraw, now: int, eventId: Id)
      returns (r: Result<(), ServiceError>)
      requires Valid()
      modifies store
      ensures Valid()
      ensures r == Failure(InvalidClient) <==>
              || request.name == "" || request.audiences == []
              || request.ttlSeconds < 1 || request.ttlSeconds > 3600
              || request.issueLimit < 1 || request.issueLimit > 100_000
              || request.verifyLimit < 1 || request.verifyLimit > 100_000
      ensures !AcceptableClient(request) ==> r == Failure(InvalidClient) && store.Tables() == old(store.Tables())
      ensures AcceptableClient(request) && !keyring.InStep() ==>
                r.Failure? && r.error.Keyring? && store.Tables() == old(store.Tables())
      ensures var op := CreateOp(keyring.Copy(), request, draw, now, eventId);
              && UsesCurrentKey(op, keyring.Copy())
              && (AcceptableClient(request) && keyring.InStep() ==>
                    exists inner :: AllOrNothing(old(store.Tables()), store.Tables(),
                                                 Creating(old(store.Tables()), op), inner)
                      && r == Lifted(inner))
      ensures r.Success? ==>
                && store.clients.Keys == old(store.clients.Keys) + {draw.clientId}
                && store.clients[draw.clientId] ==
                     Client(request.name, Active, Distinct(request.audiences), request.ttlSeconds, request.issueLimit,
                            request.verifyLimit, now, None)
                && store.credentials.Keys == old(store.credentials.Keys) + {draw.issuanceId, draw.verificationId}
                && draw.issuanceId != draw.verificationId
                && store.credentials[draw.issuanceId] ==
                     NewRow(draw.clientId, Issuance, keyring.Copy(),
                            "opi1." + draw.issuanceId + "." + draw.issuanceRandom, now)
                && store.credentials[draw.verificationId] ==
                     NewRow(draw.clientId, Role.Verification, keyring.Copy(),
                            "opv1." + draw.verificationId + "." + draw.verificationRandom, now)
    {
      if request.name == "" || request.audiences == [] || !(1 <= request.ttlSeconds <= 3600)
         || !(1 <= request.issueLimit <= 100_000) || !(1 <= request.verifyLimit <= 100_000)
      {
        return Failure(InvalidClient);
      }
      var failure := keyring.Stable();
      if failure.Some? {
        return Failure(Keyring(failure.value));
      }
      var kid := keyring.currentKid;
      var key := keyring.keys[kid];
      var issuance := NewCredential(draw.issuanceId, draw.clientId, Issuance, kid,
        SecretDigest(key, BearerSecret(Issuance, draw.issuanceId, draw.issuanceRandom)));
      var verification := NewCredential(draw.verificationId, draw.clientId, Role.Verification, kid,
        SecretDigest(key, BearerSecret(Role.Verification, draw.verificationId, draw.verificationRandom)));
      var created := store.CreateClient(draw.clientId, request.name, Distinct(request.audiences), request.ttlSeconds,
                                        request.issueLimit, request.verifyLimit, issuance, verification,
                                        KeyCheck(key), now, eventId);
      r := Lifted(created);
      ghost var op := CreateOp(keyring.Copy(), request, draw, now, eventId);
      SecretTexts(draw.issuanceId, draw.issuanceRandom);
      SecretTexts(draw.verificationId, draw.verificationRandom);
      if r.Success? { CreateCommits(old(store.Tables()), op); }
    }

    /** A replacement is registered only under a keyring generation that is still the one on disk. */
    method RotateCredential(clientId: Id, role: Role, credentialId: Id, random: string, graceSeconds: int,
                            now: int, eventId: Id) returns (r: Result<(Id, int), ServiceError>)
      requires Valid()
      modifies store
      ensures Valid()
      ensures !(0 <= graceSeconds <= 86_400) ==> r == Failure(InvalidGrace) && store.Tables() == old(store.Tables())
      ensures 0 <= graceSeconds <= 86_400 && !keyring.InStep() ==>
                r.Failure? && r.error.Keyring? && store.Tables() == old(store.Tables())
      ensures var op := RotateOp(keyring.Copy(), clientId, role, credentialId, random, graceSeconds, now, eventId);
              && UsesCurrentKey(op, keyring.Copy())
              && (0 <= graceSeconds <= 86_400 && keyring.InStep() ==>
                    exists inner :: AllOrNothing(old(store.Tables()), store.Tables(),
                                                 Rotating(old(store.Tables()), op), inner)
                      && r == Lifted(inner))
      ensures r.Success? ==>
                var (previousId, validUntil) := r.value;
                && validUntil == now + graceSeconds
                && credentialId !in old(store.credentials) && previousId in old(store.credentials)
                && IsCurrent(old(store.credentials)[previousId], clientId, role)
                && store.credentials == old(store.credentials)
                     [previousId :=
                       old(store.credentials)[previousId].(status := Previous, validUntil := Some(validUntil))]
                     [credentialId :=
                       NewRow(clientId, role, keyring.Copy(),
                              (if role == Issuance then "opi1." else "opv1.") + credentialId + "." + random, now)]
    {
      if !(0 <= graceSeconds <= 86_400) {
        return Failure(InvalidGrace);
      }
      var failure := keyring.Stable();
      if failure.Some? {
        return Failure(Keyring(failure.value));
      }
      var kid := keyring.currentKid;
      var key := keyring.keys[kid];
      var secret := BearerSecret(role, credentialId, random);
      var replacement := NewCredential(credentialId, clientId, role, kid, SecretDigest(key, secret));
      var rotated := store.RotateCredential(clientId, role, replacement, KeyCheck(key), graceSeconds, now, eventId);
      r := Lifted(rotated);
      ghost var op := RotateOp(keyring.Copy(), clientId, role, credentialId, random, graceSeconds, now, eventId);
      SecretTexts(credentialId, random);
      if r.Success? {
        RotateCommits(old(store.Tables()), op);
        RotateAnswers(old(store.Tables()), op);
      }
    }

    /**
     * Retiring succeeds only for a previous key that no credential and no proof names; one that a row names is
     * refused. Whatever happens, the keyring keeps serving the ledger.
     */
    method RetireHashKey(kid: Kid) returns (failure: Option<RingError>)
      requires Valid()
      modifies keyring, keyring.file
      ensures Valid()
      ensures failure.None? ==>
                && (forall id :: id in store.credentials ==> store.credentials[id].hashKid != kid)
                && (forall d :: d in store.proofs ==> store.proofs[d].hashKid != kid)
                && keyring.InStep() && keyring.Copy() == Ring(old(keyring.currentKid), old(keyring.keys) - {kid})
      ensures old(keyring.InStep()) && kid != old(keyring.currentKid) && kid in old(keyring.keys) ==>
                (failure == Some(StillInUse) <==>
                  !CredentialsAvoid(store.Tables(), kid) || !ProofsAvoid(store.Tables(), kid))
      ensures old(KeySafe(store.Tables(), keyring.Copy())) ==> KeySafe(store.Tables(), keyring.Copy())
    {
      hide KeySafe, Parsed, SerializedPayload;
      var used := store.HashKeyIsInUse(kid);
      ghost var next := Ring(keyring.currentKid, keyring.keys - {kid});
      PayloadRoundTrip(next);
      failure := keyring.Retire(kid, used);
      assert keyring.Copy() == old(keyring.Copy()) || (!used && kid != next.current && keyring.Copy() == next);
      if old(KeySafe(store.Tables(), keyring.Copy())) && keyring.Copy() != old(keyring.Copy()) {
        UnnamedKeyCanGo(store.Tables(), old(keyring.Copy()), kid);
      }
    }

    /**
     * Ready exactly when the database passes its probes, the ledger is open, and the keyring has, unchanged, every
     * key the ledger names.
     */
    method Ready(probesPass: bool) returns (ready: bool)
      requires Valid()
      ensures ready <==> (probesPass && !Sealed(store.Tables()) && Serviceable(store.Tables(), keyring.Copy()))
    {
      if !probesPass || Sealed(store.Tables()) || keyring.currentKid !in keyring.keys {
        return false;
      }
      ready := KeysAgree(store, keyring);
    }

    /** One on-disk keyring generation together with a sealed copy of the ledger, taken under the file lock. */
    method BackupWith() returns (r: Result<(Schema.Ledger, Json), RingError>)
      requires Valid()
      ensures r.Success? ==>
                && keyring.InStep()
                && r.value.0 == Snapshot(store.Tables())
                && Parsed(r.value.1) == Success(keyring.Copy())
      ensures r.Failure? ==>
                if keyring.InStep() then r.error == WriteFailed else r.error.Unreadable? || r.error == ChangedOnDisk
    {
      var failure := keyring.Stable();
      if failure.Some? {
        return Failure(failure.value);
      }
      var snapshot := store.Backup();
      if snapshot.Failure? {
        return Failure(WriteFailed);
      }
      if * {
        return Failure(WriteFailed);
      }
      PayloadRoundTrip(keyring.Copy());
      return Success((snapshot.value, SerializedPayload(keyring.Copy())));
    }
  }

  method KeysAgree(store: Store, keyring: KeyRing) returns (agree: bool)
    ensures agree <==> Serviceable(store.Tables(), keyring.Copy())
  {
    var checks := store.ReferencedHashKeyChecks();
    if checks.Failure? {
      return false;
    }
    var rest := checks.value.Keys;
    while rest != {}
      invariant rest <= checks.value.Keys
      invariant forall kid :: kid in checks.value && kid !in rest ==> KidSafe(store.Tables(), keyring.Copy(), kid)
      decreases rest
    {
      var kid :| kid in rest;
      if kid !in keyring.keys || KeyCheck(keyring.keys[kid]) != checks.value[kid] {
        assert !KidSafe(store.Tables(), keyring.Copy(), kid);
        return false;
      }
      rest := rest - {kid};
    }
    return true;
  }

  /** A backup is valid when its files are intact, it is still sealed and its keyring serves its ledger. */
  method VerifyBackup(store: Store, keyring: KeyRing, intact: bool) returns (valid: bool)
    ensures valid <==> (intact && Sealed(store.Tables()) && Serviceable(store.Tables(), keyring.Copy()))
  {
    if !intact || !Sealed(store.Tables()) {
      return false;
    }
    valid := KeysAgree(store, keyring);
  }

  /** Every completed backup pair passes that verification, although the server kept working meanwhile. */
  lemma CompletedBackupVerifies(ws: seq<World>, es: seq<Event>, i: nat, k: nat)
    requires IsExecution(ws, es) && i < |ws| && k < |ws[i].backups|
    ensures Sealed(ws[i].backups[k].0) && Serviceable(ws[i].backups[k].0, ws[i].backups[k].1)
  {
    hide Next, After, Enabled;
    BackupPairsRestore(ws, es, i, k);
  }

  /** Whatever a reachable world's server runs on, the readiness condition holds for it. */
  lemma SafeWorldIsReady(w: World, pid: Pid)
    requires Safe(w) && pid in w.procs && w.procs[pid].Serving?
    ensures Serviceable(w.ledger, w.procs[pid].ring)
  {
    assert CopyIsFresh(w, w.procs[pid]);
  }

  /** What a caller is told when a proof is presented as it was asked for. */
  predicate AcceptedAsAsked(reply: Reply, clientId: Id, request: IssueRequest, issuedAt: int, period: int) {
    || (reply.Failed? && reply.error.RateLimited?)
    || (&& reply.Verdict? && reply.answer.origin == Origin.Fresh && reply.answer.result.verified
        && reply.answer.result.claims ==
             Some(ProofClaims(clientId, request.subject, request.purpose, request.audience,
                              issuedAt, issuedAt + period)))
  }

  /**
   * From the request to issue to the reply of the verification. A proof issued for a request, presented with the
   * subject, purpose and audience of that request within the period it asked for, is accepted with exactly those claims
   * or rate limited, whatever undisturbing work goes on in between.
   */
  lemma RequestedProofIsAccepted(ws: seq<World>, es: seq<Event>, k: nat, first: nat, middle: nat, n: nat, pid: Pid,
                                 atAuth: Schema.Ledger, atPolicy: Schema.Ledger, ring: Ring, request: IssueRequest,
                                 random: string, tag: string, preparedAt: int, p: Presentation, id: Id,
                                 times: VerifyTimes, decisionId: Id, eventId: Id)
    requires IsExecution(ws, es) && k < n < |ws| && first <= middle <= n && ServesUntil(ws, first, n, pid)
    requires es[k].ServerWork? && Issues(ws[k].ledger, es[k].op) && ring.current in ring.keys
    requires PrepareIssue(atAuth, atPolicy, ring, request, random, tag, preparedAt, es[k].op.now, es[k].op.eventId)
             == Success(es[k].op)
    requires p.proof == "op1." + ring.current + "." + random && p.key.None?
    requires p.subject == request.subject && p.purpose == request.purpose && p.audience == request.audience
    requires es[k].op.record.clientId in atPolicy.clients
    requires times.locked < es[k].op.now + PeriodAsked(request, atPolicy.clients[es[k].op.record.clientId])
    requires Undisturbed(ws, es, k + 1, n, es[k].op.digest, es[k].op.record.clientId, times.locked)
    requires pid in ws[first].procs && ws[first].procs[pid].Serving?
    requires var ring, clientId := ws[first].procs[pid].ring, es[k].op.record.clientId;
             && VerifierOf(ws[first], ring, p.secret, times.authenticated, id, clientId)
             && VerifierOf(ws[n], ring, p.secret, times.locked, id, clientId)
    requires decisionId !in ws[n].ledger.decisions && eventId !in ws[n].ledger.auditEvents
    ensures var (after, reply) := VerifyReply(ws[first].ledger, ws[middle].ledger, ws[n].ledger,
                                              ws[first].procs[pid].ring, p, times, decisionId, eventId);
            var clientId := es[k].op.record.clientId;
            AcceptedAsAsked(reply, clientId, request, es[k].op.now, PeriodAsked(request, atPolicy.clients[clientId]))
  {
    hide Next, After, Enabled, VerifierOf, VerifyReply, Undisturbed, ServesUntil, Issuing, PrepareIssue;
    PreparedAsAsked(atAuth, atPolicy, ring, request, random, tag, preparedAt, es[k].op.now, es[k].op.eventId);
    RowAsPrepared(es[k].op);
    LiveProofIsAccepted(ws, es, k, first, middle, n, pid, p, id, times, decisionId, eventId);
  }

  lemma RowAsPrepared(op: Op)
    requires op.Issue?
    ensures GrantedRow(IssuedRow(op), op.record, op.now)
  {
  }
}
