/** Retention periods that must agree: proofs, decisions and the keys they name (src/onceproof/store.py:851-914). */
module Retention {
  import opened Wrappers
  import opened Verdict
  import opened KeyringCodec
  import opened Schema
  import opened Transactions
  import opened Runs
  import opened Effects
  import opened Coherence
  import opened Idempotency
  import RateQuota

  // ----- what a cleanup keeps -----

  /** When a superseded credential stopped being accepted. */
  function EndOf(c: Credential): int {
    if c.validUntil.Some? then c.validUntil.value else if c.revokedAt.Some? then c.revokedAt.value else c.createdAt
  }

  /**
   * A cleanup keeps exactly the proofs for an hour past expiry, the decisions for a day, the audit rows for a week, the
   * rate events of the last minute, and the credentials that are current, not over yet, or issuers of a kept proof.
   */
  lemma CleanupIsExact(l: Ledger, now: int)
    ensures var m := Next(l, Clean(now));
            && m.clients == l.clients && m.hashKeys == l.hashKeys && m.restoreRequired == l.restoreRequired
            && m.lastCleanupAt == Some(now)
    ensures var m := Next(l, Clean(now));
            && (forall d :: d in m.proofs <==> d in l.proofs && l.proofs[d].expiresAt >= now - 3_600)
            && (forall d :: d in m.proofs ==> m.proofs[d] == l.proofs[d])
    ensures var m := Next(l, Clean(now));
            && (forall id :: id in m.decisions <==> id in l.decisions && l.decisions[id].createdAt >= now - 86_400)
            && (forall id :: id in m.decisions ==> m.decisions[id] == l.decisions[id])
    ensures var m := Next(l, Clean(now));
            && (forall id :: id in m.auditEvents <==>
                  id in l.auditEvents && l.auditEvents[id].createdAt >= now - 604_800)
            && (forall id :: id in m.auditEvents ==> m.auditEvents[id] == l.auditEvents[id])
    ensures forall e :: e in Next(l, Clean(now)).rateEvents <==> e in l.rateEvents && e.occurredAt > now - 60
    ensures var m := Next(l, Clean(now));
            && (forall id :: id in m.credentials <==>
                  && id in l.credentials
                  && (|| l.credentials[id].status == Current || EndOf(l.credentials[id]) >= now
                      || exists d :: d in l.proofs && l.proofs[d].expiresAt >= now - 3_600
                           && l.proofs[d].issueCredentialId == id))
            && (forall id :: id in m.credentials ==> m.credentials[id] == l.credentials[id])
  {
    NextOfUpkeep(l, Clean(now));
    RateQuota.PruneSelects(l.rateEvents, now - 60);
    hide Next, Prune;
  }

  // ----- a consumed proof keeps the decision that consumed it -----

  /** The decision a consumed proof names is there, and says the proof was accepted. */
  ghost predicate Explained(l: Ledger, p: Proof) {
    p.consumedAt.Some? && p.consumedBy.Some? && p.expiresAt - p.consumedAt.value <= 82_800 ==>
      && p.consumedBy.value in l.decisions
      && l.decisions[p.consumedBy.value].createdAt == p.consumedAt.value
      && l.decisions[p.consumedBy.value].resultJson ==
           ToDict(AcceptedResult(p, p.consumedBy.value, p.consumedAt.value))
  }

  ghost predicate AllExplained(l: Ledger) {
    forall d :: d in l.proofs ==> Explained(l, l.proofs[d])
  }

  lemma KeepsExplained(l: Ledger, op: Op, d: TokenDigest)
    requires AllExplained(l) && d in Next(l, op).proofs
    ensures Explained(Next(l, op), Next(l, op).proofs[d])
  {
    hide ToDict, Next;
    var m := Next(l, op);
    var p := m.proofs[d];
    ProofSteps(l, op, d);
    if Accepts(l, op) { AcceptCommits(l, op); DecideCommits(l, op); }
    if p.consumedAt.Some? && p.consumedBy.Some? && d in l.proofs {
      assert Explained(l, l.proofs[d]);
      DecisionSteps(l, op, p.consumedBy.value);
      if op.Clean? { CleanupKeepsRecent(l, op, d); }
    }
  }

  lemma CleanupKeepsRecent(l: Ledger, op: Op, d: TokenDigest)
    requires op.Clean? && d in Next(l, op).proofs
    ensures d in l.proofs && Next(l, op).proofs[d] == l.proofs[d] && l.proofs[d].expiresAt >= op.now - 3_600
  {
  }

  lemma {:induction false} ReachableIsExplained(run: Run, i: nat)
    requires IsRun(run) && i < |run.states|
    ensures AllExplained(run.states[i])
  {
    if i > 0 {
      ReachableIsExplained(run, i - 1);
      forall d | d in run.states[i].proofs ensures Explained(run.states[i], run.states[i].proofs[d]) {
        KeepsExplained(run.states[i - 1], run.ops[i - 1], d);
      }
    }
  }

  ghost predicate ShortLived(l: Ledger) {
    forall d :: d in l.proofs ==> l.proofs[d].expiresAt <= l.proofs[d].issuedAt + 3600
  }

  lemma {:induction false} ReachableIsShortLived(run: Run, i: nat)
    requires IsRun(run) && AllValidated(run) && i < |run.states|
    ensures ShortLived(run.states[i])
  {
    if i > 0 {
      ReachableIsShortLived(run, i - 1);
      var l, op := run.states[i - 1], run.ops[i - 1];
      forall d | d in run.states[i].proofs
        ensures run.states[i].proofs[d].expiresAt <= run.states[i].proofs[d].issuedAt + 3600
      {
        ProofSteps(l, op, d);
      }
    }
  }

  /**
   * Whatever the cleanup times, a retained consumed proof has its decision, as long as the clock that
   * consumed it was not more than 79,200 seconds behind the clock that issued it.
   */
  lemma RetainedProofHasDecision(run: Run, i: nat, d: TokenDigest)
    requires IsRun(run) && AllValidated(run) && i < |run.states| && d in run.states[i].proofs
    requires var p := run.states[i].proofs[d]; p.consumedAt.Some? && p.consumedAt.value >= p.issuedAt - 79_200
    ensures var l := run.states[i];
            var p := l.proofs[d];
            && p.consumedBy.Some? && p.consumedBy.value in l.decisions
            && FromDict(l.decisions[p.consumedBy.value].resultJson) ==
                 Success(AcceptedResult(p, p.consumedBy.value, p.consumedAt.value))
    ensures var l := run.states[i];
            l.proofs[d].issueCredentialId in l.credentials
            && l.credentials[l.proofs[d].issueCredentialId].clientId == l.proofs[d].clientId
  {
    var l := run.states[i];
    var p := l.proofs[d];
    ReachableIsExplained(run, i);
    ReachableIsShortLived(run, i);
    ReachableIsCoherent(run, i);
    ReachableIsPersistent(run, i);
    assert Explained(l, p) && ProofReferences(l, p);
    assert Decodable(p.consumedBy.value, l.decisions[p.consumedBy.value]);
    EncodeThenDecode(AcceptedResult(p, p.consumedBy.value, p.consumedAt.value));
  }

  /** The span is the exact bound: past it some cleanup time keeps the proof and drops its decision. */
  lemma SpanIsExact(l: Ledger, d: TokenDigest)
    requires d in l.proofs && l.proofs[d].consumedAt.Some? && l.proofs[d].consumedBy.Some?
    requires var p := l.proofs[d];
             p.consumedBy.value in l.decisions && l.decisions[p.consumedBy.value].createdAt == p.consumedAt.value
    ensures (forall now :: d in Cleanup(l, now).proofs ==> l.proofs[d].consumedBy.value in Cleanup(l, now).decisions)
            <==> l.proofs[d].expiresAt - l.proofs[d].consumedAt.value <= 82_800
  {
    var p := l.proofs[d];
    if p.expiresAt - p.consumedAt.value > 82_800 {
      var now := p.expiresAt + 3_600;
      assert d in Cleanup(l, now).proofs && p.consumedBy.value !in Cleanup(l, now).decisions;
    }
  }

  // ----- when a root key can be retired -----

  /** By time t: nothing expires later than the longest TTL, no superseded credential outlives its grace. */
  ghost predicate Dated(l: Ledger, t: int, grace: nat) {
    && (forall d :: d in l.proofs ==> l.proofs[d].expiresAt <= t + 3600)
    && (forall id :: id in l.credentials && l.credentials[id].status != Current ==>
          l.credentials[id].validUntil.Some? && l.credentials[id].validUntil.value <= t + grace)
  }

  ghost predicate Before(op: Op, t: int, grace: nat) {
    Validated(op) && op.now <= t && (op.Rotate? ==> 0 <= op.graceSeconds <= grace)
  }

  lemma {:induction false} PrefixIsDated(run: Run, k: nat, t: int, grace: nat)
    requires IsRun(run) && k < |run.states|
    requires forall i :: 0 <= i < k ==> Before(run.ops[i], t, grace)
    ensures Dated(run.states[k], t, grace)
  {
    if k > 0 {
      PrefixIsDated(run, k - 1, t, grace);
      var l, op, m := run.states[k - 1], run.ops[k - 1], run.states[k];
      forall d | d in m.proofs ensures m.proofs[d].expiresAt <= t + 3600 { ProofSteps(l, op, d); }
      forall id | id in m.credentials && m.credentials[id].status != Current
        ensures m.credentials[id].validUntil.Some? && m.credentials[id].validUntil.value <= t + grace
      {
        CredentialSteps(l, op, id);
      }
    }
  }

  /** After the root key was rotated and the server restarted: no new row names the old key. */
  ghost predicate AvoidsKey(op: Op, kid: Kid) {
    && Validated(op)
    && (op.Issue? ==> op.record.hashKid != kid)
    && (op.Create? || op.Rotate? ==> op.kid != kid)
  }

  /** A superseded row that no grace explains: its client was revoked, which stamps the row again. */
  ghost predicate StampedAgain(c: Credential, since: Option<int>) {
    c.status == Revoked && c.validUntil.Some? && (since.Some? ==> c.validUntil.value < since.value)
  }

  /** What remains of the old key: superseded credentials and the proofs they or the old server issued. */
  ghost predicate Fading(l: Ledger, kid: Kid, t: int, grace: nat, since: Option<int>) {
    && (forall id :: id in l.credentials && l.credentials[id].hashKid == kid ==>
          && l.credentials[id].status != Current
          && l.credentials[id].validUntil.Some?
          && (l.credentials[id].validUntil.value <= t + grace || StampedAgain(l.credentials[id], since)))
    && (forall d :: d in l.proofs && l.proofs[d].hashKid == kid ==> l.proofs[d].expiresAt <= t + grace + 3600)
    && (forall d | d in l.proofs && l.proofs[d].issueCredentialId in l.credentials
                   && l.credentials[l.proofs[d].issueCredentialId].hashKid == kid
          :: l.proofs[d].expiresAt <= t + grace + 3600)
  }

  ghost predicate RevokesBefore(op: Op, since: Option<int>) {
    (op.Revoke? || op.Activate?) && since.Some? ==> op.now < since.value
  }

  lemma KeepsFading(l: Ledger, op: Op, kid: Kid, t: int, grace: nat, since: Option<int>)
    requires References(l) && Fading(l, kid, t, grace, since) && AvoidsKey(op, kid) && RevokesBefore(op, since)
    ensures Fading(Next(l, op), kid, t, grace, since)
  {
    hide Next, Creating, Issues, Decides, Accepts, RevokeClient, ActivateRestoredBackup;
    var m := Next(l, op);
    forall id | id in m.credentials && m.credentials[id].hashKid == kid
      ensures && m.credentials[id].status != Current
              && m.credentials[id].validUntil.Some?
              && (m.credentials[id].validUntil.value <= t + grace || StampedAgain(m.credentials[id], since))
    {
      CredentialSteps(l, op, id);
    }
    forall d | d in m.proofs
      ensures m.proofs[d].hashKid == kid ==> m.proofs[d].expiresAt <= t + grace + 3600
      ensures m.proofs[d].issueCredentialId in m.credentials
              && m.credentials[m.proofs[d].issueCredentialId].hashKid == kid ==>
              m.proofs[d].expiresAt <= t + grace + 3600
    {
      FadingProof(l, op, kid, t, grace, since, d);
    }
  }

  lemma FadingProof(l: Ledger, op: Op, kid: Kid, t: int, grace: nat, since: Option<int>, d: TokenDigest)
    requires References(l) && Fading(l, kid, t, grace, since) && AvoidsKey(op, kid)
    requires d in Next(l, op).proofs
    ensures var m := Next(l, op);
            && (m.proofs[d].hashKid == kid ==> m.proofs[d].expiresAt <= t + grace + 3600)
            && (m.proofs[d].issueCredentialId in m.credentials
                && m.credentials[m.proofs[d].issueCredentialId].hashKid == kid ==>
                  m.proofs[d].expiresAt <= t + grace + 3600)
  {
    hide Next, Issues, Creates, Rotates, Decides, Accepts, Revokes, Activates, Fading, References;
    var q := Next(l, op).proofs[d];
    ProofSteps(l, op, d);
    if d in l.proofs {
      IssuerIsKnown(l, d);
      FadingRow(l, kid, t, grace, since, d);
    } else {
      FadingIssue(l, op, kid, t, grace, since);
    }
    if q.issueCredentialId in Next(l, op).credentials { IssuerKeepsKey(l, op, q.issueCredentialId); }
  }

  lemma IssuerIsKnown(l: Ledger, d: TokenDigest)
    requires References(l) && d in l.proofs
    ensures l.proofs[d].issueCredentialId in l.credentials
  {
    assert ProofReferences(l, l.proofs[d]);
  }

  lemma FadingRow(l: Ledger, kid: Kid, t: int, grace: nat, since: Option<int>, d: TokenDigest)
    requires Fading(l, kid, t, grace, since) && d in l.proofs && l.proofs[d].issueCredentialId in l.credentials
    ensures l.proofs[d].hashKid == kid || l.credentials[l.proofs[d].issueCredentialId].hashKid == kid ==>
              l.proofs[d].expiresAt <= t + grace + 3600
  {
  }

  lemma IssuerKeepsKey(l: Ledger, op: Op, id: Id)
    requires id in l.credentials && id in Next(l, op).credentials
    ensures Next(l, op).credentials[id].hashKid == l.credentials[id].hashKid
  {
    hide Next;
    CredentialSteps(l, op, id);
  }

  /** A fading credential that still issues is in its grace, so what it issues fades as well. */
  lemma FadingIssue(l: Ledger, op: Op, kid: Kid, t: int, grace: nat, since: Option<int>)
    requires Fading(l, kid, t, grace, since) && AvoidsKey(op, kid) && Issues(l, op)
    ensures op.record.hashKid != kid && op.record.issueCredentialId in l.credentials
    ensures l.credentials[op.record.issueCredentialId].hashKid == kid ==> IssuedRow(op).expiresAt <= t + grace + 3600
  {
    hide Next;
    IssueCommits(l, op);
  }

  lemma {:induction false} StaysFading(run: Run, k: nat, n: nat, kid: Kid, t: int, grace: nat, since: Option<int>)
    requires IsRun(run) && k <= n < |run.states|
    requires Fading(run.states[k], kid, t, grace, since)
    requires forall i :: k <= i < n ==> AvoidsKey(run.ops[i], kid) && RevokesBefore(run.ops[i], since)
    ensures Fading(run.states[n], kid, t, grace, since)
  {
    if k < n {
      StaysFading(run, k, n - 1, kid, t, grace, since);
      ReachableIsCoherent(run, n - 1);
      KeepsFading(run.states[n - 1], run.ops[n - 1], kid, t, grace, since);
    }
  }

  /** A credential of the key whose revocation carries the cleanup time or a later one. */
  ghost predicate HeldBack(l: Ledger, kid: Kid, cleanedAt: int) {
    exists id :: id in l.credentials && RevokedFrom(l.credentials[id], kid, cleanedAt)
  }

  ghost predicate RevokedFrom(c: Credential, kid: Kid, cleanedAt: int) {
    c.hashKid == kid && c.status == Revoked && c.validUntil.Some? && c.validUntil.value >= cleanedAt
  }

  lemma CleanupOfFading(l: Ledger, kid: Kid, t: int, grace: nat, since: Option<int>, cleanedAt: int)
    requires Fading(l, kid, t, grace, since) && cleanedAt > t + grace + 7200
    ensures ProofsAvoid(Cleanup(l, cleanedAt), kid)
    ensures !CredentialsAvoid(Cleanup(l, cleanedAt), kid) <==> HeldBack(l, kid, cleanedAt)
  {
    var m := Cleanup(l, cleanedAt);
    forall id | id in l.credentials && l.credentials[id].hashKid == kid
      ensures id in m.credentials <==> RevokedFrom(l.credentials[id], kid, cleanedAt)
    {
      assert !IssuedSomething(m.proofs, id);
    }
  }

  /** After the rotations: graces so far at most `grace`, no current credential left on the key, no new use of it. */
  ghost predicate LeavesKey(run: Run, k: nat, n: nat, kid: Kid, t: int, grace: nat)
    requires |run.states| == |run.ops| + 1 && k <= n <= |run.ops|
  {
    && (forall i :: 0 <= i < k ==> Before(run.ops[i], t, grace))
    && (forall id :: id in run.states[k].credentials && run.states[k].credentials[id].status == Current ==>
          run.states[k].credentials[id].hashKid != kid)
    && (forall i :: k <= i < n ==> AvoidsKey(run.ops[i], kid))
  }

  /**
   * If by time t every current credential has left the old key, and graces were at most `grace`, then one cleanup
   * later than t + grace + 7200 removes every row naming it, so retiring the key finds it unused, exactly when no
   * client was revoked, on a row of that key, at the cleanup time or later.
   */
  lemma RetirementIsExact(run: Run, k: nat, n: nat, kid: Kid, t: int, grace: nat)
    requires IsRun(run) && k <= n < |run.ops| && LeavesKey(run, k, n, kid, t, grace)
    requires run.ops[n].Clean? && run.ops[n].now > t + grace + 7200
    ensures ProofsAvoid(run.states[n + 1], kid)
    ensures !CredentialsAvoid(run.states[n + 1], kid) <==> HeldBack(run.states[n], kid, run.ops[n].now)
  {
    PrefixIsDated(run, k, t, grace);
    assert Fading(run.states[k], kid, t, grace, None);
    StaysFading(run, k, n, kid, t, grace, None);
    CleanupOfFading(run.states[n], kid, t, grace, None, run.ops[n].now);
  }

  /** In particular the bound holds whenever every revocation carries an earlier time than the cleanup. */
  lemma RetirementBound(run: Run, k: nat, n: nat, kid: Kid, t: int, grace: nat)
    requires IsRun(run) && k <= n < |run.ops| && LeavesKey(run, k, n, kid, t, grace)
    requires run.ops[n].Clean? && run.ops[n].now > t + grace + 7200
    requires forall i :: k <= i < n && (run.ops[i].Revoke? || run.ops[i].Activate?) ==> run.ops[i].now < run.ops[n].now
    ensures CredentialsAvoid(run.states[n + 1], kid) && ProofsAvoid(run.states[n + 1], kid)
  {
    PrefixIsDated(run, k, t, grace);
    var since := Some(run.ops[n].now);
    assert Fading(run.states[k], kid, t, grace, since);
    StaysFading(run, k, n, kid, t, grace, since);
    CleanupOfFading(run.states[n], kid, t, grace, since, run.ops[n].now);
  }

  // ----- a run in which the bound fails -----

  lemma CreationSucceeds(l: Ledger, op: Op)
    requires op.Create? && !Sealed(l) && References(l)
    requires op.clientId !in l.clients && op.eventId !in l.auditEvents
    requires op.kid in l.hashKeys ==> l.hashKeys[op.kid] == op.check
    requires op.issuanceId !in l.credentials && op.verificationId !in l.credentials
    requires op.issuanceId != op.verificationId
    requires 1 <= op.ttlSeconds <= 3600 && 1 <= op.issueLimit <= 100_000 && 1 <= op.verifyLimit <= 100_000
    ensures Creates(l, op)
  {
  }

  lemma RotationSucceeds(l: Ledger, op: Op)
    requires op.Rotate? && !Sealed(l) && References(l) && OneCurrent(l)
    requires op.clientId in l.clients && l.clients[op.clientId].status == Active && HasCurrent(l, op.clientId, op.role)
    requires op.kid in l.hashKeys ==> l.hashKeys[op.kid] == op.check
    requires op.credentialId !in l.credentials && op.eventId !in l.auditEvents
    ensures Rotates(l, op)
  {
    var r := RegisterHashKey(l, op.kid, op.check).value;
    var id :| id in l.credentials && IsCurrent(l.credentials[id], op.clientId, op.role);
    assert CurrentCredential(r, op.clientId, op.role) == Some(id);
  }

  function Superseding(role: Role, id: Id, newKey: Key, eventId: Id): Op {
    Rotate("opc_1", role, id, "hk_new", SecretDigest(newKey, id), KeyCheck(newKey), 0, 0, eventId)
  }

  /** A client created at time 0 under `hk_old`. */
  function Founding(oldKey: Key): Op {
    Create("opc_1", "shop", ["urn:shop"], 120, 1, 1, "hk_old", KeyCheck(oldKey),
           "ic_1", SecretDigest(oldKey, "ic_1"), "vc_1", SecretDigest(oldKey, "vc_1"), 0, "ae_1")
  }

  /** Create under one key, rotate both roles to another, revoke the client much later, clean up in the same second. */
  function HeldBackOps(oldKey: Key, newKey: Key): seq<Op> {
    [Founding(oldKey),
     Superseding(Issuance, "ic_2", newKey, "ae_2"),
     Superseding(Role.Verification, "vc_2", newKey, "ae_3"),
     Revoke("opc_1", 1_000_000, "ae_4"),
     Clean(1_000_000)]
  }

  /** The four names of credentials and the two of keys are different. */
  lemma NamesDiffer()
    ensures "ic_1" != "vc_1" && "ic_1" != "ic_2" && "ic_1" != "vc_2"
    ensures "vc_1" != "ic_2" && "vc_1" != "vc_2" && "ic_2" != "vc_2"
    ensures "hk_old" != "hk_new"
    ensures "ae_1" != "ae_2" && "ae_1" != "ae_3" && "ae_1" != "ae_4"
    ensures "ae_2" != "ae_3" && "ae_2" != "ae_4" && "ae_3" != "ae_4"
  {
    assert "ic_1"[0] != "vc_1"[0] && "ic_1"[0] != "vc_2"[0] && "ic_2"[0] != "vc_1"[0] && "ic_2"[0] != "vc_2"[0];
    assert "ic_1"[3] != "ic_2"[3] && "vc_1"[3] != "vc_2"[3] && "hk_old"[3] != "hk_new"[3];
    assert "ae_1"[3] != "ae_2"[3] && "ae_1"[3] != "ae_3"[3] && "ae_1"[3] != "ae_4"[3];
    assert "ae_2"[3] != "ae_3"[3] && "ae_2"[3] != "ae_4"[3] && "ae_3"[3] != "ae_4"[3];
  }

  /** An open ledger of one active client with these credentials and audit events, and no proofs. */
  ghost predicate OneClient(l: Ledger, credentials: map<Id, Credential>, events: set<Id>) {
    && Coherent(l) && !Sealed(l)
    && "opc_1" in l.clients && l.clients["opc_1"].status == Active
    && l.credentials == credentials && l.auditEvents.Keys == events
  }

  function OnOldKey(role: Role, id: Id, oldKey: Key, status: CredentialStatus, validUntil: Option<int>): Credential {
    Credential("opc_1", role, "hk_old", SecretDigest(oldKey, id), status, 0, validUntil, None)
  }

  function OnNewKey(role: Role, id: Id, newKey: Key): Credential {
    Credential("opc_1", role, "hk_new", SecretDigest(newKey, id), Current, 0, None, None)
  }

  lemma AfterCreation(oldKey: Key, newKey: Key)
    ensures var l := Next(EMPTY, HeldBackOps(oldKey, newKey)[0]);
            && OneClient(l, map["ic_1" := OnOldKey(Issuance, "ic_1", oldKey, Current, None),
                                "vc_1" := OnOldKey(Role.Verification, "vc_1", oldKey, Current, None)], {"ae_1"})
            && "hk_new" !in l.hashKeys
  {
    hide Next, Creates, Coherent;
    var op := HeldBackOps(oldKey, newKey)[0];
    NamesDiffer();
    CreationSucceeds(EMPTY, op);
    CreateCommits(EMPTY, op);
    EmptyIsCoherent();
    KeepsCoherent(EMPTY, op);
  }

  lemma AfterRotation(l: Ledger, credentials: map<Id, Credential>, events: set<Id>, role: Role, currentId: Id, id: Id,
                      newKey: Key, eventId: Id)
    requires OneClient(l, credentials, events) && eventId !in events && id !in credentials
    requires currentId in credentials && IsCurrent(credentials[currentId], "opc_1", role)
    requires "hk_new" in l.hashKeys ==> l.hashKeys["hk_new"] == KeyCheck(newKey)
    ensures var m := Next(l, Superseding(role, id, newKey, eventId));
            && OneClient(m, credentials[currentId := credentials[currentId].(status := Previous, validUntil := Some(0))]
                                       [id := OnNewKey(role, id, newKey)], events + {eventId})
            && "hk_new" in m.hashKeys && m.hashKeys["hk_new"] == KeyCheck(newKey)
  {
    hide Next, Rotates;
    var op := Superseding(role, id, newKey, eventId);
    RotationSucceeds(l, op);
    RotateCommits(l, op);
    KeepsCoherent(l, op);
  }

  /** A revocation restamps a row however long lapsed, and no cleanup up to that time removes it. */
  lemma RevokedThenCleaned(l: Ledger, op: Op, id: Id)
    requires op.Revoke? && !Sealed(l) && op.eventId !in l.auditEvents
    requires op.clientId in l.clients && l.clients[op.clientId].status == Active
    requires id in l.credentials && l.credentials[id].clientId == op.clientId && l.credentials[id].status != Revoked
    ensures forall cleanedAt :: cleanedAt <= op.now ==>
              !CredentialsAvoid(Next(Next(l, op), Clean(cleanedAt)), l.credentials[id].hashKid)
  {
    assert Revokes(l, op);
    RevokeCommits(l, op);
    var m := Next(l, op);
    assert m.credentials[id] == RevokedCredential(l.credentials[id], op.now);
    forall cleanedAt | cleanedAt <= op.now
      ensures !CredentialsAvoid(Next(m, Clean(cleanedAt)), l.credentials[id].hashKid)
    {
      assert id in Cleanup(m, cleanedAt).credentials;
    }
  }

  lemma AfterBothRotations(oldKey: Key, newKey: Key)
    ensures var ops := HeldBackOps(oldKey, newKey);
            OneClient(Next(Next(Next(EMPTY, ops[0]), ops[1]), ops[2]), map[
              "ic_1" := OnOldKey(Issuance, "ic_1", oldKey, Previous, Some(0)),
              "vc_1" := OnOldKey(Role.Verification, "vc_1", oldKey, Previous, Some(0)),
              "ic_2" := OnNewKey(Issuance, "ic_2", newKey),
              "vc_2" := OnNewKey(Role.Verification, "vc_2", newKey)], {"ae_1", "ae_2", "ae_3"})
  {
    hide Next, Coherent, Superseding;
    var ops := HeldBackOps(oldKey, newKey);
    NamesDiffer();
    AfterCreation(oldKey, newKey);
    var s1 := Next(EMPTY, ops[0]);
    AfterRotation(s1, s1.credentials, {"ae_1"}, Issuance, "ic_1", "ic_2", newKey, "ae_2");
    var s2 := Next(s1, ops[1]);
    AfterRotation(s2, s2.credentials, {"ae_1", "ae_2"}, Role.Verification, "vc_1", "vc_2", newKey, "ae_3");
  }

  ghost function HeldBackRun(oldKey: Key, newKey: Key): Run {
    var ops := HeldBackOps(oldKey, newKey);
    var s1 := Next(EMPTY, ops[0]);
    var s2 := Next(s1, ops[1]);
    var s3 := Next(s2, ops[2]);
    var s4 := Next(s3, ops[3]);
    Run([EMPTY, s1, s2, s3, s4, Next(s4, ops[4])], ops)
  }

  /** A revocation in the second of the cleanup keeps the key in use, eleven days after the last grace ended. */
  lemma RetirementCanBeHeldBack(oldKey: Key, newKey: Key)
    ensures var run := HeldBackRun(oldKey, newKey);
            && IsRun(run) && LeavesKey(run, 3, 4, "hk_old", 0, 0)
            && run.ops[4] == Clean(1_000_000)
            && !CredentialsAvoid(run.states[5], "hk_old")
  {
    hide Next, Coherent, CredentialsAvoid;
    NamesDiffer();
    AfterBothRotations(oldKey, newKey);
    RevokedThenCleaned(HeldBackRun(oldKey, newKey).states[3], HeldBackOps(oldKey, newKey)[3], "ic_1");
  }

  // ----- a run in which a retained proof loses its decision -----

  function BackwardDigest(key: Key): TokenDigest {
    Keyed(key, "op1.hk_old.r")
  }

  /** Issued at 100,000 for a minute, consumed by a clock that had run back to 13, cleaned up at 90,000. */
  function BackwardOps(key: Key): seq<Op> {
    [Founding(key),
     Issue(BackwardDigest(key),
           Proof("pf_1", "hk_old", "opc_1", "ic_1", "s", "p", "urn:shop", 100_000, 100_060, None, None),
           KeyCheck(key), 100_000, "ae_2"),
     Verify("vc_1", "opc_1", Request(BackwardDigest(key), "s", "p", "urn:shop"), None, 13, "vr_1", "ae_3"),
     Clean(90_000)]
  }

  ghost function BackwardRun(key: Key): Run {
    var ops := BackwardOps(key);
    var s1 := Next(EMPTY, ops[0]);
    var s2 := Next(s1, ops[1]);
    var s3 := Next(s2, ops[2]);
    Run([EMPTY, s1, s2, s3, Next(s3, ops[3])], ops)
  }

  lemma BackwardCreates(key: Key)
    ensures Creates(EMPTY, Founding(key))
  {
    NamesDiffer();
    EmptyIsCoherent();
    CreationSucceeds(EMPTY, Founding(key));
  }

  lemma BackwardIssues(key: Key)
    ensures Issues(BackwardRun(key).states[1], BackwardOps(key)[1])
  {
    hide Next;
    NamesDiffer();
    BackwardCreates(key);
    CreateCommits(EMPTY, Founding(key));
  }

  lemma IssueTakesNoVerifySlot(clientId: Id, issuedAt: int, now: int)
    ensures Slots(Prune([RateEvent(clientId, IssueSlot, issuedAt)], now - 60), clientId, VerifySlot, now - 60) == []
  {
    var e := RateEvent(clientId, IssueSlot, issuedAt);
    assert [e][..0] == [];
    assert Prune([e], now - 60) == (if e.occurredAt <= now - 60 then [] else [e]);
  }

  lemma BackwardAccepts(key: Key)
    ensures Accepts(BackwardRun(key).states[2], BackwardOps(key)[2])
  {
    hide Next, Prune, Slots, Accepts, Issues, Creates;
    NamesDiffer();
    BackwardCreates(key);
    CreateCommits(EMPTY, Founding(key));
    BackwardIssues(key);
    IssueCommits(BackwardRun(key).states[1], BackwardOps(key)[1]);
    PruneOfNothing(99_940);
    assert BackwardRun(key).states[2].rateEvents == [RateEvent("opc_1", IssueSlot, 100_000)];
    IssueTakesNoVerifySlot("opc_1", 100_000, 13);
    AcceptanceSucceeds(BackwardRun(key).states[2], BackwardOps(key)[2]);
  }

  lemma PruneOfNothing(cutoff: int)
    ensures Prune([], cutoff) == []
  {
  }

  /** With a clock that ran back a day, a proof is retained although the decision it names is gone. */
  lemma DecisionCanBeLost(key: Key)
    ensures var run := BackwardRun(key);
            && IsRun(run) && AllValidated(run)
            && BackwardDigest(key) in run.states[4].proofs
            && run.states[4].proofs[BackwardDigest(key)].consumedBy == Some("vr_1")
            && "vr_1" !in run.states[4].decisions
  {
    hide Next, Decides, Issues, Creates, Prune, ToDict;
    BackwardIssues(key);
    BackwardAccepts(key);
    IssueCommits(BackwardRun(key).states[1], BackwardOps(key)[1]);
    AcceptCommits(BackwardRun(key).states[2], BackwardOps(key)[2]);
    DecideCommits(BackwardRun(key).states[2], BackwardOps(key)[2]);
    CleanedAway(BackwardRun(key).states[3], BackwardDigest(key));
  }

  lemma CleanedAway(l: Ledger, d: TokenDigest)
    requires d in l.proofs && l.proofs[d].expiresAt == 100_060
    requires "vr_1" in l.decisions && l.decisions["vr_1"].createdAt == 13
    ensures var m := Next(l, Clean(90_000));
            d in m.proofs && m.proofs[d] == l.proofs[d] && "vr_1" !in m.decisions
  {
  }
}
