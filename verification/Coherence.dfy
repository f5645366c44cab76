/** What every reachable ledger satisfies, and the life of clients and credentials over a run. */
module Coherence {
  import opened Schema
  import opened Transactions
  import opened Runs
  import opened Effects

  // ----- invariants -----

  /** The issuer of a proof is an issuance credential of the proof's own client. */
  ghost predicate ProofReferences(l: Ledger, p: Proof) {
    && p.clientId in l.clients
    && p.issueCredentialId in l.credentials
    && l.credentials[p.issueCredentialId].clientId == p.clientId
    && l.credentials[p.issueCredentialId].role == Issuance
  }

  ghost predicate References(l: Ledger) {
    && (forall id :: id in l.credentials ==> l.credentials[id].clientId in l.clients)
    && (forall d :: d in l.proofs ==> ProofReferences(l, l.proofs[d]))
    && (forall id :: id in l.decisions ==> l.decisions[id].clientId in l.clients)
  }

  ghost predicate OneCurrent(l: Ledger) {
    UniqueCurrent(l.credentials)
  }

  ghost predicate HasCurrent(l: Ledger, clientId: Id, role: Role) {
    exists id :: id in l.credentials && IsCurrent(l.credentials[id], clientId, role)
  }

  ghost predicate ActiveHasCurrent(l: Ledger) {
    forall clientId, role ::
      clientId in l.clients && l.clients[clientId].status == Active ==> HasCurrent(l, clientId, role)
  }

  ghost predicate ClosedHasNone(l: Ledger) {
    forall id | id in l.credentials && l.credentials[id].clientId in l.clients
                && l.clients[l.credentials[id].clientId].status == Closed :: l.credentials[id].status == Revoked
  }

  ghost predicate SupersededIsDated(l: Ledger) {
    forall id :: id in l.credentials && l.credentials[id].status != Current ==> l.credentials[id].validUntil.Some?
  }

  ghost predicate OneDecisionPerKey(l: Ledger) {
    UniqueKeys(l.decisions)
  }

  ghost predicate ConsumedTogether(l: Ledger) {
    forall d :: d in l.proofs ==> (l.proofs[d].consumedAt.Some? <==> l.proofs[d].consumedBy.Some?)
  }

  ghost predicate Coherent(l: Ledger) {
    && References(l) && OneCurrent(l) && ActiveHasCurrent(l) && ClosedHasNone(l)
    && SupersededIsDated(l) && OneDecisionPerKey(l) && ConsumedTogether(l)
  }

  // ----- preservation -----

  lemma IssueReferences(l: Ledger, op: Op)
    requires Issues(l, op)
    ensures ProofReferences(Next(l, op), IssuedRow(op))
  {
    hide Next;
    IssueCommits(l, op);
    hide Issues;
  }

  lemma KeepsProofReferences(l: Ledger, op: Op, d: TokenDigest)
    requires References(l) && d in Next(l, op).proofs
    ensures ProofReferences(Next(l, op), Next(l, op).proofs[d])
  {
    hide Next, Issues, Creates, Rotates, Decides, Accepts, Revokes, Activates, Deletable;
    var m := Next(l, op);
    var p := m.proofs[d];
    ProofSteps(l, op, d);
    if d !in l.proofs {
      IssueReferences(l, op);
    } else {
      assert ProofReferences(l, l.proofs[d]);
      ClientSteps(l, op, p.clientId);
      CredentialSteps(l, op, p.issueCredentialId);
      assert IssuedSomething(m.proofs, p.issueCredentialId);
    }
  }

  lemma KeepsReferences(l: Ledger, op: Op)
    requires References(l)
    ensures References(Next(l, op))
  {
    var m := Next(l, op);
    hide Next, Creates, Rotates, Decides, Issues, Accepts, Revokes, Activates;
    forall id | id in m.credentials
      ensures m.credentials[id].clientId in m.clients
    {
      CredentialSteps(l, op, id);
      ClientSteps(l, op, m.credentials[id].clientId);
      if Creates(l, op) { CreateCommits(l, op); }
      if Rotates(l, op) { RotateCommits(l, op); }
    }
    forall d | d in m.proofs
      ensures ProofReferences(m, m.proofs[d])
    {
      KeepsProofReferences(l, op, d);
    }
    forall id | id in m.decisions
      ensures m.decisions[id].clientId in m.clients
    {
      DecisionSteps(l, op, id);
      if Decides(l, op) { DecideCommits(l, op); }
      ClientSteps(l, op, m.decisions[id].clientId);
    }
  }

  lemma KeepsOneCurrent(l: Ledger, op: Op)
    requires References(l) && OneCurrent(l)
    ensures OneCurrent(Next(l, op))
  {
    var m := Next(l, op);
    if Creates(l, op) { CreateCommits(l, op); }
    if Rotates(l, op) { RotateCommits(l, op); }
    forall a, b, clientId, role | a in m.credentials && b in m.credentials
      && IsCurrent(m.credentials[a], clientId, role) && IsCurrent(m.credentials[b], clientId, role)
      ensures a == b
    {
      CredentialSteps(l, op, a);
      CredentialSteps(l, op, b);
    }
  }

  lemma CurrentStays(l: Ledger, op: Op, id: Id, clientId: Id, role: Role)
    requires id in l.credentials && IsCurrent(l.credentials[id], clientId, role)
    requires clientId in Next(l, op).clients && Next(l, op).clients[clientId].status == Active
    requires !(Rotates(l, op) && clientId == op.clientId && role == op.role)
    ensures id in Next(l, op).credentials && IsCurrent(Next(l, op).credentials[id], clientId, role)
  {
    CredentialSteps(l, op, id);
    if Revokes(l, op) { RevokeCommits(l, op); }
    if Activates(l, op) { ActivateCommits(l, op); }
    hide Next;
  }

  lemma KeepsActiveHasCurrent(l: Ledger, op: Op)
    requires References(l) && ActiveHasCurrent(l)
    ensures ActiveHasCurrent(Next(l, op))
  {
    hide Next;
    var m := Next(l, op);
    forall clientId, role | clientId in m.clients && m.clients[clientId].status == Active
      ensures HasCurrent(m, clientId, role)
    {
      ClientSteps(l, op, clientId);
      if Creates(l, op) { CreateCommits(l, op); }
      if Rotates(l, op) { RotateCommits(l, op); }
      if Creates(l, op) && clientId == op.clientId {
        var id := if role == Issuance then op.issuanceId else op.verificationId;
        assert id in m.credentials && IsCurrent(m.credentials[id], clientId, role);
      } else if Rotates(l, op) && clientId == op.clientId && role == op.role {
        assert IsCurrent(m.credentials[op.credentialId], clientId, role);
      } else {
        assert HasCurrent(l, clientId, role);
        var id :| id in l.credentials && IsCurrent(l.credentials[id], clientId, role);
        CurrentStays(l, op, id, clientId, role);
      }
    }
  }

  lemma KeepsClosedHasNone(l: Ledger, op: Op)
    requires References(l) && ClosedHasNone(l)
    ensures ClosedHasNone(Next(l, op))
  {
    hide Next;
    var m := Next(l, op);
    if Creates(l, op) { CreateCommits(l, op); }
    if Rotates(l, op) { RotateCommits(l, op); }
    if Revokes(l, op) { RevokeCommits(l, op); }
    if Activates(l, op) { ActivateCommits(l, op); }
    forall id | id in m.credentials && m.credentials[id].clientId in m.clients
      && m.clients[m.credentials[id].clientId].status == Closed
      ensures m.credentials[id].status == Revoked
    {
      CredentialSteps(l, op, id);
      ClientSteps(l, op, m.credentials[id].clientId);
    }
  }

  lemma KeepsSupersededIsDated(l: Ledger, op: Op)
    requires SupersededIsDated(l)
    ensures SupersededIsDated(Next(l, op))
  {
    var m := Next(l, op);
    forall id | id in m.credentials && m.credentials[id].status != Current
      ensures m.credentials[id].validUntil.Some?
    {
      CredentialSteps(l, op, id);
    }
  }

  lemma KeepsOneDecisionPerKey(l: Ledger, op: Op)
    requires OneDecisionPerKey(l)
    ensures OneDecisionPerKey(Next(l, op))
  {
    var m := Next(l, op);
    if Decides(l, op) { DecideCommits(l, op); }
    forall a, b, clientId, key | a in m.decisions && b in m.decisions
      && HoldsKey(m.decisions[a], clientId, key) && HoldsKey(m.decisions[b], clientId, key)
      ensures a == b
    {
      DecisionSteps(l, op, a);
      DecisionSteps(l, op, b);
    }
  }

  lemma KeepsConsumedTogether(l: Ledger, op: Op)
    requires ConsumedTogether(l)
    ensures ConsumedTogether(Next(l, op))
  {
    hide Next, Issues, Creates, Decides, Rotates, Revokes, Activates, Accepts;
    forall d | d in Next(l, op).proofs
      ensures Next(l, op).proofs[d].consumedAt.Some? <==> Next(l, op).proofs[d].consumedBy.Some?
    {
      ProofSteps(l, op, d);
    }
  }

  lemma KeepsCoherent(l: Ledger, op: Op)
    requires Coherent(l)
    ensures Coherent(Next(l, op))
  {
    KeepsReferences(l, op);
    KeepsOneCurrent(l, op);
    KeepsActiveHasCurrent(l, op);
    KeepsClosedHasNone(l, op);
    KeepsSupersededIsDated(l, op);
    KeepsOneDecisionPerKey(l, op);
    KeepsConsumedTogether(l, op);
  }

  lemma EmptyIsCoherent()
    ensures Coherent(EMPTY)
  {
  }

  lemma SnapshotIsCoherent(l: Ledger)
    requires Coherent(l)
    ensures Coherent(Snapshot(l))
  {
    hide Coherent;
    KeepsCoherent(l, Op.Seal(0));
  }

  /** Every state of every run, with any clock, satisfies the schema and credential invariants. */
  lemma {:induction false} ReachableIsCoherent(run: Run, i: nat)
    requires IsRun(run) && i < |run.states|
    ensures Coherent(run.states[i])
  {
    if i > 0 {
      ReachableIsCoherent(run, i - 1);
      KeepsCoherent(run.states[i - 1], run.ops[i - 1]);
    }
  }

  // ----- the credential machine -----

  ghost predicate Authenticates(l: Ledger, id: Id, now: int) {
    id in l.credentials && Accepted(l.credentials[id], now)
  }

  /** An active client has exactly one current credential for each role, so rotating it never fails for want of one. */
  lemma ExactlyOneCurrent(run: Run, i: nat, clientId: Id, role: Role)
    requires IsRun(run) && i < |run.states|
    requires var l := run.states[i]; clientId in l.clients && l.clients[clientId].status == Active
    ensures var l := run.states[i];
            exists id :: id in l.credentials && IsCurrent(l.credentials[id], clientId, role)
              && forall other ::
                   other in l.credentials && IsCurrent(l.credentials[other], clientId, role) ==> other == id
    ensures forall op: Op :: op.Rotate? && op.clientId == clientId && op.role == role ==>
              ReplyOf(run.states[i], op) != Failed(CurrentMissing)
  {
    ReachableIsCoherent(run, i);
    var l := run.states[i];
    assert HasCurrent(l, clientId, role);
    var id :| id in l.credentials && IsCurrent(l.credentials[id], clientId, role);
    forall op: Op | op.Rotate? && op.clientId == clientId && op.role == role
      ensures ReplyOf(l, op) != Failed(CurrentMissing)
    {
      RotationFindsCurrent(l, op, id);
    }
  }

  lemma RotationFindsCurrent(l: Ledger, op: Op, id: Id)
    requires op.Rotate? && id in l.credentials && IsCurrent(l.credentials[id], op.clientId, op.role)
    ensures ReplyOf(l, op) != Failed(CurrentMissing)
  {
    var r := RegisterHashKey(l, op.kid, op.check);
    if r.Success? {
      assert r.value.credentials == l.credentials;
      assert CurrentCredential(r.value, op.clientId, op.role).Some?;
    }
  }

  lemma {:induction false} ClosedStaysClosed(run: Run, i: nat, j: nat, clientId: Id)
    requires IsRun(run) && i <= j < |run.states|
    requires clientId in run.states[i].clients && run.states[i].clients[clientId].status == Closed
    ensures clientId in run.states[j].clients && run.states[j].clients[clientId].status == Closed
  {
    if i < j {
      ClosedStaysClosed(run, i, j - 1, clientId);
      ClientSteps(run.states[j - 1], run.ops[j - 1], clientId);
    }
  }

  /** Revocation is final: from then on no credential of the client is accepted at any time. */
  lemma RevocationIsFinal(run: Run, i: nat, j: nat, clientId: Id, id: Id, now: int)
    requires IsRun(run) && i <= j < |run.states|
    requires clientId in run.states[i].clients && run.states[i].clients[clientId].status == Closed
    requires id in run.states[j].credentials && run.states[j].credentials[id].clientId == clientId
    ensures !Authenticates(run.states[j], id, now)
  {
    ClosedStaysClosed(run, i, j, clientId);
    ReachableIsCoherent(run, j);
  }

  /** The operations of a run from i to j that register a credential under this identifier. */
  ghost predicate Registers(op: Op, id: Id) {
    || (op.Create? && id in {op.issuanceId, op.verificationId})
    || (op.Rotate? && op.credentialId == id)
  }

  /** A credential that is not accepted at one time is never accepted at that time or a later one. */
  lemma {:induction false} LapsedStaysLapsed(run: Run, i: nat, j: nat, id: Id, now: int, later: int)
    requires IsRun(run) && i <= j < |run.states| && now <= later
    requires !Authenticates(run.states[i], id, now)
    requires forall k :: i <= k < j ==> !Registers(run.ops[k], id)
    ensures !Authenticates(run.states[j], id, later)
  {
    if i < j {
      LapsedStaysLapsed(run, i, j - 1, id, now, later);
      CredentialSteps(run.states[j - 1], run.ops[j - 1], id);
    }
  }

  /** Cleanup changes no authentication decision at its own time or any later one. */
  lemma CleanupKeepsAuthentication(l: Ledger, cleanedAt: int, id: Id, now: int)
    requires cleanedAt <= now
    ensures Authenticates(Cleanup(l, cleanedAt), id, now) <==> Authenticates(l, id, now)
    ensures forall clientId, role ::
              Authorised(Cleanup(l, cleanedAt), id, clientId, role, now) <==> Authorised(l, id, clientId, role, now)
  {
  }
}
