/** The audit log: no change without a row, no row without a change (src/onceproof/store.py:1220-1249). */
module Audit {
  import opened Wrappers
  import opened Schema
  import opened Runs
  import opened Effects

  /** The row a committed operation leaves. */
  ghost function Entry(l: Ledger, op: Op): Option<AuditEvent> {
    if Issues(l, op) then
      var r := op.record;
      Some(AuditEvent(op.now, ProofIssued, Some(r.clientId), Some(r.issueCredentialId), Some(r.tag), None))
    else if Creates(l, op) then Some(AuditEvent(op.now, ClientCreated, Some(op.clientId), None, None, None))
    else if Decides(l, op) then
      var result := FreshResult(l, op);
      Some(AuditEvent(op.now, if result.verified then ProofVerified else ProofRejected, Some(op.clientId),
                      Some(op.credentialId), result.attestation.proofTag, result.reason))
    else if Rotates(l, op) then
      Some(AuditEvent(op.now, CredentialRotated, Some(op.clientId), Some(op.credentialId), None, None))
    else if Revokes(l, op) then Some(AuditEvent(op.now, ClientRevoked, Some(op.clientId), None, None, None))
    else if Activates(l, op) then Some(AuditEvent(op.now, RestoreActivated, None, None, None, None))
    else None
  }

  /** Outside cleanup and sealing, an operation changes the tables exactly when it adds its one audit row. */
  lemma EveryChangeIsAudited(l: Ledger, op: Op)
    requires !op.Clean? && !op.Seal?
    ensures Next(l, op) == l <==> Entry(l, op).None?
    ensures Entry(l, op).Some? ==>
              op.eventId !in l.auditEvents && Next(l, op).auditEvents == l.auditEvents[op.eventId := Entry(l, op).value]
  {
    hide Next, Issues, Creates, Decides, Rotates, Revokes, Activates, FreshResult;
    if Issues(l, op) { IssueCommits(l, op); }
    else if Creates(l, op) { CreateCommits(l, op); }
    else if Decides(l, op) { DecideCommits(l, op); }
    else if Rotates(l, op) { RotateCommits(l, op); }
    else if Revokes(l, op) { RevokeCommits(l, op); }
    else if Activates(l, op) { ActivateCommits(l, op); }
    else { RollsBack(l, op); }
  }

  lemma RowStays(l: Ledger, op: Op, eventId: Id)
    requires eventId in l.auditEvents
    requires op.Clean? ==> op.now <= l.auditEvents[eventId].createdAt + 604_800
    ensures eventId in Next(l, op).auditEvents && Next(l, op).auditEvents[eventId] == l.auditEvents[eventId]
  {
    if !op.Clean? && !op.Seal? {
      EveryChangeIsAudited(l, op);
      hide Next;
    }
  }

  /** For a week an audit row stays as it was written, whatever else happens. */
  lemma {:induction false} RowsStayForAWeek(run: Run, i: nat, j: nat, eventId: Id)
    requires Steps(run) && i <= j < |run.states| && eventId in run.states[i].auditEvents
    requires forall k :: i <= k < j && run.ops[k].Clean? ==>
               run.ops[k].now <= run.states[i].auditEvents[eventId].createdAt + 604_800
    ensures eventId in run.states[j].auditEvents
    ensures run.states[j].auditEvents[eventId] == run.states[i].auditEvents[eventId]
  {
    hide Next;
    if i < j {
      RowsStayForAWeek(run, i, j - 1, eventId);
      RowStays(run.states[j - 1], run.ops[j - 1], eventId);
    }
  }

  /** Every accepted verification of a run can be read off its audit log for a week, with the tag of its proof. */
  lemma AcceptanceStaysAudited(run: Run, i: nat, j: nat)
    requires Steps(run) && i < j < |run.states| && Accepts(run.states[i], run.ops[i])
    requires forall k :: i < k < j && run.ops[k].Clean? ==> run.ops[k].now <= run.ops[i].now + 604_800
    ensures var l, op := run.states[i], run.ops[i];
            && op.request.digest in l.proofs
            && op.eventId in run.states[j].auditEvents
            && run.states[j].auditEvents[op.eventId] ==
                 AuditEvent(op.now, ProofVerified, Some(op.clientId), Some(op.credentialId),
                            Some(l.proofs[op.request.digest].tag), None)
  {
    hide Next;
    var l, op := run.states[i], run.ops[i];
    AcceptCommits(l, op);
    DecideCommits(l, op);
    RowsStayForAWeek(run, i + 1, j, op.eventId);
  }
}
