/** One ledger as a state machine: operations with every outside choice made explicit, and whole runs. */
module Runs {
  import opened Wrappers
  import opened KeyringCodec
  import opened Schema
  import opened Transactions

  /**
   * The clock sample, random identifiers and key material of an operation are chosen by the environment.
   * `Seal` is the step from a ledger to its backup snapshot, so a run may follow a lineage of backups.
   */
  datatype Op =
    | Create(clientId: Id, name: string, audiences: seq<string>, ttlSeconds: int, issueLimit: int, verifyLimit: int,
             kid: Kid, check: KeyCheck, issuanceId: Id, issuanceDigest: SecretDigest,
             verificationId: Id, verificationDigest: SecretDigest, now: int, eventId: Id)
    | Issue(digest: TokenDigest, record: Proof, check: KeyCheck, now: int, eventId: Id)
    | Verify(credentialId: Id, clientId: Id, request: Request, key: Option<string>,
             now: int, decisionId: Id, eventId: Id)
    | Rotate(clientId: Id, role: Role, credentialId: Id, kid: Kid, secretDigest: SecretDigest, check: KeyCheck,
             graceSeconds: int, now: int, eventId: Id)
    | Revoke(clientId: Id, now: int, eventId: Id)
    | Clean(now: int)
    | Seal(now: int)
    | Activate(now: int, eventId: Id)

  datatype Reply =
    | Done
    | Issued(proof: Proof)
    | Verdict(answer: Answer)
    | Failed(error: Error)

  /** The fingerprint covers the presented proof and the three bindings. */
  function FingerprintOf(request: Request): Fingerprint {
    Fingerprint(request.digest.proof, request.subject, request.purpose, request.audience)
  }

  function ReplyTo<T>(t: Transaction<T>): Reply {
    if t.Success? then Done else Failed(t.error)
  }

  // ----- the transactions as the service calls them -----

  function Creating(l: Ledger, op: Op): Transaction<()>
    requires op.Create?
  {
    CreateClient(l, op.clientId, op.name, op.audiences, op.ttlSeconds, op.issueLimit, op.verifyLimit,
                 NewCredential(op.issuanceId, op.clientId, Issuance, op.kid, op.issuanceDigest),
                 NewCredential(op.verificationId, op.clientId, Role.Verification, op.kid, op.verificationDigest),
                 op.check, op.now, op.eventId)
  }

  function Issuing(l: Ledger, op: Op): Transaction<Proof>
    requires op.Issue?
  {
    IssueProof(l, op.digest, op.record, op.check, op.now, op.eventId)
  }

  ghost function Verifying(l: Ledger, op: Op): Transaction<Answer>
    requires op.Verify?
  {
    ConsumeProof(l, op.credentialId, op.clientId, op.request, FingerprintOf(op.request), op.key,
                 op.now, op.decisionId, op.eventId)
  }

  ghost function Rotating(l: Ledger, op: Op): Transaction<(Id, int)>
    requires op.Rotate?
  {
    RotateCredential(l, op.clientId, op.role,
                     NewCredential(op.credentialId, op.clientId, op.role, op.kid, op.secretDigest),
                     op.check, op.graceSeconds, op.now, op.eventId)
  }

  ghost function Next(l: Ledger, op: Op): Ledger {
    match op
    case Create(_, _, _, _, _, _, _, _, _, _, _, _, _, _) => LedgerAfter(l, Creating(l, op))
    case Issue(_, _, _, _, _) => LedgerAfter(l, Issuing(l, op))
    case Verify(_, _, _, _, _, _, _) => LedgerAfter(l, Verifying(l, op))
    case Rotate(_, _, _, _, _, _, _, _, _) => LedgerAfter(l, Rotating(l, op))
    case Revoke(clientId, now, eventId) => LedgerAfter(l, RevokeClient(l, clientId, now, eventId))
    case Clean(now) => Cleanup(l, now)
    case Seal(_) => Snapshot(l)
    case Activate(now, eventId) => LedgerAfter(l, ActivateRestoredBackup(l, now, eventId))
  }

  ghost function ReplyOf(l: Ledger, op: Op): Reply {
    match op
    case Create(_, _, _, _, _, _, _, _, _, _, _, _, _, _) => ReplyTo(Creating(l, op))
    case Issue(_, _, _, _, _) =>
      var t := Issuing(l, op);
      if t.Success? then Issued(t.value.value) else Failed(t.error)
    case Verify(_, _, _, _, _, _, _) =>
      var t := Verifying(l, op);
      if t.Success? then Verdict(t.value.value) else Failed(t.error)
    case Rotate(_, _, _, _, _, _, _, _, _) => ReplyTo(Rotating(l, op))
    case Revoke(clientId, now, eventId) => ReplyTo(RevokeClient(l, clientId, now, eventId))
    case Clean(_) => Done
    case Seal(_) => Done
    case Activate(now, eventId) => ReplyTo(ActivateRestoredBackup(l, now, eventId))
  }

  // ----- whole runs -----

  /** `states[i]` is the ledger before `ops[i]`. */
  datatype Run = Run(states: seq<Ledger>, ops: seq<Op>)

  ghost predicate Steps(run: Run) {
    && |run.states| == |run.ops| + 1
    && forall i :: 0 <= i < |run.ops| ==> run.states[i + 1] == Next(run.states[i], run.ops[i])
  }

  /** A run of an instance, starting from the schema with no rows. */
  ghost predicate IsRun(run: Run) {
    Steps(run) && run.states[0] == EMPTY
  }

  /**
   * The service's clock never goes back. Issue and verify sample it under the write lock;
   * every other operation carries an earlier sample.
   */
  ghost predicate Timed(run: Run, clock: seq<int>) {
    && |clock| == |run.ops|
    && (forall i, j :: 0 <= i <= j < |clock| ==> clock[i] <= clock[j])
    && forall i :: 0 <= i < |clock| ==>
         if run.ops[i].Issue? || run.ops[i].Verify? then run.ops[i].now == clock[i]
         else run.ops[i].now <= clock[i]
  }
}
