/**
 * One acceptance per proof, over every ledger that descends from one instance by backup and restore.
 *
 * Each branch is a ledger: the live one, or a snapshot that some restore may open. In-flight requests are
 * modelled by their steps: the service's checks happen before the transaction, the lookup of a stored decision
 * reads the credential first and the decision later.
 */
module Acceptance {
  import opened Wrappers
  import opened Verdict
  import opened Schema
  import opened Transactions
  import opened Runs
  import opened Effects
  import opened Coherence

  datatype Receipt = Receipt(branch: nat, record: Proof)

  /** `native` are the clients created on this branch, as opposed to those it inherited. */
  datatype Branch = Branch(ledger: Ledger, native: set<Id>, vetted: set<(TokenDigest, Proof)>, lookups: set<Id>)

  /** `issued` and `accepted` record, by presented proof, every issue and the one acceptance on any branch. */
  datatype Universe = Universe(
    branches: seq<Branch>, issued: map<string, Receipt>, accepted: map<string, VerificationResult>)

  const START := Universe([Branch(EMPTY, {}, {}, {})], map[], map[])

  datatype Act =
    | Transact(branch: nat, op: Op)
    | Backup(branch: nat)
    | Vet(branch: nat, digest: TokenDigest, record: Proof)
    | BeginLookup(branch: nat, credentialId: Id, clientId: Id, now: int)
    | EndLookup(branch: nat, clientId: Id, key: string, fingerprint: Fingerprint)

  /** The client policy an issue request is checked against before the write lock. */
  ghost predicate PolicyAllows(l: Ledger, record: Proof) {
    && record.clientId in l.clients
    && record.audience in l.clients[record.clientId].audiences
    && 1 <= record.expiresAt - record.issuedAt <= l.clients[record.clientId].ttlSeconds
  }

  ghost predicate Enabled(u: Universe, a: Act) {
    && a.branch < |u.branches|
    && var b := u.branches[a.branch];
       match a
       case Transact(_, op) =>
         !op.Seal? && (op.Issue? ==> (op.digest, op.record) in b.vetted && op.digest.proof !in u.issued)
       case Backup(_) => true
       case Vet(_, _, record) => PolicyAllows(b.ledger, record)
       case BeginLookup(_, credentialId, clientId, now) =>
         !Sealed(b.ledger) && Authorised(b.ledger, credentialId, clientId, Role.Verification, now)
       case EndLookup(_, clientId, _, _) => clientId in b.lookups
  }

  ghost function Worked(b: Branch, op: Op): Branch {
    b.(ledger := Next(b.ledger, op), native := b.native + (if Creates(b.ledger, op) then {op.clientId} else {}))
  }

  ghost function After(u: Universe, a: Act): Universe
    requires Enabled(u, a)
  {
    var b := u.branches[a.branch];
    match a
    case Transact(_, op) =>
      Universe(
        u.branches[a.branch := Worked(b, op)],
        if Issues(b.ledger, op) then u.issued[op.digest.proof := Receipt(a.branch, IssuedRow(op))] else u.issued,
        if Accepts(b.ledger, op) then u.accepted[op.request.digest.proof := FreshResult(b.ledger, op)] else u.accepted)
    case Backup(_) => u.(branches := u.branches + [Branch(Snapshot(b.ledger), {}, {}, {})])
    case Vet(_, digest, record) => u.(branches := u.branches[a.branch := b.(vetted := b.vetted + {(digest, record)})])
    case BeginLookup(_, _, clientId, _) =>
      u.(branches := u.branches[a.branch := b.(lookups := b.lookups + {clientId})])
    case EndLookup(_, _, _, _) => u
  }

  /** A response that says `verified: true`, with the proof and the bindings it was asked about. */
  datatype Response = Response(
    proof: string, subject: string, purpose: string, audience: string, result: VerificationResult, isNew: bool)

  ghost function VerifiedResponse(u: Universe, a: Act): Option<Response>
    requires Enabled(u, a)
  {
    var l := u.branches[a.branch].ledger;
    match a
    case Transact(_, op) =>
      var reply := ReplyOf(l, op);
      if op.Verify? && reply.Verdict? && reply.answer.result.verified
      then Some(Response(op.request.digest.proof, op.request.subject, op.request.purpose, op.request.audience,
                         reply.answer.result, reply.answer.origin == Fresh))
      else None
    case EndLookup(_, clientId, key, fingerprint) =>
      var found := IdempotentResult(l, clientId, Some(key), fingerprint);
      if found.Success? && found.value.Some? && found.value.value.verified
      then Some(Response(fingerprint.proof, fingerprint.subject, fingerprint.purpose, fingerprint.audience,
                         found.value.value, false))
      else None
    case _ => None
  }

  // ----- invariant -----

  predicate SameClaims(p: Proof, record: Proof) {
    && p.tag == record.tag && p.clientId == record.clientId && p.subject == record.subject
    && p.purpose == record.purpose && p.audience == record.audience && p.issuedAt == record.issuedAt
  }

  /** A retained proof descends from one issue; on the branch of its client it is consumed exactly if accepted. */
  ghost predicate Tracked(u: Universe, i: nat, d: TokenDigest)
    requires i < |u.branches| && d in u.branches[i].ledger.proofs
  {
    var l, native := u.branches[i].ledger, u.branches[i].native;
    var p := l.proofs[d];
    && d.proof in u.issued
    && var receipt := u.issued[d.proof];
       && SameClaims(p, receipt.record)
       && (p.clientId in native ==>
             && receipt.branch == i
             && (p.consumedAt.Some? <==> d.proof in u.accepted)
             && (p.clientId in l.clients && l.clients[p.clientId].status == Active && p.consumedAt.None? ==>
                   p.expiresAt == receipt.record.expiresAt))
  }

  /** A stored success of a native client is the acceptance of the proof it was asked about. */
  ghost predicate Recorded(u: Universe, i: nat, id: Id)
    requires i < |u.branches| && id in u.branches[i].ledger.decisions
  {
    var row := u.branches[i].ledger.decisions[id];
    && row.clientId in u.branches[i].native
    && FromDict(row.resultJson).Success? && FromDict(row.resultJson).value.verified ==>
      var proof := row.fingerprint.proof;
      && proof in u.accepted && u.accepted[proof] == FromDict(row.resultJson).value
      && proof in u.issued && u.issued[proof].branch == i && u.issued[proof].record.clientId == row.clientId
      && u.issued[proof].record.subject == row.fingerprint.subject
      && u.issued[proof].record.purpose == row.fingerprint.purpose
      && u.issued[proof].record.audience == row.fingerprint.audience
  }

  ghost predicate Inherited(b: Branch) {
    && b.native <= b.ledger.clients.Keys
    && (Sealed(b.ledger) ==> b.native == {})
    && (forall c :: c in b.ledger.clients && c !in b.native ==>
          Sealed(b.ledger) || b.ledger.clients[c].status == Closed)
    && b.lookups <= b.native
    && (forall v :: v in b.vetted ==> PolicyAllows(b.ledger, v.1))
  }

  ghost predicate OneDigestPerProof(l: Ledger) {
    forall d, e :: d in l.proofs && e in l.proofs && d.proof == e.proof ==> d == e
  }

  ghost predicate BranchSound(u: Universe, i: nat)
    requires i < |u.branches|
  {
    var b := u.branches[i];
    && Coherent(b.ledger)
    && Inherited(b)
    && OneDigestPerProof(b.ledger)
    && (forall d :: d in b.ledger.proofs ==> Tracked(u, i, d))
    && (forall id :: id in b.ledger.decisions ==> Recorded(u, i, id))
  }

  /** Where an issue and an acceptance came from. */
  ghost predicate Traced(u: Universe, proof: string)
    requires proof in u.issued
  {
    var receipt := u.issued[proof];
    && receipt.branch < |u.branches|
    && PolicyAllows(u.branches[receipt.branch].ledger, receipt.record)
    && (proof in u.accepted ==>
          var result, r := u.accepted[proof], receipt.record;
          && result.verified && result.reason == None
          && result.claims == Some(ProofClaims(r.clientId, r.subject, r.purpose, r.audience, r.issuedAt, r.expiresAt))
          && result.attestation.proofTag == Some(r.tag)
          && result.attestation.clientId == Some(r.clientId)
          && result.attestation.decidedAt < r.expiresAt)
  }

  ghost predicate Sound(u: Universe) {
    && (forall i :: 0 <= i < |u.branches| ==> BranchSound(u, i))
    && (forall proof :: proof in u.issued ==> Traced(u, proof))
    && u.accepted.Keys <= u.issued.Keys
  }

  // ----- one transaction on one branch -----

  lemma ActiveIsNative(b: Branch, clientId: Id)
    requires Inherited(b) && clientId in b.ledger.clients
    requires !Sealed(b.ledger) && b.ledger.clients[clientId].status == Active
    ensures clientId in b.native
  {
  }

  lemma AcceptIsFirst(u: Universe, i: nat, op: Op)
    requires Sound(u) && i < |u.branches| && Accepts(u.branches[i].ledger, op)
    ensures op.Verify? && op.request.digest in u.branches[i].ledger.proofs
    ensures op.request.digest.proof in u.issued && op.request.digest.proof !in u.accepted
    ensures u.issued[op.request.digest.proof].branch == i
    ensures op.clientId in u.branches[i].native
    ensures var l, r := u.branches[i].ledger, u.issued[op.request.digest.proof].record;
            && l.proofs[op.request.digest].clientId == op.clientId
            && FreshResult(l, op) == AcceptedResult(r, op.decisionId, op.now) && op.now < r.expiresAt
            && op.request.subject == r.subject && op.request.purpose == r.purpose && op.request.audience == r.audience
  {
    hide Coherent, Next, Traced, FreshResult;
    assert BranchSound(u, i);
    var l := u.branches[i].ledger;
    AcceptCommits(l, op);
    DecideCommits(l, op);
    ActiveIsNative(u.branches[i], op.clientId);
    assert Tracked(u, i, op.request.digest);
  }

  lemma KeepsInherited(b: Branch, op: Op)
    requires Inherited(b) && Coherent(b.ledger) && !op.Seal?
    ensures Inherited(Worked(b, op))
  {
    hide Next, Coherent, Issues, Decides, Rotates, Accepts, Authorised;
    var l, m := b.ledger, Next(b.ledger, op);
    forall c | c in l.clients ensures c in m.clients { ClientSteps(l, op, c); }
    forall c | c in m.clients && c !in Worked(b, op).native
      ensures Sealed(m) || m.clients[c].status == Closed
    {
      ClientSteps(l, op, c);
      SealSteps(l, op);
      if Activates(l, op) { ActivateCommits(l, op); }
    }
    SealSteps(l, op);
    if Creates(l, op) { CreateCommits(l, op); }
    forall v | v in b.vetted ensures PolicyAllows(m, v.1) { ClientSteps(l, op, v.1.clientId); }
  }

  lemma KeepsOneDigest(u: Universe, a: Act)
    requires Sound(u) && Enabled(u, a) && a.Transact?
    ensures OneDigestPerProof(Next(u.branches[a.branch].ledger, a.op))
  {
    var l, op := u.branches[a.branch].ledger, a.op;
    var m := Next(l, op);
    assert BranchSound(u, a.branch);
    hide Next, Coherent;
    forall d, e | d in m.proofs && e in m.proofs && d.proof == e.proof
      ensures d == e
    {
      ProofSteps(l, op, d);
      ProofSteps(l, op, e);
      if d in l.proofs { assert Tracked(u, a.branch, d); }
      if e in l.proofs { assert Tracked(u, a.branch, e); }
    }
  }

  lemma KeepsTracked(u: Universe, a: Act, d: TokenDigest)
    requires Sound(u) && Enabled(u, a) && a.Transact?
    requires d in Next(u.branches[a.branch].ledger, a.op).proofs
    ensures Tracked(After(u, a), a.branch, d)
  {
    hide Next, Coherent, Traced, Issues, Accepts, FreshResult, Creates;
    var b, op, v := u.branches[a.branch], a.op, After(u, a);
    var l, m := b.ledger, Next(b.ledger, op);
    assert v.branches[a.branch].ledger == m;
    assert BranchSound(u, a.branch);
    ProofSteps(l, op, d);
    if d !in l.proofs {
      TrackedIssue(u, a);
    } else {
      assert Tracked(u, a.branch, d);
      TrackedRow(u, a, d);
    }
  }

  lemma TrackedIssue(u: Universe, a: Act)
    requires Sound(u) && Enabled(u, a) && a.Transact? && Issues(u.branches[a.branch].ledger, a.op)
    ensures a.op.digest in After(u, a).branches[a.branch].ledger.proofs
    ensures Tracked(After(u, a), a.branch, a.op.digest)
  {
    hide Coherent, Next, Traced;
    assert BranchSound(u, a.branch);
    var l, op := u.branches[a.branch].ledger, a.op;
    IssueCommits(l, op);
    assert op.digest.proof !in u.accepted;
    assert !Accepts(l, op);
  }

  /** What a transaction does to the records: nothing issued or accepted before is lost. */
  lemma RecordsAfter(u: Universe, a: Act)
    requires Enabled(u, a) && a.Transact?
    ensures var v, l := After(u, a), u.branches[a.branch].ledger;
            && |v.branches| == |u.branches|
            && v.branches[a.branch] == Worked(u.branches[a.branch], a.op)
            && (forall proof :: proof in u.issued ==> proof in v.issued && v.issued[proof] == u.issued[proof])
            && (if Accepts(l, a.op) then v.accepted.Keys == u.accepted.Keys + {a.op.request.digest.proof}
                else v.accepted == u.accepted)
  {
    hide Next;
  }

  /** A row that was there stays tracked: its columns change only by acceptance, revocation or activation. */
  lemma TrackedRow(u: Universe, a: Act, d: TokenDigest)
    requires Sound(u) && Enabled(u, a) && a.Transact?
    requires d in u.branches[a.branch].ledger.proofs && d in Next(u.branches[a.branch].ledger, a.op).proofs
    ensures Tracked(After(u, a), a.branch, d)
  {
    var l, op := u.branches[a.branch].ledger, a.op;
    if Accepts(l, op) { TrackedAccept(u, a, d); }
    else if Revokes(l, op) || Activates(l, op) { TrackedLowering(u, a, d); }
    else { TrackedQuiet(u, a, d); }
  }

  lemma TrackedAccept(u: Universe, a: Act, d: TokenDigest)
    requires Sound(u) && Enabled(u, a) && a.Transact? && Accepts(u.branches[a.branch].ledger, a.op)
    requires d in u.branches[a.branch].ledger.proofs && d in Next(u.branches[a.branch].ledger, a.op).proofs
    ensures Tracked(After(u, a), a.branch, d)
  {
    hide Next, Traced, FreshResult, Coherent, Recorded;
    var op := a.op;
    var l := u.branches[a.branch].ledger;
    RecordsAfter(u, a);
    assert BranchSound(u, a.branch);
    assert Tracked(u, a.branch, d);
    ClientSteps(l, op, l.proofs[d].clientId);
    AcceptIsFirst(u, a.branch, op);
    AcceptCommits(l, op);
    hide After, Enabled, Accepts;
  }

  /** Expiries are lowered only together with closing the clients they belong to. */
  lemma LoweringCloses(l: Ledger, op: Op)
    ensures Revokes(l, op) ==> op.clientId in Next(l, op).clients && Next(l, op).clients[op.clientId].status == Closed
    ensures Activates(l, op) ==> forall id :: id in Next(l, op).clients ==> Next(l, op).clients[id].status == Closed
  {
    if Revokes(l, op) { RevokeCommits(l, op); }
    if Activates(l, op) { ActivateCommits(l, op); }
    hide Next;
  }

  lemma TrackedLowering(u: Universe, a: Act, d: TokenDigest)
    requires Sound(u) && Enabled(u, a) && a.Transact?
    requires Revokes(u.branches[a.branch].ledger, a.op) || Activates(u.branches[a.branch].ledger, a.op)
    requires d in u.branches[a.branch].ledger.proofs && d in Next(u.branches[a.branch].ledger, a.op).proofs
    ensures Tracked(After(u, a), a.branch, d)
  {
    hide Next, Traced, Recorded, Coherent, RevokeClient, ActivateRestoredBackup;
    var op := a.op;
    var l := u.branches[a.branch].ledger;
    RecordsAfter(u, a);
    assert BranchSound(u, a.branch);
    assert Tracked(u, a.branch, d);
    ProofSteps(l, op, d);
    ClientSteps(l, op, l.proofs[d].clientId);
    LoweringCloses(l, op);
    hide After, Enabled;
  }

  lemma TrackedQuiet(u: Universe, a: Act, d: TokenDigest)
    requires Sound(u) && Enabled(u, a) && a.Transact?
    requires var l := u.branches[a.branch].ledger; !Accepts(l, a.op) && !Revokes(l, a.op) && !Activates(l, a.op)
    requires d in u.branches[a.branch].ledger.proofs && d in Next(u.branches[a.branch].ledger, a.op).proofs
    ensures Tracked(After(u, a), a.branch, d)
  {
    hide Next, Traced, FreshResult, Recorded;
    var op := a.op;
    var l := u.branches[a.branch].ledger;
    RecordsAfter(u, a);
    assert BranchSound(u, a.branch);
    assert Tracked(u, a.branch, d);
    assert ProofReferences(l, l.proofs[d]);
    ProofSteps(l, op, d);
    ClientSteps(l, op, l.proofs[d].clientId);
    if Creates(l, op) { CreateCommits(l, op); }
    hide After, Enabled;
  }

  lemma KeepsRecorded(u: Universe, a: Act, id: Id)
    requires Sound(u) && Enabled(u, a) && a.Transact?
    requires id in Next(u.branches[a.branch].ledger, a.op).decisions
    ensures Recorded(After(u, a), a.branch, id)
  {
    hide Next, Traced, FromDict, ToDict, After, BranchSound, Recorded;
    DecisionSteps(u.branches[a.branch].ledger, a.op, id);
    if id in u.branches[a.branch].ledger.decisions {
      RecordedRow(u, a, id);
    } else {
      RecordedDecision(u, a);
    }
  }

  lemma RecordedRow(u: Universe, a: Act, id: Id)
    requires Sound(u) && Enabled(u, a) && a.Transact?
    requires id in u.branches[a.branch].ledger.decisions && id in Next(u.branches[a.branch].ledger, a.op).decisions
    ensures Recorded(After(u, a), a.branch, id)
  {
    hide Next, Traced, FromDict, ToDict, Tracked, OneDigestPerProof, FreshResult, Decides;
    var l, op := u.branches[a.branch].ledger, a.op;
    assert BranchSound(u, a.branch);
    DecisionSteps(l, op, id);
    if Accepts(l, op) { AcceptIsFirst(u, a.branch, op); }
    assert Recorded(u, a.branch, id);
    if Creates(l, op) { CreateCommits(l, op); }
  }

  lemma RecordedDecision(u: Universe, a: Act)
    requires Sound(u) && Enabled(u, a) && a.Transact? && Decides(u.branches[a.branch].ledger, a.op)
    ensures a.op.decisionId in After(u, a).branches[a.branch].ledger.decisions
    ensures Recorded(After(u, a), a.branch, a.op.decisionId)
  {
    hide Next, Traced, FromDict, ToDict, Tracked, OneDigestPerProof, Coherent, Creates;
    var l, op := u.branches[a.branch].ledger, a.op;
    DecideCommits(l, op);
    if Accepts(l, op) { AcceptIsFirst(u, a.branch, op); }
    EncodeThenDecode(FreshResult(l, op));
    hide FreshResult, Decides;
  }

  /** What is recorded of another branch is untouched by this transaction. */
  lemma OtherBranchSound(u: Universe, a: Act, i: nat)
    requires Sound(u) && Enabled(u, a) && a.Transact? && i < |u.branches| && i != a.branch
    ensures BranchSound(After(u, a), i)
  {
    hide Next, Coherent, Traced, FreshResult, FromDict, Issuing;
    var op, v := a.op, After(u, a);
    var l := u.branches[a.branch].ledger;
    assert BranchSound(u, i);
    if Accepts(l, op) { AcceptIsFirst(u, a.branch, op); }
    assert v.branches[i] == u.branches[i];
    forall d | d in u.branches[i].ledger.proofs ensures Tracked(v, i, d) {
      assert Tracked(u, i, d);
    }
    forall id | id in u.branches[i].ledger.decisions ensures Recorded(v, i, id) {
      assert Recorded(u, i, id);
    }
  }

  /** The policy an issue was checked against still stands when it commits. */
  lemma VettedIsAllowed(u: Universe, a: Act)
    requires Sound(u) && Enabled(u, a) && a.Transact? && a.op.Issue?
    ensures PolicyAllows(u.branches[a.branch].ledger, a.op.record)
  {
    hide Next, Coherent, Tracked, Recorded, Traced;
    assert BranchSound(u, a.branch);
    assert PolicyAllows(u.branches[a.branch].ledger, (a.op.digest, a.op.record).1);
  }

  lemma PolicyStays(l: Ledger, op: Op, record: Proof)
    requires PolicyAllows(l, record)
    ensures PolicyAllows(Next(l, op), record)
  {
    ClientSteps(l, op, record.clientId);
  }

  lemma PolicyIgnoresStamps(l: Ledger, op: Op)
    requires op.Issue?
    ensures PolicyAllows(l, op.record) <==> PolicyAllows(l, IssuedRow(op))
  {
  }

  lemma KeepsTraced(u: Universe, a: Act, proof: string)
    requires Sound(u) && Enabled(u, a) && a.Transact? && proof in After(u, a).issued
    ensures Traced(After(u, a), proof)
  {
    hide Next, Coherent, FreshResult, Tracked, Recorded, Issuing, Creates, Decides, PolicyAllows;
    var op, v := a.op, After(u, a);
    var l := u.branches[a.branch].ledger;
    if proof in u.issued { assert Traced(u, proof); }
    if Issues(l, op) { VettedIsAllowed(u, a); PolicyIgnoresStamps(l, op); }
    if Accepts(l, op) { AcceptIsFirst(u, a.branch, op); }
    if v.issued[proof].branch == a.branch { PolicyStays(l, op, v.issued[proof].record); }
  }

  lemma TransactKeepsSound(u: Universe, a: Act)
    requires Sound(u) && Enabled(u, a) && a.Transact?
    ensures Sound(After(u, a))
  {
    hide Next, Coherent, Traced, Tracked, Recorded, Inherited, Issues, FreshResult, OneDigestPerProof;
    var v := After(u, a);
    forall i | 0 <= i < |v.branches| ensures BranchSound(v, i) {
      if i == a.branch {
        assert BranchSound(u, i);
        KeepsCoherent(u.branches[i].ledger, a.op);
        KeepsInherited(u.branches[i], a.op);
        KeepsOneDigest(u, a);
        forall d | d in v.branches[i].ledger.proofs ensures Tracked(v, i, d) { KeepsTracked(u, a, d); }
        forall id | id in v.branches[i].ledger.decisions ensures Recorded(v, i, id) { KeepsRecorded(u, a, id); }
      } else {
        OtherBranchSound(u, a, i);
      }
    }
    forall proof | proof in v.issued ensures Traced(v, proof) { KeepsTraced(u, a, proof); }
    if Accepts(u.branches[a.branch].ledger, a.op) { AcceptIsFirst(u, a.branch, a.op); }
  }

  // ----- the other steps -----

  lemma SameRowsSameSound(u: Universe, v: Universe, i: nat)
    requires i < |u.branches| && i < |v.branches| && BranchSound(u, i)
    requires v.issued == u.issued && v.accepted == u.accepted
    requires v.branches[i].ledger == u.branches[i].ledger && v.branches[i].native == u.branches[i].native
    requires Inherited(v.branches[i])
    ensures BranchSound(v, i)
  {
    hide Coherent, FromDict;
    forall d | d in u.branches[i].ledger.proofs ensures Tracked(v, i, d) { assert Tracked(u, i, d); }
    forall id | id in u.branches[i].ledger.decisions ensures Recorded(v, i, id) { assert Recorded(u, i, id); }
  }

  lemma SameLedgerSameTrace(u: Universe, v: Universe, proof: string)
    requires proof in u.issued && Traced(u, proof)
    requires v.issued == u.issued && v.accepted == u.accepted && |u.branches| <= |v.branches|
    requires forall i :: 0 <= i < |u.branches| ==> v.branches[i].ledger == u.branches[i].ledger
    ensures Traced(v, proof)
  {
    assert v.branches[u.issued[proof].branch].ledger == u.branches[u.issued[proof].branch].ledger;
  }

  /** The snapshot's rows are those of its source, and none of its clients are its own. */
  lemma SnapshotIsSound(u: Universe, a: Act)
    requires Sound(u) && Enabled(u, a) && a.Backup?
    ensures BranchSound(After(u, a), |u.branches|)
  {
    hide Coherent, FromDict, Next, SameClaims;
    var v, n := After(u, a), |u.branches|;
    var l := u.branches[a.branch].ledger;
    assert BranchSound(u, a.branch);
    SnapshotIsCoherent(l);
    forall d | d in l.proofs ensures Tracked(v, n, d) { assert Tracked(u, a.branch, d); }
    hide Enabled, Traced;
  }

  lemma BackupKeepsSound(u: Universe, a: Act)
    requires Sound(u) && Enabled(u, a) && a.Backup?
    ensures Sound(After(u, a))
  {
    hide Coherent, FromDict, Tracked, Recorded, OneDigestPerProof, Next, Traced;
    var v := After(u, a);
    SnapshotIsSound(u, a);
    forall i | 0 <= i < |u.branches| ensures BranchSound(v, i) {
      assert BranchSound(u, i);
      SameRowsSameSound(u, v, i);
    }
    forall proof | proof in v.issued ensures Traced(v, proof) { SameLedgerSameTrace(u, v, proof); }
  }

  lemma RequestKeepsSound(u: Universe, a: Act)
    requires Sound(u) && Enabled(u, a) && (a.Vet? || a.BeginLookup? || a.EndLookup?)
    ensures Sound(After(u, a))
  {
    hide Coherent, FromDict, Tracked, Recorded, OneDigestPerProof, Next, Traced;
    var v := After(u, a);
    assert BranchSound(u, a.branch);
    if a.BeginLookup? { ActiveIsNative(u.branches[a.branch], a.clientId); }
    forall i | 0 <= i < |v.branches| ensures BranchSound(v, i) {
      assert BranchSound(u, i);
      SameRowsSameSound(u, v, i);
    }
    forall proof | proof in v.issued ensures Traced(v, proof) { SameLedgerSameTrace(u, v, proof); }
  }

  lemma KeepsSound(u: Universe, a: Act)
    requires Sound(u) && Enabled(u, a)
    ensures Sound(After(u, a))
  {
    match a
    case Transact(_, _) => TransactKeepsSound(u, a);
    case Backup(_) => BackupKeepsSound(u, a);
    case _ => RequestKeepsSound(u, a);
  }

  // ----- what a verified response means -----

  /** A verified response on a branch is the one acceptance of its proof, made on the branch that issued it. */
  lemma ResponseIsAcceptance(u: Universe, a: Act)
    requires Sound(u) && Enabled(u, a) && VerifiedResponse(u, a).Some?
    ensures var r := VerifiedResponse(u, a).value;
            && r.proof in After(u, a).accepted && After(u, a).accepted[r.proof] == r.result
            && r.proof in u.issued && u.issued[r.proof].branch == a.branch
            && u.issued[r.proof].record.subject == r.subject
            && u.issued[r.proof].record.purpose == r.purpose
            && u.issued[r.proof].record.audience == r.audience
            && (r.isNew ==> r.proof !in u.accepted)
            && u.issued[r.proof].record.clientId in u.branches[a.branch].native
  {
    hide Next, Coherent, FromDict, Traced, Decides;
    assert BranchSound(u, a.branch);
    var b := u.branches[a.branch];
    if a.Transact? && Accepts(b.ledger, a.op) {
      AcceptIsFirst(u, a.branch, a.op);
      assert Tracked(u, a.branch, a.op.request.digest);
      FreshReply(b.ledger, a.op);
    } else {
      StoredResponse(u, a);
    }
  }

  lemma FreshReply(l: Ledger, op: Op)
    requires Decides(l, op)
    ensures ReplyOf(l, op) == Reply.Verdict(Answer(FreshResult(l, op), Fresh))
  {
  }

  /** A response that is no fresh acceptance was read from a decision row of a native client. */
  lemma StoredRow(u: Universe, a: Act) returns (id: Id)
    requires Sound(u) && Enabled(u, a) && VerifiedResponse(u, a).Some?
    requires !(a.Transact? && Accepts(u.branches[a.branch].ledger, a.op))
    ensures id in u.branches[a.branch].ledger.decisions
    ensures var row, r := u.branches[a.branch].ledger.decisions[id], VerifiedResponse(u, a).value;
            && !r.isNew
            && row.clientId in u.branches[a.branch].native
            && row.fingerprint == Fingerprint(r.proof, r.subject, r.purpose, r.audience)
            && FromDict(row.resultJson) == Success(r.result)
  {
    hide FromDict, Tracked, Recorded, Traced, Coherent;
    var b := u.branches[a.branch];
    assert BranchSound(u, a.branch);
    match a
    case Transact(_, op) =>
      assert Verifying(b.ledger, op).value.value.origin == Replayed;
      ActiveIsNative(b, op.clientId);
      id := KeyedDecision(b.ledger, op.clientId, op.key.value).value;
    case EndLookup(_, clientId, key, _) =>
      id := KeyedDecision(b.ledger, clientId, key).value;
  }

  lemma StoredResponse(u: Universe, a: Act)
    requires Sound(u) && Enabled(u, a) && VerifiedResponse(u, a).Some?
    requires !(a.Transact? && Accepts(u.branches[a.branch].ledger, a.op))
    ensures var r := VerifiedResponse(u, a).value;
            && !r.isNew
            && r.proof in u.accepted && u.accepted[r.proof] == r.result
            && After(u, a).accepted == u.accepted
            && r.proof in u.issued && u.issued[r.proof].branch == a.branch
            && u.issued[r.proof].record.subject == r.subject
            && u.issued[r.proof].record.purpose == r.purpose
            && u.issued[r.proof].record.audience == r.audience
            && u.issued[r.proof].record.clientId in u.branches[a.branch].native
  {
    hide Coherent, Traced, FromDict, Tracked, Next;
    assert BranchSound(u, a.branch);
    var id := StoredRow(u, a);
    assert Recorded(u, a.branch, id);
  }

  // ----- whole histories -----

  ghost predicate IsHistory(us: seq<Universe>, acts: seq<Act>) {
    && |us| == |acts| + 1
    && us[0] == START
    && forall i :: 0 <= i < |acts| ==> Enabled(us[i], acts[i]) && us[i + 1] == After(us[i], acts[i])
  }

  lemma {:induction false} HistoryIsSound(us: seq<Universe>, acts: seq<Act>, i: nat)
    requires IsHistory(us, acts) && i < |us|
    ensures Sound(us[i])
  {
    if i > 0 {
      HistoryIsSound(us, acts, i - 1);
      KeepsSound(us[i - 1], acts[i - 1]);
    } else {
      assert BranchSound(START, 0);
    }
  }

  lemma RecordsOnlyGrow(u: Universe, a: Act)
    requires Sound(u) && Enabled(u, a)
    ensures forall proof :: proof in u.accepted ==>
              proof in After(u, a).accepted && After(u, a).accepted[proof] == u.accepted[proof]
    ensures forall proof :: proof in u.issued ==>
              proof in After(u, a).issued && After(u, a).issued[proof] == u.issued[proof]
  {
    hide Next, BranchSound, Traced;
    if a.Transact? && Accepts(u.branches[a.branch].ledger, a.op) { AcceptIsFirst(u, a.branch, a.op); }
  }

  lemma {:induction false} RecordsAreStable(us: seq<Universe>, acts: seq<Act>, i: nat, j: nat, proof: string)
    requires IsHistory(us, acts) && i <= j < |us|
    ensures proof in us[i].accepted ==> proof in us[j].accepted && us[j].accepted[proof] == us[i].accepted[proof]
    ensures proof in us[i].issued ==> proof in us[j].issued && us[j].issued[proof] == us[i].issued[proof]
  {
    if i < j {
      RecordsAreStable(us, acts, i, j - 1, proof);
      HistoryIsSound(us, acts, j - 1);
      RecordsOnlyGrow(us[j - 1], acts[j - 1]);
    }
  }

  /**
   * At most one acceptance. Over any history, with any clocks and any cleanup times, across every backup and
   * restore: all `verified: true` responses about one proof are the same result, given by the same branch, and
   * at most one of them was freshly decided.
   */
  lemma AtMostOneAcceptance(us: seq<Universe>, acts: seq<Act>, i: nat, j: nat)
    requires IsHistory(us, acts) && i < j < |acts|
    requires VerifiedResponse(us[i], acts[i]).Some? && VerifiedResponse(us[j], acts[j]).Some?
    requires VerifiedResponse(us[i], acts[i]).value.proof == VerifiedResponse(us[j], acts[j]).value.proof
    ensures var first, second := VerifiedResponse(us[i], acts[i]).value, VerifiedResponse(us[j], acts[j]).value;
            && first.result == second.result
            && acts[i].branch == acts[j].branch
            && !second.isNew
  {
    hide Next, After, VerifiedResponse, Sound, Enabled;
    HistoryIsSound(us, acts, i);
    HistoryIsSound(us, acts, j);
    ResponseIsAcceptance(us[i], acts[i]);
    ResponseIsAcceptance(us[j], acts[j]);
    var proof := VerifiedResponse(us[i], acts[i]).value.proof;
    RecordsAreStable(us, acts, i + 1, j, proof);
    RecordsAreStable(us, acts, i, j, proof);
    RecordsAreStable(us, acts, j, j + 1, proof);
  }

  /**
   * Provenance: the claims of a verified response, fresh or repeated, are the bindings it was asked about and those of
   * an earlier issue, within the client's policy.
   */
  lemma AcceptanceHasProvenance(us: seq<Universe>, acts: seq<Act>, i: nat)
    requires IsHistory(us, acts) && i < |acts| && VerifiedResponse(us[i], acts[i]).Some?
    ensures var r := VerifiedResponse(us[i], acts[i]).value;
            && r.result.claims.Some?
            && var claims := r.result.claims.value;
               && r.result.attestation.decidedAt < claims.expiresAt
               && r.result.attestation.clientId == Some(claims.clientId)
               && claims.subject == r.subject && claims.purpose == r.purpose && claims.audience == r.audience
               && (exists k :: 0 <= k < i && IssueOf(us[k], acts[k], acts[i].branch, r.proof, claims))
               && var l := us[i + 1].branches[acts[i].branch].ledger;
                  && claims.clientId in l.clients
                  && claims.audience in l.clients[claims.clientId].audiences
                  && 1 <= claims.expiresAt - claims.issuedAt <= l.clients[claims.clientId].ttlSeconds
  {
    hide Next, After, VerifiedResponse, BranchSound, Enabled;
    HistoryIsSound(us, acts, i);
    HistoryIsSound(us, acts, i + 1);
    ResponseIsAcceptance(us[i], acts[i]);
    var r := VerifiedResponse(us[i], acts[i]).value;
    assert Traced(us[i + 1], r.proof);
    RecordsAreStable(us, acts, i, i + 1, r.proof);
    var k := FindIssue(us, acts, i, r.proof);
  }

  /** This act committed the issue of `proof` on this branch with exactly these claims. */
  ghost predicate IssueOf(u: Universe, a: Act, branch: nat, proof: string, claims: ProofClaims) {
    && Enabled(u, a) && a.Transact? && a.branch == branch
    && Issues(u.branches[branch].ledger, a.op) && a.op.digest.proof == proof
    && var record := a.op.record;
       claims == ProofClaims(record.clientId, record.subject, record.purpose, record.audience,
                             a.op.now, a.op.now + (record.expiresAt - record.issuedAt))
  }

  lemma NewReceipt(u: Universe, a: Act, proof: string)
    requires Enabled(u, a) && proof !in u.issued && proof in After(u, a).issued
    ensures var r := After(u, a).issued[proof];
            IssueOf(u, a, r.branch, proof,
                    ProofClaims(r.record.clientId, r.record.subject, r.record.purpose, r.record.audience,
                                r.record.issuedAt, r.record.expiresAt))
  {
    hide Next;
    IssueCommits(u.branches[a.branch].ledger, a.op);
  }

  lemma {:induction false} FindIssue(us: seq<Universe>, acts: seq<Act>, i: nat, proof: string) returns (k: nat)
    requires IsHistory(us, acts) && i < |us| && proof in us[i].issued
    ensures k < i
    ensures var r := us[i].issued[proof];
            IssueOf(us[k], acts[k], r.branch, proof,
                    ProofClaims(r.record.clientId, r.record.subject, r.record.purpose, r.record.audience,
                                r.record.issuedAt, r.record.expiresAt))
  {
    hide Next, Sound, Enabled, After, IssueOf;
    assert i > 0;
    var u, a := us[i - 1], acts[i - 1];
    if proof in u.issued {
      k := FindIssue(us, acts, i - 1, proof);
      HistoryIsSound(us, acts, i - 1);
      RecordsOnlyGrow(u, a);
    } else {
      k := i - 1;
      NewReceipt(u, a, proof);
    }
  }

  lemma ForeignStep(u: Universe, a: Act, branch: nat, clientId: Id)
    requires Enabled(u, a) && branch < |u.branches|
    requires clientId in u.branches[branch].ledger.clients && clientId !in u.branches[branch].native
    ensures branch < |After(u, a).branches|
    ensures clientId in After(u, a).branches[branch].ledger.clients && clientId !in After(u, a).branches[branch].native
  {
    if a.Transact? && a.branch == branch {
      var l := u.branches[branch].ledger;
      ClientSteps(l, a.op, clientId);
      if Creates(l, a.op) { CreateCommits(l, a.op); }
    }
  }

  /** A branch keeps its number, and the clients it inherited never become its own. */
  lemma {:induction false} InheritedStaysForeign(us: seq<Universe>, acts: seq<Act>, i: nat, j: nat, branch: nat,
                                                 clientId: Id)
    requires IsHistory(us, acts) && i <= j < |us| && branch < |us[i].branches|
    requires clientId in us[i].branches[branch].ledger.clients && clientId !in us[i].branches[branch].native
    ensures branch < |us[j].branches|
    ensures clientId in us[j].branches[branch].ledger.clients && clientId !in us[j].branches[branch].native
  {
    hide After, Enabled;
    if i < j {
      InheritedStaysForeign(us, acts, i, j - 1, branch, clientId);
      ForeignStep(us[j - 1], acts[j - 1], branch, clientId);
    }
  }

  lemma IssuedOnABranch(u: Universe, proof: string)
    requires Sound(u) && proof in u.issued
    ensures u.issued[proof].branch < |u.branches|
  {
    assert Traced(u, proof);
  }

  /**
   * No resurrection through restore. Whatever existed when the snapshot was taken, no proof issued before it
   * and no client known to it is ever answered `verified: true` on the restored branch, sealed or activated.
   */
  lemma NoResurrection(us: seq<Universe>, acts: seq<Act>, k: nat, j: nat)
    requires IsHistory(us, acts) && k < j < |acts| && acts[k].Backup?
    requires acts[j].branch == |us[k].branches|
    requires VerifiedResponse(us[j], acts[j]).Some?
    ensures var r := VerifiedResponse(us[j], acts[j]).value;
            && r.proof !in us[k].issued
            && r.result.claims.Some?
            && r.result.claims.value.clientId !in us[k].branches[acts[k].branch].ledger.clients
  {
    hide Next, VerifiedResponse, BranchSound;
    HistoryIsSound(us, acts, j);
    HistoryIsSound(us, acts, k);
    ResponseIsAcceptance(us[j], acts[j]);
    var r := VerifiedResponse(us[j], acts[j]).value;
    RecordsAreStable(us, acts, k, j, r.proof);
    if r.proof in us[k].issued { IssuedOnABranch(us[k], r.proof); }
    AcceptanceHasProvenance(us, acts, j);
    ClaimsClient(us, acts, j);
    var clientId := r.result.claims.value.clientId;
    if clientId in us[k].branches[acts[k].branch].ledger.clients {
      InheritedStaysForeign(us, acts, k + 1, j, acts[j].branch, clientId);
    }
  }

  lemma ClaimsClient(us: seq<Universe>, acts: seq<Act>, j: nat)
    requires IsHistory(us, acts) && j < |acts| && VerifiedResponse(us[j], acts[j]).Some?
    ensures var r := VerifiedResponse(us[j], acts[j]).value;
            r.result.claims.Some? && r.result.claims.value.clientId in us[j].branches[acts[j].branch].native
  {
    hide Next, After, VerifiedResponse, BranchSound;
    HistoryIsSound(us, acts, j);
    HistoryIsSound(us, acts, j + 1);
    ResponseIsAcceptance(us[j], acts[j]);
    var r := VerifiedResponse(us[j], acts[j]).value;
    RecordsAreStable(us, acts, j, j + 1, r.proof);
    assert Traced(us[j + 1], r.proof);
  }

  /** Until it is activated a sealed snapshot issues nothing, accepts nothing, and no lookup answers from it. */
  lemma SealedBranchIsInert(us: seq<Universe>, acts: seq<Act>, i: nat)
    requires IsHistory(us, acts) && i < |acts| && Sealed(us[i].branches[acts[i].branch].ledger)
    ensures VerifiedResponse(us[i], acts[i]).None?
    ensures acts[i].Transact? ==>
              var l := us[i].branches[acts[i].branch].ledger;
              !Issues(l, acts[i].op) && !Accepts(l, acts[i].op)
  {
    hide Next, VerifiedResponse, After, Coherent, Tracked, Recorded;
    HistoryIsSound(us, acts, i);
    assert BranchSound(us[i], acts[i].branch);
    if acts[i].Transact? { SealedRefuses(us[i].branches[acts[i].branch].ledger, acts[i].op); }
    if VerifiedResponse(us[i], acts[i]).Some? { ResponseIsAcceptance(us[i], acts[i]); }
  }
}
