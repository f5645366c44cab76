/** The life of one proof: what a verdict shows, that verdicts only move forward, and that acceptance is atomic. */
module Lifecycle {
  import opened Wrappers
  import opened Verdict
  import opened Schema
  import opened Transactions
  import opened Runs
  import opened Effects
  import opened Coherence

  datatype Phase = Live | Consumed | Lapsed | Forgotten

  function PhaseOf(l: Ledger, d: TokenDigest, now: int): Phase {
    if d !in l.proofs then Forgotten
    else if l.proofs[d].consumedAt.Some? then Consumed
    else if now >= l.proofs[d].expiresAt then Lapsed
    else Live
  }

  predicate NotAfter(p: Phase, q: Phase) {
    p == q || p == Live || q == Forgotten
  }

  ghost predicate OwnProof(l: Ledger, op: Op, d: TokenDigest) {
    op.Verify? && op.request.digest == d && (d in l.proofs ==> l.proofs[d].clientId == op.clientId)
  }

  function StateOf(reason: Option<Reason>): string {
    if reason.None? then "verified_once" else if reason == Some(AlreadyConsumed) then "replay_rejected" else "rejected"
  }

  /** A fresh verdict to the proof's own client tells the phase of the proof. */
  lemma VerdictShowsPhase(l: Ledger, op: Op, d: TokenDigest)
    requires Decides(l, op) && OwnProof(l, op, d)
    ensures var result := FreshResult(l, op);
            match PhaseOf(l, d, op.now)
            case Live => if BoundTo(l.proofs[d], op.request) then result.verified && result.reason == None
                         else result.reason == Some(BindingMismatch)
            case Consumed => result.reason == Some(AlreadyConsumed)
            case Lapsed => result.reason == Some(Expired)
            case Forgotten => result.reason == Some(Invalid)
    ensures FreshResult(l, op).verified <==> FreshResult(l, op).reason == None
    ensures FreshResult(l, op).attestation ==
              VerificationWitness(
                StateOf(FreshResult(l, op).reason), op.decisionId,
                if d in l.proofs then Some(l.proofs[d].tag) else None, Some(op.clientId), op.now,
                FreshResult(l, op).reason)
    ensures FreshResult(l, op).verified ==> PhaseOf(Next(l, op), d, op.now) == Consumed
  {
    DecideCommits(l, op);
  }

  /** Deciding about another client's proof is deciding about a proof that is not there. */
  lemma ForeignDecision(l: Ledger, clientId: Id, request: Request, fingerprint: Fingerprint, credentialId: Id,
                        key: Option<string>, now: int, decisionId: Id, eventId: Id)
    requires clientId in l.clients
    requires request.digest in l.proofs && l.proofs[request.digest].clientId != clientId
    requires DecideFresh(l, credentialId, clientId, request, fingerprint, key, now, decisionId, eventId).Success?
    ensures var without := l.(proofs := l.proofs - {request.digest});
            var t := DecideFresh(without, credentialId, clientId, request, fingerprint, key, now, decisionId, eventId);
            && t.Success?
            && t.value.value == Answer(RejectedResult(Invalid, decisionId, None, Some(clientId), now), Fresh)
            && t.value.value ==
                 DecideFresh(l, credentialId, clientId, request, fingerprint, key, now, decisionId, eventId).value.value
  {
    hide Prune, Slots, Oldest, FromDict, ToDict;
  }

  /** Another client's proof looks exactly like one that was never issued, and is left alone. */
  lemma ForeignProofLooksUnknown(l: Ledger, op: Op, d: TokenDigest)
    requires Decides(l, op) && op.request.digest == d && d in l.proofs && l.proofs[d].clientId != op.clientId
    ensures Next(l, op).proofs == l.proofs
    ensures var without := l.(proofs := l.proofs - {d});
            && Decides(without, op)
            && FreshResult(without, op) == FreshResult(l, op)
            && FreshResult(l, op).reason == Some(Invalid)
  {
    hide ConsumeRateSlot, Accepted, FromDict, ToDict, DecideFresh, KeyedDecision, Next;
    DecidedFresh(l, op);
    DecideCommits(l, op);
    ForeignDecision(l, op.clientId, op.request, FingerprintOf(op.request), op.credentialId, op.key, op.now,
                    op.decisionId, op.eventId);
    SameKeyedDecision(l, l.(proofs := l.proofs - {d}), op.clientId);
  }

  lemma SameKeyedDecision(l: Ledger, m: Ledger, clientId: Id)
    requires m.decisions == l.decisions
    ensures forall key :: KeyedDecision(m, clientId, key).None? <==> KeyedDecision(l, clientId, key).None?
  {
  }

  lemma PhaseAdvancesOnce(l: Ledger, op: Op, d: TokenDigest, now: int, later: int)
    requires now <= later
    requires op.Verify? ==> now <= op.now
    requires op.Issue? ==> op.digest != d
    ensures NotAfter(PhaseOf(l, d, now), PhaseOf(Next(l, op), d, later))
  {
    ProofSteps(l, op, d);
    if Accepts(l, op) { AcceptCommits(l, op); }
  }

  /** The phase of a proof only moves forward while the clock does not go back. */
  lemma {:induction false} PhasesAdvance(run: Run, i: nat, j: nat, d: TokenDigest, now: int, later: int)
    requires Steps(run) && i <= j < |run.states| && now <= later
    requires forall k :: i <= k < j ==>
               && (run.ops[k].Verify? ==> now <= run.ops[k].now)
               && (run.ops[k].Issue? ==> run.ops[k].digest != d)
    ensures NotAfter(PhaseOf(run.states[i], d, now), PhaseOf(run.states[j], d, later))
  {
    if i < j {
      PhasesAdvance(run, i, j - 1, d, now, now);
      PhaseAdvancesOnce(run.states[j - 1], run.ops[j - 1], d, now, later);
    }
  }

  /**
   * Successive fresh verdicts on one proof. Once consumed it reads `already_consumed`, past its TTL too,
   * until it is forgotten; once expired it never reads consumed; nothing is accepted after either.
   */
  lemma VerdictsAdvance(run: Run, clock: seq<int>, i: nat, j: nat, d: TokenDigest)
    requires Steps(run) && Timed(run, clock) && i < j < |run.ops|
    requires forall k :: k in {i, j} ==> Decides(run.states[k], run.ops[k]) && OwnProof(run.states[k], run.ops[k], d)
    requires forall k :: i <= k < j && run.ops[k].Issue? ==> run.ops[k].digest != d
    ensures var first, second := FreshResult(run.states[i], run.ops[i]), FreshResult(run.states[j], run.ops[j]);
            && (first.verified || first.reason == Some(AlreadyConsumed) ==>
                  second.reason in {Some(AlreadyConsumed), Some(Invalid)})
            && (first.reason == Some(Expired) ==> second.reason in {Some(Expired), Some(Invalid)})
            && (first.reason == Some(Invalid) ==> second.reason == Some(Invalid))
            && (second.verified ==> first.reason == Some(BindingMismatch))
  {
    hide Next, Decide, Decides, FreshResult;
    var l, op, m, again := run.states[i], run.ops[i], run.states[j], run.ops[j];
    VerdictShowsPhase(l, op, d);
    VerdictShowsPhase(m, again, d);
    PhasesAdvance(run, i, j, d, clock[i], clock[j]);
    PhasesAdvance(run, i + 1, j, d, clock[i], clock[j]);
  }

  // ----- how long the verdict lasts -----

  lemma {:induction false} ClientStays(run: Run, i: nat, j: nat, clientId: Id)
    requires Steps(run) && i <= j < |run.states| && clientId in run.states[i].clients
    ensures clientId in run.states[j].clients
  {
    if i < j {
      ClientStays(run, i, j - 1, clientId);
      ClientSteps(run.states[j - 1], run.ops[j - 1], clientId);
    }
  }

  /** No cleanup from i to j is later than an hour past this time. */
  ghost predicate CleansBy(run: Run, i: nat, j: nat, expiresAt: int)
    requires i <= j <= |run.ops|
  {
    forall k :: i <= k < j && run.ops[k].Clean? ==> run.ops[k].now <= expiresAt + 3_600
  }

  /** No verification from i to j is earlier than this time. */
  ghost predicate VerifiesFrom(run: Run, i: nat, j: nat, expiresAt: int)
    requires i <= j <= |run.ops|
  {
    forall k :: i <= k < j && run.ops[k].Verify? ==> run.ops[k].now >= expiresAt
  }

  /** While its client is active a proof keeps its row for an hour past expiry; consumed or expired, unchanged. */
  lemma {:induction false} RowIsKept(run: Run, i: nat, j: nat, d: TokenDigest)
    requires Steps(run) && i <= j < |run.states| && d in run.states[i].proofs
    requires var p := run.states[i].proofs[d];
             && p.clientId in run.states[i].clients && CleansBy(run, i, j, p.expiresAt)
             && (p.clientId in run.states[j].clients ==> run.states[j].clients[p.clientId].status == Active)
    ensures d in run.states[j].proofs
    ensures var p, q := run.states[i].proofs[d], run.states[j].proofs[d];
            && q.clientId == p.clientId && q.expiresAt == p.expiresAt
            && (p.consumedAt.Some? || VerifiesFrom(run, i, j, p.expiresAt) ==> q == p)
  {
    hide Next;
    if i < j {
      var l, op, clientId := run.states[j - 1], run.ops[j - 1], run.states[i].proofs[d].clientId;
      ClientStays(run, i, j, clientId);
      ClientStays(run, i, j - 1, clientId);
      ClientSteps(l, op, clientId);
      StaysActive(l, op, clientId);
      RowIsKept(run, i, j - 1, d);
      ProofSteps(l, op, d);
      if Accepts(l, op) { AcceptCommits(l, op); }
    }
  }

  lemma StaysActive(l: Ledger, op: Op, clientId: Id)
    requires clientId in Next(l, op).clients && Next(l, op).clients[clientId].status == Active
    ensures !(Revokes(l, op) && op.clientId == clientId) && !Activates(l, op)
  {
    hide Next;
    if Revokes(l, op) { RevocationReaches(l, op); }
    if Activates(l, op) { ActivateCommits(l, op); }
  }

  /** A consumed proof reads `already_consumed` to its client until a cleanup later than an hour past its expiry. */
  lemma ConsumedIsRemembered(run: Run, i: nat, j: nat, d: TokenDigest)
    requires IsRun(run) && i <= j < |run.ops| && d in run.states[i].proofs
    requires var p := run.states[i].proofs[d];
             && p.consumedAt.Some? && CleansBy(run, i, j, p.expiresAt)
             && run.ops[j].Verify? && run.ops[j].clientId == p.clientId && run.ops[j].request.digest == d
    requires Decides(run.states[j], run.ops[j])
    ensures FreshResult(run.states[j], run.ops[j]).reason == Some(AlreadyConsumed)
  {
    hide Next, Decide, FreshResult, Coherent;
    KnownClient(run, i, d);
    DecideCommits(run.states[j], run.ops[j]);
    RowIsKept(run, i, j, d);
    VerdictShowsPhase(run.states[j], run.ops[j], d);
  }

  /** An unconsumed proof reads `expired` from its expiry on, just as long. */
  lemma ExpiredIsRemembered(run: Run, i: nat, j: nat, d: TokenDigest)
    requires IsRun(run) && i <= j < |run.ops| && d in run.states[i].proofs
    requires var p := run.states[i].proofs[d];
             && p.consumedAt.None? && CleansBy(run, i, j, p.expiresAt) && VerifiesFrom(run, i, j + 1, p.expiresAt)
             && run.ops[j].Verify? && run.ops[j].clientId == p.clientId && run.ops[j].request.digest == d
    requires Decides(run.states[j], run.ops[j])
    ensures FreshResult(run.states[j], run.ops[j]).reason == Some(Expired)
  {
    hide Next, Decide, FreshResult, Coherent;
    KnownClient(run, i, d);
    DecideCommits(run.states[j], run.ops[j]);
    RowIsKept(run, i, j, d);
    VerdictShowsPhase(run.states[j], run.ops[j], d);
  }

  lemma KnownClient(run: Run, i: nat, d: TokenDigest)
    requires IsRun(run) && i < |run.states| && d in run.states[i].proofs
    ensures run.states[i].proofs[d].clientId in run.states[i].clients
  {
    ReachableIsCoherent(run, i);
    assert ProofReferences(run.states[i], run.states[i].proofs[d]);
  }

  // ----- acceptance is all or nothing -----

  ghost predicate NewlyConsumed(l: Ledger, m: Ledger, d: TokenDigest, id: Id) {
    && d in l.proofs && l.proofs[d].consumedAt.None?
    && d in m.proofs && m.proofs[d].consumedAt.Some? && m.proofs[d].consumedBy == Some(id)
  }

  /** What a persisted result says about acceptance. */
  predicate SaysVerified(value: Json) {
    value.Obj? && "verified" in value.fields && value.fields["verified"] == Bool(true)
  }

  ghost predicate NewAcceptance(l: Ledger, m: Ledger, id: Id, tag: string) {
    && id !in l.decisions && id in m.decisions
    && SaysVerified(m.decisions[id].resultJson) && m.decisions[id].proofTag == Some(tag)
  }

  ghost predicate NewAudit(l: Ledger, m: Ledger, eventId: Id, tag: string) {
    && eventId !in l.auditEvents && eventId in m.auditEvents
    && m.auditEvents[eventId].kind == ProofVerified && m.auditEvents[eventId].proofTag == Some(tag)
  }

  lemma EncodedVerdict(result: VerificationResult)
    ensures SaysVerified(ToDict(result)) <==> result.verified
  {
  }

  lemma CleaningWritesNoAudit(l: Ledger, op: Op)
    requires op.Clean? || op.Seal?
    ensures forall e :: e in Next(l, op).auditEvents ==> e in l.auditEvents
  {
  }

  lemma OnlyDecisionsAudit(l: Ledger, op: Op, id: Id, eventId: Id, tag: string)
    requires !Decides(l, op)
    ensures !NewAcceptance(l, Next(l, op), id, tag) && !NewAudit(l, Next(l, op), eventId, tag)
  {
    hide Next, Decides;
    DecisionSteps(l, op, id);
    if Issues(l, op) { IssueCommits(l, op); }
    else if Creates(l, op) { CreateCommits(l, op); }
    else if Rotates(l, op) { RotateCommits(l, op); }
    else if Revokes(l, op) { RevokeCommits(l, op); }
    else if Activates(l, op) { ActivateCommits(l, op); }
    else if op.Clean? || op.Seal? { CleaningWritesNoAudit(l, op); }
    else { RollsBack(l, op); }
  }

  /** In one committed step a proof is consumed exactly when an accepting decision and its audit row are written. */
  lemma AcceptanceIsAtomic(l: Ledger, op: Op, d: TokenDigest)
    ensures var m := Next(l, op);
            forall id :: NewlyConsumed(l, m, d, id) ==>
              NewAcceptance(l, m, id, l.proofs[d].tag)
              && exists e :: NewAudit(l, m, e, l.proofs[d].tag)
    ensures var m := Next(l, op);
            forall id, tag :: NewAcceptance(l, m, id, tag) ==>
              exists p :: NewlyConsumed(l, m, p, id) && l.proofs[p].tag == tag
    ensures var m := Next(l, op);
            forall e, tag :: NewAudit(l, m, e, tag) ==>
              exists id :: NewAcceptance(l, m, id, tag)
  {
    hide Next, Issues, Accepts, Creates, Rotates, Revokes, Activates, SaysVerified;
    var m := Next(l, op);
    forall id | NewlyConsumed(l, m, d, id)
      ensures NewAcceptance(l, m, id, l.proofs[d].tag)
      ensures exists e :: NewAudit(l, m, e, l.proofs[d].tag)
    {
      ProofSteps(l, op, d);
      AcceptWrites(l, op);
      assert NewAudit(l, m, op.eventId, l.proofs[d].tag);
    }
    forall id, tag | NewAcceptance(l, m, id, tag)
      ensures exists p :: NewlyConsumed(l, m, p, id) && l.proofs[p].tag == tag
    {
      WritesMeanAccept(l, op, id, "", tag);
      AcceptWrites(l, op);
      assert NewlyConsumed(l, m, op.request.digest, id);
    }
    forall e, tag | NewAudit(l, m, e, tag)
      ensures exists id :: NewAcceptance(l, m, id, tag)
    {
      WritesMeanAccept(l, op, "", e, tag);
      AcceptWrites(l, op);
      assert NewAcceptance(l, m, op.decisionId, tag);
    }
  }

  lemma AcceptWrites(l: Ledger, op: Op)
    requires Accepts(l, op)
    ensures op.Verify?
    ensures var m, d := Next(l, op), op.request.digest;
            && d in l.proofs
            && NewlyConsumed(l, m, d, op.decisionId)
            && NewAcceptance(l, m, op.decisionId, l.proofs[d].tag)
            && NewAudit(l, m, op.eventId, l.proofs[d].tag)
  {
    AcceptCommits(l, op);
    DecideCommits(l, op);
    EncodedVerdict(FreshResult(l, op));
  }

  lemma WritesMeanAccept(l: Ledger, op: Op, id: Id, eventId: Id, tag: string)
    requires NewAcceptance(l, Next(l, op), id, tag) || NewAudit(l, Next(l, op), eventId, tag)
    ensures Accepts(l, op) && op.Verify?
    ensures op.request.digest in l.proofs && l.proofs[op.request.digest].tag == tag
    ensures NewAcceptance(l, Next(l, op), id, tag) ==> id == op.decisionId
  {
    if !Decides(l, op) {
      OnlyDecisionsAudit(l, op, id, eventId, tag);
    } else {
      DecideCommits(l, op);
      EncodedVerdict(FreshResult(l, op));
      if Accepts(l, op) { AcceptCommits(l, op); }
    }
  }
}
