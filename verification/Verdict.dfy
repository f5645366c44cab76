/** Verification results and their persisted form (src/onceproof/model.py). */
module Verdict {
  import opened Wrappers

  /** A decoded JSON value. JSON text is not part of the model. */
  datatype Json =
    | Null
    | Bool(flag: bool)
    | Int(number: int)
    | Float(amount: real)
    | Str(text: string)
    | Arr(items: seq<Json>)
    | Obj(fields: map<string, Json>)

  datatype Reason = CredentialRejected | Invalid | Expired | AlreadyConsumed | BindingMismatch

  datatype ProofClaims = ProofClaims(
    clientId: string, subject: string, purpose: string, audience: string,
    issuedAt: int, expiresAt: int)

  datatype VerificationWitness = VerificationWitness(
    state: string, verificationId: string, proofTag: Option<string>,
    clientId: Option<string>, decidedAt: int, reason: Option<Reason>)

  // The source field `witness` is `attestation` here: `witness` is reserved in Dafny.
  datatype VerificationResult = VerificationResult(
    verified: bool, reason: Option<Reason>, attestation: VerificationWitness, claims: Option<ProofClaims>)

  datatype DecodeError = InvalidPersistedVerification

  const VERIFIED_ONCE := "verified_once"

  const CLAIM_FIELDS: set<string> :=
    {"client_id", "subject", "purpose", "audience", "issued_at", "expires_at"}
  const WITNESS_FIELDS: set<string> :=
    {"state", "verification_id", "proof_tag", "client_id", "decided_at", "reason"}
  const RESULT_FIELDS: set<string> := {"verified", "reason", "witness", "claims"}

  // ----- names used in the persisted form -----

  function ReasonText(reason: Reason): string {
    match reason
    case CredentialRejected => "credential_rejected"
    case Invalid => "invalid"
    case Expired => "expired"
    case AlreadyConsumed => "already_consumed"
    case BindingMismatch => "binding_mismatch"
  }

  function ReasonNamed(text: string): Option<Reason> {
    if text == "credential_rejected" then Some(CredentialRejected)
    else if text == "invalid" then Some(Invalid)
    else if text == "expired" then Some(Expired)
    else if text == "already_consumed" then Some(AlreadyConsumed)
    else if text == "binding_mismatch" then Some(BindingMismatch)
    else None
  }

  lemma NamesRoundTrip()
    ensures forall reason :: ReasonNamed(ReasonText(reason)) == Some(reason)
    ensures forall text :: ReasonNamed(text).Some? ==> ReasonText(ReasonNamed(text).value) == text
  {
    forall reason: Reason
      ensures ReasonNamed(ReasonText(reason)) == Some(reason)
    {
      var lengths := [|ReasonText(CredentialRejected)|, |ReasonText(Invalid)|, |ReasonText(Expired)|,
                      |ReasonText(AlreadyConsumed)|, |ReasonText(BindingMismatch)|];
      assert lengths == [19, 7, 7, 16, 16];
      assert ReasonText(Invalid)[0] == 'i' && ReasonText(Expired)[0] == 'e';
      assert ReasonText(AlreadyConsumed)[0] == 'a' && ReasonText(BindingMismatch)[0] == 'b';
    }
  }

  // ----- encoding -----

  function OptionalText(value: Option<string>): Json {
    match value
    case None => Null
    case Some(text) => Str(text)
  }

  function OptionalReason(value: Option<Reason>): Json {
    match value
    case None => Null
    case Some(reason) => Str(ReasonText(reason))
  }

  function ClaimsToDict(claims: ProofClaims): Json {
    Obj(map[
      "client_id" := Str(claims.clientId),
      "subject" := Str(claims.subject),
      "purpose" := Str(claims.purpose),
      "audience" := Str(claims.audience),
      "issued_at" := Int(claims.issuedAt),
      "expires_at" := Int(claims.expiresAt)])
  }

  function WitnessToDict(attestation: VerificationWitness): Json {
    Obj(map[
      "state" := Str(attestation.state),
      "verification_id" := Str(attestation.verificationId),
      "proof_tag" := OptionalText(attestation.proofTag),
      "client_id" := OptionalText(attestation.clientId),
      "decided_at" := Int(attestation.decidedAt),
      "reason" := OptionalReason(attestation.reason)])
  }

  function ToDict(result: VerificationResult): Json {
    Obj(map[
      "verified" := Bool(result.verified),
      "reason" := OptionalReason(result.reason),
      "witness" := WitnessToDict(result.attestation),
      "claims" := if result.claims.Some? then ClaimsToDict(result.claims.value) else Null])
  }

  // ----- decoding -----

  function PersistedObject(value: Json, fields: set<string>): Result<map<string, Json>, DecodeError> {
    if value.Obj? && value.fields.Keys == fields then Success(value.fields)
    else Failure(InvalidPersistedVerification)
  }

  function PersistedText(value: Json): Result<string, DecodeError> {
    if value.Str? && value.text != "" then Success(value.text)
    else Failure(InvalidPersistedVerification)
  }

  function PersistedTime(value: Json): Result<int, DecodeError> {
    if value.Int? && value.number >= 0 then Success(value.number)
    else Failure(InvalidPersistedVerification)
  }

  function PersistedOptionalText(value: Json): Result<Option<string>, DecodeError> {
    if value.Null? then Success(None)
    else if value.Str? && value.text != "" then Success(Some(value.text))
    else Failure(InvalidPersistedVerification)
  }

  function PersistedOptionalReason(value: Json): Result<Option<Reason>, DecodeError> {
    if value.Null? then Success(None)
    else if value.Str? && ReasonNamed(value.text).Some? then Success(ReasonNamed(value.text))
    else Failure(InvalidPersistedVerification)
  }

  function ClaimsFromDict(value: Json): Result<ProofClaims, DecodeError> {
    var fields :- PersistedObject(value, CLAIM_FIELDS);
    var issuedAt :- PersistedTime(fields["issued_at"]);
    var expiresAt :- PersistedTime(fields["expires_at"]);
    :- Need(expiresAt > issuedAt, InvalidPersistedVerification);
    var clientId :- PersistedText(fields["client_id"]);
    var subject :- PersistedText(fields["subject"]);
    var purpose :- PersistedText(fields["purpose"]);
    var audience :- PersistedText(fields["audience"]);
    Success(ProofClaims(clientId, subject, purpose, audience, issuedAt, expiresAt))
  }

  function WitnessFromDict(value: Json): Result<VerificationWitness, DecodeError> {
    var fields :- PersistedObject(value, WITNESS_FIELDS);
    var proofTag :- PersistedOptionalText(fields["proof_tag"]);
    var clientId :- PersistedOptionalText(fields["client_id"]);
    var reason :- PersistedOptionalReason(fields["reason"]);
    var state :- PersistedText(fields["state"]);
    var verificationId :- PersistedText(fields["verification_id"]);
    var decidedAt :- PersistedTime(fields["decided_at"]);
    Success(VerificationWitness(state, verificationId, proofTag, clientId, decidedAt, reason))
  }

  function FromDict(value: Json): Result<VerificationResult, DecodeError> {
    var fields :- PersistedObject(value, RESULT_FIELDS);
    :- Need(fields["verified"].Bool?, InvalidPersistedVerification);
    var attestation :- WitnessFromDict(fields["witness"]);
    if fields["verified"].flag then
      var claims :- ClaimsFromDict(fields["claims"]);
      :- Need(
        && fields["reason"].Null?
        && attestation.state == VERIFIED_ONCE
        && attestation.reason == None
        && attestation.proofTag.Some?
        && attestation.clientId == Some(claims.clientId),
        InvalidPersistedVerification);
      Success(VerificationResult(true, None, attestation, Some(claims)))
    else
      var reason :- PersistedOptionalReason(fields["reason"]);
      :- Need(
        && reason.Some?
        && fields["claims"].Null?
        && attestation.reason == reason
        && attestation.state == RejectionState(reason.value),
        InvalidPersistedVerification);
      Success(VerificationResult(false, reason, attestation, None))
  }

  function RejectionState(reason: Reason): string {
    if reason == AlreadyConsumed then "replay_rejected" else "rejected"
  }

  // ----- what the persisted form is trusted to say -----

  predicate TrustedClaims(claims: ProofClaims) {
    && claims.clientId != "" && claims.subject != "" && claims.purpose != "" && claims.audience != ""
    && 0 <= claims.issuedAt < claims.expiresAt
  }

  predicate TrustedWitness(attestation: VerificationWitness) {
    && attestation.state != ""
    && attestation.verificationId != ""
    && attestation.decidedAt >= 0
    && attestation.proofTag != Some("")
    && attestation.clientId != Some("")
  }

  /** Claims accompany acceptance and only acceptance; the witness tells the same story as the result. */
  predicate Trusted(result: VerificationResult) {
    && TrustedWitness(result.attestation)
    && result.attestation.reason == result.reason
    && (if result.verified then
          && result.reason == None
          && result.attestation.state == VERIFIED_ONCE
          && result.attestation.proofTag.Some?
          && result.claims.Some?
          && TrustedClaims(result.claims.value)
          && result.attestation.clientId == Some(result.claims.value.clientId)
        else
          && result.reason.Some?
          && result.claims == None
          && result.attestation.state == RejectionState(result.reason.value))
  }

  lemma ClaimsRoundTrip(claims: ProofClaims)
    ensures ClaimsFromDict(ClaimsToDict(claims)) ==
            if TrustedClaims(claims) then Success(claims) else Failure(InvalidPersistedVerification)
  {
    assert ClaimsToDict(claims).fields.Keys == CLAIM_FIELDS;
  }

  lemma WitnessRoundTrip(attestation: VerificationWitness)
    ensures WitnessFromDict(WitnessToDict(attestation)) ==
            if TrustedWitness(attestation) then Success(attestation) else Failure(InvalidPersistedVerification)
  {
    NamesRoundTrip();
    assert WitnessToDict(attestation).fields.Keys == WITNESS_FIELDS;
  }

  /** Decoding what was encoded returns it exactly when it is trust-consistent, and is refused otherwise. */
  lemma EncodeThenDecode(result: VerificationResult)
    ensures FromDict(ToDict(result)) ==
            if Trusted(result) then Success(result) else Failure(InvalidPersistedVerification)
  {
    var fields := ToDict(result).fields;
    assert fields.Keys == RESULT_FIELDS;
    NamesRoundTrip();
    WitnessRoundTrip(result.attestation);
    if result.claims.Some? {
      ClaimsRoundTrip(result.claims.value);
    }
  }

  /** An accepted result on the wire. */
  lemma AcceptedForm(id: string, tag: string, clientId: string, decidedAt: int, claims: ProofClaims)
    ensures ToDict(VerificationResult(true, None,
                     VerificationWitness("verified_once", id, Some(tag), Some(clientId), decidedAt, None),
                     Some(claims)))
            == Obj(map[
                 "verified" := Bool(true),
                 "reason" := Null,
                 "witness" := Obj(map[
                   "state" := Str("verified_once"), "verification_id" := Str(id), "proof_tag" := Str(tag),
                   "client_id" := Str(clientId), "decided_at" := Int(decidedAt), "reason" := Null]),
                 "claims" := Obj(map[
                   "client_id" := Str(claims.clientId), "subject" := Str(claims.subject),
                   "purpose" := Str(claims.purpose), "audience" := Str(claims.audience),
                   "issued_at" := Int(claims.issuedAt), "expires_at" := Int(claims.expiresAt)])])
  {
  }

  /** A rejected result on the wire, with the text of each reason and the state that goes with it. */
  lemma RejectedForm(reason: Reason, text: string, state: string, id: string, decidedAt: int)
    requires (reason, text, state) in {
               (CredentialRejected, "credential_rejected", "rejected"), (Invalid, "invalid", "rejected"),
               (Expired, "expired", "rejected"), (AlreadyConsumed, "already_consumed", "replay_rejected"),
               (BindingMismatch, "binding_mismatch", "rejected")}
    ensures var attestation := VerificationWitness(state, id, None, None, decidedAt, Some(reason));
            var form := Obj(map[
              "verified" := Bool(false),
              "reason" := Str(text),
              "witness" := Obj(map[
                "state" := Str(state), "verification_id" := Str(id), "proof_tag" := Null,
                "client_id" := Null, "decided_at" := Int(decidedAt), "reason" := Str(text)]),
              "claims" := Null]);
            && ToDict(VerificationResult(false, Some(reason), attestation, None)) == form
            && (id != "" && decidedAt >= 0 ==>
                  FromDict(form) == Success(VerificationResult(false, Some(reason), attestation, None)))
  {
    var result := VerificationResult(false, Some(reason),
                                     VerificationWitness(state, id, None, None, decidedAt, Some(reason)), None);
    EncodeThenDecode(result);
    hide FromDict;
  }

  lemma DecodedClaims(value: Json)
    requires ClaimsFromDict(value).Success?
    ensures ClaimsToDict(ClaimsFromDict(value).value) == value
    ensures TrustedClaims(ClaimsFromDict(value).value)
  {
    assert ClaimsToDict(ClaimsFromDict(value).value).fields == value.fields;
  }

  lemma DecodedWitness(value: Json)
    requires WitnessFromDict(value).Success?
    ensures WitnessToDict(WitnessFromDict(value).value) == value
    ensures TrustedWitness(WitnessFromDict(value).value)
  {
    NamesRoundTrip();
    assert WitnessToDict(WitnessFromDict(value).value).fields == value.fields;
  }

  /** Whatever the decoder accepts re-encodes to itself and is trust-consistent. */
  lemma DecodeThenEncode(value: Json)
    requires FromDict(value).Success?
    ensures ToDict(FromDict(value).value) == value
    ensures Trusted(FromDict(value).value)
  {
    NamesRoundTrip();
    DecodedWitness(value.fields["witness"]);
    if value.fields["verified"].flag {
      DecodedClaims(value.fields["claims"]);
    }
    assert ToDict(FromDict(value).value).fields == value.fields;
  }

  /** Two stored objects never decode to the same result. */
  lemma DecodeIsInjective(first: Json, second: Json)
    requires FromDict(first).Success? && FromDict(first) == FromDict(second)
    ensures first == second
  {
    DecodeThenEncode(first);
    DecodeThenEncode(second);
  }
}
