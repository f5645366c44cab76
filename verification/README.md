# Onceproof in Dafny

Onceproof issues opaque bearer proofs and accepts each of them at most once. This project models the parts of it
that decide whether that is true, and proves what they promise over every input, every run and every interleaving:

- the **replay ledger**: clients, credentials, proofs, decisions, rate events, key checks and the maintenance flag,
  changed only by write transactions (`Schema`, `Transactions`, `Store`);
- the **persisted result** and the **keyring file** as codecs (`Verdict`, `KeyringCodec`);
- the **keyring object** and the **service operations** (`KeyRing`, `Requests`, `Service`);
- **processes** that share one ledger, one keyring file and two locks, with stale copies in memory (`KeyProtocol`);
- **backup, seal and activation**, where a ledger forks (`Acceptance`).

Run `dafny verify dfyconfig.toml` to check everything.

## How the model is built

`Transactions` gives each write transaction as a function from tables, arguments, clock sample and fresh identifiers to
the committed tables and reply, or to the error that rolls it back. `Store` is the class the code is: map-valued tables
changed statement by statement, where an exception may strike between any two statements or after COMMIT. Each of its
methods is proved to have all of the transaction's effect or none (`AllOrNothing`). `Runs` makes the transactions the
steps of a state machine, `Effects` reads off once what a step can do to one row of each table, and the remaining
modules prove properties of whole runs from that:

| module | about |
|---|---|
| `Answers` | what refuses a request and with what, and what a granted one is told, in terms of rows |
| `Coherence` | schema and credential invariants, finality of revocation |
| `RateQuota` | the rolling quota from a globally pruned table, exactness of Retry-After |
| `Idempotency` | stored decisions decode, repeats are stable, the lookup before the lock agrees with the transaction |
| `Lifecycle` | verdicts on one proof only move forward, acceptance is all or nothing |
| `Audit` | every change leaves exactly one audit row, which stays for a week |
| `Retention` | retention periods do not contradict each other, when a root key can be retired |
| `Acceptance` | at most one acceptance per proof across every backup and restore, provenance of claims |
| `KeyProtocol` | keys named by the ledger are never lost, live proofs are accepted, backups can be restored |
| `Service` | the operations on top of store and keyring lead to exactly the steps the other modules reason about |

## Assumptions

- Random identifiers and proof strings are fresh where a statement needs it, and it then says so: a proof string is
  issued once over all branches of a history, and `LiveProofIsAccepted` asks for new row identifiers. Everything else
  holds for any identifiers, because inserting a duplicate is a failing insert in the model as in the schema.
- SHA-256 and the keyed digests are injective: a digest is a value that remembers the key and the text.
- `BEGIN IMMEDIATE` serialises write transactions, so a run is a sequence of them. The two-step lookup of a stored
  decision is not serialised: its credential read and its decision read are separate steps. The flag and the credential
  are read in one step, which loses nothing because an open ledger is never sealed again (`SealSteps`).
- The environment picks every clock sample, backward ones too. `Timed` states a nondecreasing clock and appears only in
  the contracts that need it; issue and verify sample it under the write lock, every other operation earlier.
- Between the reads of an issue or a verification, `Service` lets other callers commit any run of transactions.
- Cleanup is a step the environment takes at any time with any clock value.
- `Validated` states what the service checks of its arguments (nonempty text, TTL in range, a clock past the epoch). The
  persisted form of a result is trusted only under it.
- A process may stop at any point, which releases its locks; `os.replace` changes the keyring file all at once.

## What turned out not to hold

- **Retiring a root key.** `docs/OPERATIONS.md` says to rotate both client roles, wait for proofs and retention to
  expire, clean up and retire. With graces of at most `g` ending the rotations at `t`, a cleanup later than
  `t + g + 7200` frees the key, unless a client was revoked on a row of that key at the cleanup's second or later:
  revocation stamps `valid_until` of superseded credentials again, however long lapsed, and cleanup compares strictly.
  `Retention.RetirementIsExact` gives the exact condition, `Retention.RetirementCanBeHeldBack` a concrete run.
- **A consumed proof's decision.** A retained consumed proof keeps the decision row it names exactly when its expiry lies
  at most 82,800 seconds past its consumption (`Retention.SpanIsExact`); a clock that ran back further between issue and
  consumption breaks it, as in the run of `Retention.DecisionCanBeLost`. With TTLs of at most 3600 seconds the bound is
  a clock at most 79,200 seconds behind.
- **Keyring text.** The decoder accepts more than the encoder writes: `+` and `/`, padding, and nonzero spare bits
  (`KeyringCodec.LooseTextsAreAccepted`; `KeyTexts` says exactly what is accepted, `KeyTextIsCanonical` what comes back
  unchanged), and a version of `true` or `1.0` (`VersionsAccepted`).

## Naming

The result field `witness` is called `attestation`, because `witness` is reserved in Dafny. The table `verifications` is
`decisions`, the client status `revoked` is `Closed` to keep it apart from the credential status, and a keyring
generation (current identifier and keys) is a `Ring`.

## Model

| member | source | states |
|---|---|---|
| Verdict.EncodeThenDecode | src/onceproof/model.py:187-231 | A persisted result decodes to itself exactly when it is trust-consistent (claims with acceptance only, witness and result telling the same story); any other is refused |
| Verdict.AcceptedForm | src/onceproof/model.py:117-202 | The object an accepted result is stored as, field by field |
| Verdict.RejectedForm | src/onceproof/model.py:155-231 | The object a rejected result is stored as, with the text of each reason and the state that goes with it, and back |
| Verdict.DecodeThenEncode | src/onceproof/model.py:204-231 | Any JSON object the decoder accepts re-encodes to itself and is trust-consistent |
| Verdict.DecodeIsInjective | src/onceproof/model.py:204-231 | Two different stored objects never decode to one result |
| Verdict.ClaimsRoundTrip | src/onceproof/model.py:117-141 | Claims survive storing exactly when every text is nonempty and the times are a nonempty period past the epoch |
| Verdict.WitnessRoundTrip | src/onceproof/model.py:155-184 | A witness survives storing exactly when its state and identifier are nonempty, its optional texts are not empty and its time is past the epoch |
| Verdict.DecodedClaims | src/onceproof/model.py:127-141 | Accepted claims re-encode to the object they came from |
| Verdict.DecodedWitness | src/onceproof/model.py:165-184 | An accepted witness re-encodes to the object it came from |
| KeyringCodec.KeyRoundTrip | src/onceproof/keyring.py:32-44 | A 32-byte key written in unpadded base64url (section 5 of RFC 4648) reads back as itself |
| KeyringCodec.Alphabet | src/onceproof/keyring.py:32-39 | The symbols are those of section 5 of RFC 4648 by character code, and reading takes exactly the two of section 4 as well |
| KeyringCodec.TestVectors | src/onceproof/keyring.py:32-33 | Encoding gives the test vectors of section 10 of RFC 4648, without padding |
| KeyringCodec.KeyTexts | src/onceproof/keyring.py:36-44 | The texts that name a key are exactly 43 symbols of either alphabet, alone or followed by one `=` |
| KeyringCodec.KeyTextIsCanonical | src/onceproof/keyring.py:36-44 | A text survives reading and writing exactly when it is 43 symbols of the URL alphabet with two zero spare bits |
| KeyringCodec.LooseTextsAreAccepted | src/onceproof/keyring.py:36-44 | Concrete texts with nonzero spare bits, with a symbol of the other alphabet and with padding are accepted, and come back different |
| KeyringCodec.ParseEntries | src/onceproof/keyring.py:121-127 | The loop returns every entry decoded, or fails with the error of some bad entry, which of several depending on file order |
| KeyringCodec.ParsePayload | src/onceproof/keyring.py:109-130 | The parser reads exactly the well-formed payloads; otherwise it reports the first failing check, and among bad entries the error of one of them |
| KeyringCodec.ParseAnswers | src/onceproof/keyring.py:109-130 | What a payload is refused for, check by check, and what it is read as when it passes them all |
| KeyringCodec.ParsedIsSound | src/onceproof/keyring.py:109-130 | Whatever the parser accepts has its current key and 32 bytes in every key |
| KeyringCodec.PayloadRoundTrip | src/onceproof/keyring.py:54-60 | A written keyring reads back as itself exactly when it is sound |
| KeyringCodec.SerializedFields | src/onceproof/keyring.py:54-60 | The fields and values of a written keyring |
| KeyringCodec.VersionsAccepted | src/onceproof/keyring.py:112-113 | Beside the number 1 a written keyring also reads back under the versions 1.0 and `true`, and under no other value |
| Transactions.ConditionalUpdateHits | src/onceproof/store.py:704-722 | Past the checks the conditional UPDATE always hits its row, so its fallback branch is unreachable |
| Effects.IssueCommits | src/onceproof/store.py:545-602 | What a committed issue found and wrote, column by column: an authorised issuer, an unused digest and tag, one slot, times moved to the lock |
| Effects.CreateCommits | src/onceproof/store.py:461-508 | A committed creation adds one active client and two current credentials under one registered key, and nothing else |
| Effects.DecideCommits | src/onceproof/store.py:617-743 | A fresh decision spends one slot, stores its result under its identifier and key, writes one audit row and touches at most one proof |
| Effects.AcceptCommits | src/onceproof/store.py:704-714 | Acceptance happens to an unconsumed, live, correctly bound proof of the caller's client, and sets both consumption columns of that row only |
| Effects.AcceptanceSucceeds | src/onceproof/store.py:617-743 | With a slot free, an authorised verifier without a key gets a live and correctly bound proof accepted |
| Effects.RotateCommits | src/onceproof/store.py:757-809 | A committed rotation supersedes the one current credential until the grace ends and adds its replacement |
| Effects.RevocationReaches | src/onceproof/store.py:811-849 | Row by row: the client's own row is closed, its live credentials are revoked and dated, its unconsumed expiries are lowered to the revocation time if later, and every other row stays |
| Effects.ActivationReaches | src/onceproof/store.py:1094-1126 | Row by row: every client is closed, no credential is accepted at any time, no proof can be consumed from then on, earlier revocation times are kept, the quota is empty and the ledger open |
| Effects.ProofSteps | src/onceproof/store.py:572-592 | Over all operations, a proof row appears by issue, goes by cleanup an hour after expiry, and changes by acceptance, revocation or activation only |
| Effects.CredentialSteps | src/onceproof/store.py:864-875 | Over all operations, a credential row appears current, goes only when lapsed and without proofs, and changes by rotation, revocation or activation only |
| Effects.ClientSteps | src/onceproof/store.py:826-829 | A client row never goes, and changes only from active to revoked |
| Effects.DecisionSteps | src/onceproof/store.py:876-879 | A decision row never changes and goes only by cleanup a day after it was made |
| Effects.SealSteps | src/onceproof/store.py:1128-1138 | Only a backup seals a ledger, and only activation opens it |
| Effects.SealedRefuses | src/onceproof/store.py:1135-1138 | A sealed ledger refuses to issue, decide, create, rotate or revoke, and stays unchanged |
| Answers.IssueAnswers | src/onceproof/store.py:545-602 | Which condition refuses an issue and with what, in order; granted, the proof has the fields it was prepared with and its period begins at the lock |
| Answers.GrantedIsStored | src/onceproof/store.py:548-592 | The stored row of a granted issue has those fields and that period, and is not consumed |
| Answers.UnauthorisedAnswers | src/onceproof/store.py:630-642 | A verifier that may not act gets `credential_rejected` with a witness naming neither client nor proof, and nothing changes |
| Answers.AcceptanceAnswers | src/onceproof/store.py:183-203 | Acceptance answers exactly the bindings asked for and the period issued, to a verifier that may act |
| Answers.VerifyAnswers | src/onceproof/store.py:644-659 | Past its caller and with nothing under its key, a verification is decided exactly if the last minute has room, else rate limited without change |
| Answers.RotateAnswers | src/onceproof/store.py:757-809 | Which condition refuses a rotation and with what; granted, it answers the superseded current credential and the end of its grace |
| Answers.CreateAnswers | src/onceproof/store.py:461-466 | Which condition refuses a creation and with what |
| Answers.RevokeAnswers | src/onceproof/store.py:811-849 | True for a change, false without change for a revoked client, and the refusals |
| Answers.ActivateAnswers | src/onceproof/store.py:1094-1126 | Activation is refused exactly unless the ledger is sealed |
| Coherence.KeepsCoherent | src/onceproof/store.py:206-331 | Every operation keeps references whole, at most one current credential and one decision per key, superseded rows dated and both consumption columns set together |
| Coherence.ReachableIsCoherent | src/onceproof/store.py:206-331 | Every state of every run, with any clock, satisfies those invariants |
| Coherence.ExactlyOneCurrent | src/onceproof/store.py:765-774 | In every reachable state an active client has exactly one current credential per role, so rotation never fails for want of one |
| Coherence.ClosedStaysClosed | src/onceproof/store.py:811-849 | A revoked client stays revoked over every run |
| Coherence.RevocationIsFinal | src/onceproof/store.py:811-849 | No credential of a revoked client is ever accepted again, at any time |
| Coherence.LapsedStaysLapsed | src/onceproof/store.py:91-95 | A credential not accepted at one time is not accepted later in the run, at that time or a later one |
| Coherence.CleanupKeepsAuthentication | src/onceproof/store.py:864-875 | Cleanup changes no authentication decision at its own time or any later one |
| Requests.ThreeParts | src/onceproof/service.py:67-80 | Splitting at dots and joining three dotless parts are inverse, for all texts |
| Requests.ProofNamesItsKey | src/onceproof/service.py:76-80 | A proof names a key exactly when it was minted in that form under that key |
| Requests.SecretNamesItsCredential | src/onceproof/service.py:67-73 | A secret names a credential and role exactly when it was minted in that form for them |
| Requests.RolesNeverConfused | src/onceproof/service.py:67-73 | No text is a secret of both roles |
| RateQuota.TableStaysWithinLimit | src/onceproof/store.py:1159-1188 | With any clock, the table never holds more rows of a client and operation than its limit |
| RateQuota.AdmissionHadRoom | src/onceproof/store.py:1173-1184 | Every admission found fewer slots taken than the limit |
| RateQuota.TableRefinesLog | src/onceproof/store.py:1168-1188 | With a nondecreasing clock, the pruned table and the log of all admissions show the same slots from any cutoff on |
| RateQuota.PrunedDecisionIsExact | src/onceproof/store.py:1168-1188 | The admit or refuse decision, with its wait, is the one the full log would give |
| RateQuota.RollingQuota | src/onceproof/store.py:1159-1188 | No window of 60 seconds of a whole run holds more committed admissions per client and operation than the limit |
| RateQuota.RefusalIsFull | src/onceproof/store.py:1181-1184 | A refusal sees exactly the limit, and reports the oldest slot's remaining time, 1 to 60 without clamping |
| RateQuota.RetryAfterIsExact | src/onceproof/store.py:1181-1184 | If nothing else is admitted meanwhile, a later request for a slot succeeds exactly from the reported wait on |
| RateQuota.RetryAfterAsSeen | src/onceproof/store.py:565-571 | The same as a caller sees it: refused again before the wait is over, not rate limited from then on |
| Idempotency.FreshIsTrusted | src/onceproof/store.py:160-203 | Every result the ledger decides is one the codec gives back unchanged |
| Idempotency.ReachableIsPersistent | src/onceproof/store.py:1190-1218 | Every stored decision of every run decodes, with its own identifier and time |
| Idempotency.RetriesNeverCorrupt | src/onceproof/store.py:1033-1055 | Looking up a stored decision never reports corruption |
| Idempotency.StableIdempotency | src/onceproof/store.py:644-651 | For 86,400 seconds every authorised use of the key answers the identical result to a request for the same proof, subject, purpose and audience and a conflict to one that differs in any of the four, spends no quota and changes no table |
| Idempotency.KeyedRetryIsStable | src/onceproof/service.py:298-328 | The same from secret to reply, with other transactions in between: identical result exactly if the presented proof, subject, purpose and audience are those first presented under the key, else a conflict, and no change |
| Idempotency.PresentationIsStored | src/onceproof/service.py:303-328 | A decision is stored under the key presented, with the four parts presented |
| Idempotency.UnauthenticatedReply | src/onceproof/service.py:283-296 | Without authentication nothing is looked up or changed, and the witness names neither client nor proof |
| Idempotency.FastPathRefinesSlowPath | src/onceproof/store.py:1057-1092 | Whatever the lookup before the lock returns or raises, the transaction at that point answers too and changes nothing, and it finds a decision exactly when the transaction would replay one |
| Idempotency.TwoStepsAreOne | src/onceproof/service.py:309-328 | Lookup and transaction in two states together equal one atomic consume at one of them |
| Lifecycle.VerdictShowsPhase | src/onceproof/store.py:661-722 | A fresh verdict to the proof's own client tells whether it is live, consumed, expired or forgotten, with the binding checked last, and its witness carries exactly the matching state, tag, client and time |
| Lifecycle.ForeignProofLooksUnknown | src/onceproof/store.py:662-675 | Another client's proof gets exactly the verdict of one that was never issued, and is left alone |
| Lifecycle.PhasesAdvance | src/onceproof/store.py:859-863 | The phase of a proof only moves forward: live, then consumed or expired, then forgotten |
| Lifecycle.VerdictsAdvance | src/onceproof/store.py:666-722 | Successive fresh verdicts: once consumed never expired, once expired never consumed, nothing accepted after either |
| Lifecycle.ConsumedIsRemembered | src/onceproof/store.py:676-683 | A consumed proof reads `already_consumed` to its client as long as no cleanup is later than 3600 s past its expiry |
| Lifecycle.ExpiredIsRemembered | src/onceproof/store.py:684-691 | An unconsumed proof reads `expired` from its expiry on, just as long |
| Lifecycle.AcceptanceIsAtomic | src/onceproof/store.py:704-743 | In one committed step a proof is consumed exactly when an accepting decision with its tag and a `proof_verified` audit row with its tag appear |
| Audit.EveryChangeIsAudited | src/onceproof/store.py:1220-1249 | Outside cleanup and sealing, an operation changes the tables exactly when it adds its one audit row, of the kind and columns of what it did |
| Audit.RowsStayForAWeek | src/onceproof/store.py:880-883 | For a week an audit row stays as written, whatever else happens |
| Audit.AcceptanceStaysAudited | src/onceproof/store.py:733-743 | Every accepted verification of a run can be read off the audit log for a week, with the tag of its proof |
| Retention.CleanupIsExact | src/onceproof/store.py:851-902 | A cleanup keeps exactly: proofs 3600 s past expiry, decisions 86,400 s, audit rows 604,800 s, rate events 60 s, and credentials that are current, not over, or issuers of a kept proof; and changes no row |
| Retention.RetainedProofHasDecision | src/onceproof/store.py:859-879 | For any cleanup times, a retained consumed proof has the decision it names, which decodes to its acceptance, and its issuing credential, if the consuming clock was at most 79,200 s behind the issuing one |
| Retention.SpanIsExact | src/onceproof/store.py:20-21 | All cleanup times keep the decision as long as the proof exactly when expiry is at most 82,800 s past consumption |
| Retention.DecisionCanBeLost | src/onceproof/store.py:859-879 | A concrete run in which the clock runs back between issue and consumption, and a cleanup keeps the proof and drops the decision it names |
| Retention.RetirementIsExact | src/onceproof/store.py:904-914 | After the rotations one cleanup later than t + grace + 7200 leaves no proof of the old key, and a credential of it exactly when one was revoked at the cleanup time or later |
| Retention.RetirementBound | src/onceproof/store.py:859-875 | In particular the key is unused then if every revocation carries an earlier time |
| Retention.RetirementCanBeHeldBack | src/onceproof/store.py:831-841 | A concrete run in which a revocation in the cleanup's second keeps the old key in use |
| Retention.RevokedThenCleaned | src/onceproof/store.py:831-841 | A revocation restamps a lapsed credential, and no cleanup up to that time frees its key |
| Retention.RotationSucceeds | src/onceproof/store.py:757-809 | Rotation succeeds for every active client of a coherent ledger under a fresh identifier and a matching key |
| Retention.CreationSucceeds | src/onceproof/store.py:461-508 | Creation succeeds for fresh identifiers and policy values in range, under a new key or one registered with the same check |
| Acceptance.KeepsSound | src/onceproof/store.py:604-743 | Every transaction, backup, service check and lookup step on any branch keeps the invariant that ties rows, receipts and acceptances together |
| Acceptance.HistoryIsSound | src/onceproof/store.py:604-743 | Every universe of every history satisfies it |
| Acceptance.ResponseIsAcceptance | src/onceproof/store.py:1033-1055 | A response that says verified, fresh or replayed, is the one recorded acceptance, on the branch that issued the proof, of a client created there |
| Acceptance.AtMostOneAcceptance | src/onceproof/store.py:644-722 | Over any history, any clocks, any cleanups, all backups and restores: all verified responses about one proof are one result from one branch, at most one of them fresh |
| Acceptance.AcceptanceHasProvenance | src/onceproof/service.py:217-262 | Claims of a verified response, fresh or repeated, are the bindings asked about and those of an earlier issue of that proof on that branch, dated at its lock, with an audience and TTL of the client's policy, decided before the expiry, although the checks ran before the lock |
| Acceptance.NoResurrection | src/onceproof/store.py:1094-1126 | On a restored branch no proof issued before the backup and no client known to it is ever answered verified, sealed or activated |
| Acceptance.SealedBranchIsInert | src/onceproof/store.py:1135-1138 | A sealed snapshot issues nothing, accepts nothing and answers nothing verified, neither from a transaction nor from a lookup of a stored decision |
| Acceptance.RecordsAreStable | src/onceproof/store.py:704-714 | Receipts and acceptances, once recorded, stay as they are through every later step |
| Store.Store.RegisterHashKey | src/onceproof/store.py:1140-1157 | Records a new key's check, accepts an equal one, reports corruption for a different one |
| Store.Store.InsertCredential | src/onceproof/store.py:485-501 | Inserts a current credential, or fails on a duplicate, a missing client or a second current one |
| Store.Store.ConsumeRateSlot | src/onceproof/store.py:1159-1188 | Prunes, then takes a slot or reports the wait |
| Store.Store.FindDecision | src/onceproof/store.py:1043-1050 | Finds the decision of this client and key if there is one |
| Store.Store.FindCurrent | src/onceproof/store.py:767-774 | Finds the current credential of this client and role if there is one |
| Store.Store.IdempotentResult | src/onceproof/store.py:1033-1055 | Stored result, nothing, conflict or corruption |
| Store.Store.CreateClient | src/onceproof/store.py:447-508 | All of the creation or none of it, under an exception between any two statements |
| Store.Store.IssueProof | src/onceproof/store.py:538-602 | All of the issue or none of it |
| Store.Store.DecideProof | src/onceproof/store.py:661-722 | The branches of a decision, in order, and the one row it may update |
| Store.Store.ConsumeProof | src/onceproof/store.py:604-743 | All of the verification or none of it, replay and refusal included |
| Store.Store.CachedVerification | src/onceproof/store.py:1057-1092 | The lookup before the lock, which changes nothing |
| Store.Store.RotateCredential | src/onceproof/store.py:745-809 | All of the rotation or none of it |
| Store.Store.RevokeClient | src/onceproof/store.py:811-849 | All of the revocation or none of it, and false without change for a revoked client |
| Store.Store.Clean | src/onceproof/store.py:851-902 | All five deletions, in order, with the number of rows each table lost, or none |
| Store.Store.Backup | src/onceproof/store.py:985-1031 | A sealed copy of every table or, when copying fails, nothing; the store is only read |
| Store.Store.ActivateRestoredBackup | src/onceproof/store.py:1094-1126 | All of the activation or none of it |
| Store.Store.HashKeyIsInUse | src/onceproof/store.py:904-914 | False exactly when no credential row and no proof row names the key |
| Store.Store.ReferencedHashKeyChecks | src/onceproof/store.py:937-962 | The recorded check of exactly the referenced keys; corruption exactly when one has none |
| KeyRing.KeyRing.Load | src/onceproof/keyring.py:191-205 | A keyring in step with its file, the parse error, or a refusal of a path that is not a regular closed file |
| KeyRing.KeyRing.Stable | src/onceproof/keyring.py:226-235 | Succeeds exactly when memory equals the generation on disk |
| KeyRing.KeyRing.ReplaceAndReload | src/onceproof/keyring.py:237-249 | After any failure the file holds the old or the new generation and memory follows it, except when it cannot be read back, which is reported as uncertain |
| KeyRing.KeyRing.Rotate | src/onceproof/keyring.py:251-260 | Adds a current key and keeps every other, or refuses a stale copy without writing |
| KeyRing.KeyRing.Retire | src/onceproof/keyring.py:262-280 | Removes exactly a previous, unused key; refuses a stale copy, the current key, an unknown key and a used one without writing |
| KeyProtocol.ChecksAreStable | src/onceproof/store.py:1140-1157 | A recorded key check never changes and never goes |
| KeyProtocol.KeepsKeySafe | src/onceproof/service.py:173-199 | A transaction that uses the current key of an up-to-date copy keeps ledger and keyring in step |
| KeyProtocol.KeepsSafe | src/onceproof/cli.py:127-238 | Every step of every process keeps key references, lock ownership, freshness of acted-on copies and restorability of backups |
| KeyProtocol.ExecutionIsSafe | src/onceproof/cli.py:127-238 | Every world of every interleaving satisfies that invariant |
| KeyProtocol.KeyReferencesAreSafe | src/onceproof/keyring.py:226-280 | Every key that a credential row or a proof row names is in the keyring file and has the check of exactly that key |
| KeyProtocol.RetiredKeyIsUnused | src/onceproof/keyring.py:262-280 | When a retirement writes, no credential row and no proof row names the key, although they were read in separate steps while others ran |
| KeyProtocol.BackupPairsRestore | src/onceproof/keyring.py:282-306 | Every completed backup pair is sealed, and a new instance can start from it |
| KeyProtocol.ServerKeysAreReady | src/onceproof/service.py:393-404 | References read at one step and checks at a later one both agree with a running server's copy |
| KeyProtocol.AuthenticationIsExact | src/onceproof/service.py:411-427 | A server accepts a secret exactly when it is the one registered for an accepted credential of that role |
| KeyProtocol.AuthenticatedIsAuthorised | src/onceproof/service.py:411-427 | In a coherent ledger whoever authenticates is the accepted credential of an active client, as the transaction requires |
| KeyProtocol.LiveProofIsAccepted | src/onceproof/service.py:265-328 | From secret to reply: after an issue, through any undisturbing steps of any processes, also between the authentication, the lookup and the transaction, presenting the proof with its bindings before expiry, without a key, with a secret of a verifier of its client that is accepted on arrival and at the lock, is accepted with the issued claims or rate limited, and nothing else |
| KeyProtocol.MutualExclusion | src/onceproof/locking.py:20-52 | In every world of every interleaving, no two processes own the instance lock together, or the keyring file lock |
| KeyProtocol.BackupRunsBesideServer | src/onceproof/cli.py:127-138 | From every start there is an execution in which a server serves while a backup is half done, and key commands must wait |
| KeyProtocol.UnnamedKeyCanGo | src/onceproof/keyring.py:273-280 | Removing a previous key that no row names leaves a keyring that serves the ledger |
| Service.PreparedIssueIsVetted | src/onceproof/service.py:217-251 | What leaves the checks before the lock authenticated, is within the policy read after that, and is minted and digested under the current key |
| Service.PreparedAsAsked | src/onceproof/service.py:218-246 | Which check before the lock refuses an issue and with what; what passes is an issue of exactly the subject, purpose, audience and period asked for, for the client of the secret |
| Service.RequestedProofIsAccepted | src/onceproof/service.py:202-328 | From the request to issue to the reply of a verification: presented with the bindings asked for, within the period asked for, the proof is accepted with exactly those claims or rate limited |
| Service.CreatedSecretsWork | src/onceproof/service.py:173-200 | Each secret handed to a new client authenticates at once, for its own role only |
| Service.RotatedSecretsWork | src/onceproof/service.py:347-374 | After a rotation the new secret authenticates, and the replaced one exactly until the grace has passed |
| Service.Distinct | src/onceproof/service.py:159 | Keeps every audience once, in the order of first occurrence |
| Service.OnceproofService.AuthenticateSecret | src/onceproof/service.py:411-427 | The credential a secret authenticates, or none |
| Service.OnceproofService.CreateClient | src/onceproof/service.py:146-200 | Refuses bad policy and a stale keyring untouched; otherwise all or nothing. Success adds exactly one active client with the name, audiences, TTL and the two limits asked for, and its two credentials, drawn identifiers and secrets digested under the current key |
| Service.OnceproofService.IssueProof | src/onceproof/service.py:202-263 | With other callers at work in between: refuses before the lock without a trace; otherwise all or nothing of the prepared issue, and a granted proof has the subject, purpose, audience and period asked for |
| Service.OnceproofService.VerifyProof | src/onceproof/service.py:265-328 | With other callers at work in between: reply and effect are those of the one verification that authenticates, looks up and consumes in these three ledgers |
| Service.OnceproofService.RotateCredential | src/onceproof/service.py:330-374 | Refuses a grace outside 0 to 86,400 and a stale keyring untouched; otherwise all or nothing. Success changes exactly the superseded row and adds the row of the new secret under the current key |
| Service.OnceproofService.RetireHashKey | src/onceproof/service.py:389-391 | Succeeds only for a previous key that no credential and no proof row names, refuses one that is named as such, and in every outcome leaves a keyring that serves the ledger |
| Service.OnceproofService.Ready | src/onceproof/service.py:393-404 | Ready exactly when the database probes pass, the ledger is open and every key that a credential or proof row names is in the keyring unchanged |
| Service.OnceproofService.BackupWith | src/onceproof/cli.py:400-435 | Success means a sealed copy of the ledger and a keyring text that reads back as this generation, which is the one on disk; a stale copy is refused |
| Service.VerifyBackup | src/onceproof/cli.py:378-391 | Valid exactly when the files are intact, the copy is sealed and its keyring serves it |
| Service.CompletedBackupVerifies | src/onceproof/cli.py:378-391 | Every backup pair completed in any interleaving passes that verification |
| Service.SafeWorldIsReady | src/onceproof/service.py:393-404 | The readiness condition on keys holds for every server of every interleaving |

## Left out

- HTTP, request parsing, in-flight counting and the server loop: plumbing around the operations modelled here.
- Argument validators by pattern or length: strings are unrestricted, and nonempty where `Validated` says so.
- The throttling of cleanup by the service: cleanup is an environment step at any time.
- SQLite itself: pragmas, schema checks and file durability; transactions are serialised and roll back, constraints are
  failing inserts.
- JSON text: the codecs work on decoded values, and duplicate fields in a file are not modelled.
- The audit columns `outcome` and `event_id` format, and read-only reports (status, inspect, doctor).
- The backup directory with its manifest, markers and checksums: a backup is the pair of ledger and keyring.
- Configuration, file permissions, symbolic links, temporary files, platform branches and containers.
- Writing new secrets to a file before the commit: a secret may be delivered for a transaction that then fails.
- Readiness and diagnosis from a second process beside a key change: its stale copy may report not ready.
- KeyRing.KeyRing.Rotate: the fresh identifier is a parameter that differs from those in the ring, not a loop that draws.
- Store.Store.DecideProof: modelled without interruption inside, because it has a single statement that writes.
- Store.Store.CachedVerification: the flag, the credential and the decision are read from one state, because the method
  holds the store for itself; the steps BeginLookup and EndLookup of Acceptance read the decision in a later state.
- Store.Store.Backup: the refused paths (the ledger itself, an existing file, a missing directory) are left out.
- KeyRing.KeyRing.Stable: a file that cannot be read any more after loading is not modelled, only one that does not parse.
- Service.OnceproofService.CreateClient: patterns of names and audiences and the credential sink are left out.
- Service.OnceproofService.BackupWith: the directory, the manifest and the checksums are left out.
- Service.OnceproofService.Ready: the version, pragma, schema and write-lock probes are one given answer.
- Service.VerifyBackup: the manifest, checksum and integrity checks are one given answer.
- The two file locks are steps of KeyProtocol; the classes KeyRing and Store take none.
