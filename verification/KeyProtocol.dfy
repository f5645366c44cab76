/**
 * Processes, two locks, two stores and stale copies (src/onceproof/keyring.py, cli.py, locking.py).
 *
 * The server and the key commands hold the instance lock. Client creation and rotation, the key commands and
 * backup hold the keyring file lock across their dependent step. Every process loads its own copy of the
 * keyring, and may stop anywhere, which releases its locks.
 */
module KeyProtocol {
  import opened Wrappers
  import opened Verdict
  import opened KeyringCodec
  import opened Schema
  import opened Transactions
  import opened Runs
  import opened Effects
  import opened Coherence
  import opened Idempotency
  import opened Requests

  type Pid = nat

  datatype Proc =
    // serve
    | ServerStarting
    | Serving(ring: Ring)
    // client create, client rotate
    | ClientLoaded(ring: Ring)
    | ClientLocked(ring: Ring)
    // key rotate, key retire, activate-restore
    | KeyHeld
    | KeyLoaded(ring: Ring)
    | KeyLocked(ring: Ring)
    | CredentialsChecked(ring: Ring, kid: Kid)
    | ProofsChecked(ring: Ring, kid: Kid)
    | KeyWritten
    // backup
    | BackupLoaded(ring: Ring)
    | BackupLocked(ring: Ring)
    | BackupCopied(ring: Ring, copy: Ledger)

  predicate HoldsInstance(p: Proc) {
    p.ServerStarting? || p.Serving? || p.KeyHeld? || p.KeyLoaded? || p.KeyLocked?
    || p.CredentialsChecked? || p.ProofsChecked? || p.KeyWritten?
  }

  predicate HoldsFile(p: Proc) {
    p.ClientLocked? || p.KeyLocked? || p.CredentialsChecked? || p.ProofsChecked? || p.KeyWritten?
    || p.BackupLocked? || p.BackupCopied?
  }

  datatype World = World(
    ledger: Ledger, disk: Ring, instanceLock: Option<Pid>, fileLock: Option<Pid>,
    procs: map<Pid, Proc>, backups: seq<(Ledger, Ring)>)

  datatype Event =
    | ServerStart(pid: Pid)
    | ServerLoad(pid: Pid)
    | ServerWork(pid: Pid, op: Op)
    | ClientLoad(pid: Pid)
    | ClientLock(pid: Pid)
    | ClientCommit(pid: Pid, op: Op)
    | KeyStart(pid: Pid)
    | KeyLoad(pid: Pid)
    | KeyLock(pid: Pid)
    | RotateWrite(pid: Pid, kid: Kid, key: Key)
    | CheckCredentials(pid: Pid, kid: Kid)
    | CheckProofs(pid: Pid)
    | RetireWrite(pid: Pid)
    | Reactivate(pid: Pid, op: Op)
    | Administer(op: Op)
    | BackupLoad(pid: Pid)
    | BackupLock(pid: Pid)
    | BackupCopy(pid: Pid)
    | BackupWrite(pid: Pid)
    | Exit(pid: Pid)

  // ----- operations that use a keyring copy -----

  predicate UsesCurrentKey(op: Op, ring: Ring) {
    ring.current in ring.keys &&
    var key := ring.keys[ring.current];
    match op
    case Issue(digest, record, check, _, _) =>
      && record.hashKid == ring.current && check == KeyCheck(key)
      && digest == Keyed(key, digest.proof) && ProofKid(digest.proof) == Some(ring.current)
    case Create(_, _, _, _, _, _, kid, check, _, issuanceDigest, _, verificationDigest, _, _) =>
      kid == ring.current && check == KeyCheck(key) && issuanceDigest.key == key && verificationDigest.key == key
    case Rotate(_, _, _, kid, secretDigest, check, _, _, _) =>
      kid == ring.current && check == KeyCheck(key) && secretDigest.key == key
    case _ => true
  }

  predicate PresentsByRing(op: Op, ring: Ring) {
    op.Verify? ==> op.request.digest == PresentedDigest(ring, op.request.digest.proof)
  }

  // ----- steps -----

  predicate At(w: World, pid: Pid) {
    pid in w.procs
  }

  ghost predicate Enabled(w: World, e: Event) {
    match e
    case ServerStart(pid) => pid !in w.procs && w.instanceLock.None?
    case ServerLoad(pid) => At(w, pid) && w.procs[pid].ServerStarting?
    case ServerWork(pid, op) =>
      && At(w, pid) && w.procs[pid].Serving? && (op.Issue? || op.Verify? || op.Clean?)
      && UsesCurrentKey(op, w.procs[pid].ring) && PresentsByRing(op, w.procs[pid].ring)
    case ClientLoad(pid) => pid !in w.procs
    case ClientLock(pid) => At(w, pid) && w.procs[pid].ClientLoaded? && w.fileLock.None? && w.procs[pid].ring == w.disk
    case ClientCommit(pid, op) =>
      && At(w, pid) && w.procs[pid].ClientLocked? && (op.Create? || op.Rotate?)
      && UsesCurrentKey(op, w.procs[pid].ring)
    case KeyStart(pid) => pid !in w.procs && w.instanceLock.None?
    case KeyLoad(pid) => At(w, pid) && w.procs[pid].KeyHeld?
    case KeyLock(pid) => At(w, pid) && w.procs[pid].KeyLoaded? && w.fileLock.None? && w.procs[pid].ring == w.disk
    case RotateWrite(pid, kid, _) =>
      At(w, pid) && w.procs[pid].KeyLocked? && kid !in w.procs[pid].ring.keys && IsKid(kid) && '.' !in kid
    case CheckCredentials(pid, kid) =>
      && At(w, pid) && w.procs[pid].KeyLocked?
      && kid != w.procs[pid].ring.current && kid in w.procs[pid].ring.keys
      && forall id :: id in w.ledger.credentials ==> w.ledger.credentials[id].hashKid != kid
    case CheckProofs(pid) =>
      && At(w, pid) && w.procs[pid].CredentialsChecked?
      && forall d :: d in w.ledger.proofs ==> w.ledger.proofs[d].hashKid != w.procs[pid].kid
    case RetireWrite(pid) => At(w, pid) && w.procs[pid].ProofsChecked?
    case Reactivate(pid, op) => At(w, pid) && w.procs[pid].KeyLoaded? && op.Activate?
    case Administer(op) => op.Revoke? || op.Clean?
    case BackupLoad(pid) => pid !in w.procs
    case BackupLock(pid) => At(w, pid) && w.procs[pid].BackupLoaded? && w.fileLock.None? && w.procs[pid].ring == w.disk
    case BackupCopy(pid) => At(w, pid) && w.procs[pid].BackupLocked?
    case BackupWrite(pid) => At(w, pid) && w.procs[pid].BackupCopied?
    case Exit(pid) => At(w, pid)
  }

  /** The one ledger transaction of a step, if it has one. */
  function Transacts(e: Event): Option<Op> {
    match e
    case ServerWork(_, op) => Some(op)
    case ClientCommit(_, op) => Some(op)
    case Reactivate(_, op) => Some(op)
    case Administer(op) => Some(op)
    case _ => None
  }

  ghost function LedgerAfterEvent(w: World, e: Event): Ledger {
    if Transacts(e).Some? then Next(w.ledger, Transacts(e).value) else w.ledger
  }

  function DiskAfter(w: World, e: Event): Ring {
    match e
    case RotateWrite(pid, kid, key) =>
      if At(w, pid) && w.procs[pid].KeyLocked?
      then Ring(kid, w.procs[pid].ring.keys[kid := key]) else w.disk
    case RetireWrite(pid) =>
      if At(w, pid) && w.procs[pid].ProofsChecked?
      then Ring(w.procs[pid].ring.current, w.procs[pid].ring.keys - {w.procs[pid].kid}) else w.disk
    case _ => w.disk
  }

  ghost function After(w: World, e: Event): World
    requires Enabled(w, e)
  {
    var v := w.(ledger := LedgerAfterEvent(w, e), disk := DiskAfter(w, e));
    match e
    case ServerStart(pid) => v.(procs := w.procs[pid := ServerStarting], instanceLock := Some(pid))
    case ServerLoad(pid) => v.(procs := w.procs[pid := Serving(w.disk)])
    case ClientLoad(pid) => v.(procs := w.procs[pid := ClientLoaded(w.disk)])
    case ClientLock(pid) => v.(procs := w.procs[pid := ClientLocked(w.procs[pid].ring)], fileLock := Some(pid))
    case KeyStart(pid) => v.(procs := w.procs[pid := KeyHeld], instanceLock := Some(pid))
    case KeyLoad(pid) => v.(procs := w.procs[pid := KeyLoaded(w.disk)])
    case KeyLock(pid) => v.(procs := w.procs[pid := KeyLocked(w.procs[pid].ring)], fileLock := Some(pid))
    case RotateWrite(pid, _, _) => v.(procs := w.procs[pid := KeyWritten])
    case CheckCredentials(pid, kid) => v.(procs := w.procs[pid := CredentialsChecked(w.procs[pid].ring, kid)])
    case CheckProofs(pid) => v.(procs := w.procs[pid := ProofsChecked(w.procs[pid].ring, w.procs[pid].kid)])
    case RetireWrite(pid) => v.(procs := w.procs[pid := KeyWritten])
    case BackupLoad(pid) => v.(procs := w.procs[pid := BackupLoaded(w.disk)])
    case BackupLock(pid) => v.(procs := w.procs[pid := BackupLocked(w.procs[pid].ring)], fileLock := Some(pid))
    case BackupCopy(pid) => v.(procs := w.procs[pid := BackupCopied(w.procs[pid].ring, Snapshot(w.ledger))])
    case BackupWrite(pid) =>
      v.(procs := w.procs[pid := BackupLocked(w.procs[pid].ring)],
         backups := w.backups + [(w.procs[pid].copy, w.procs[pid].ring)])
    case Exit(pid) =>
      v.(procs := w.procs - {pid},
         instanceLock := if w.instanceLock == Some(pid) then None else w.instanceLock,
         fileLock := if w.fileLock == Some(pid) then None else w.fileLock)
    case _ => v
  }

  // ----- the invariant -----

  /** The keyring has this key, and the ledger recorded the check of exactly this key. */
  predicate KidSafe(l: Ledger, ring: Ring, kid: Kid) {
    kid in ring.keys && kid in l.hashKeys && l.hashKeys[kid] == KeyCheck(ring.keys[kid])
  }

  /** The keyring has every key that a credential or a proof names, with the recorded check. */
  ghost predicate Serviceable(l: Ledger, ring: Ring) {
    && (forall id :: id in l.credentials ==> KidSafe(l, ring, l.credentials[id].hashKid))
    && (forall d :: d in l.proofs ==> KidSafe(l, ring, l.proofs[d].hashKid))
  }

  /** Every key the ledger names is in the keyring, unchanged since the row was written. */
  ghost predicate KeySafe(l: Ledger, ring: Ring) {
    && ring.current in ring.keys
    && (forall kid :: kid in ring.keys ==> IsKid(kid) && '.' !in kid)
    && (forall id :: id in l.credentials ==>
          KidSafe(l, ring, l.credentials[id].hashKid)
          && l.credentials[id].secretDigest.key == ring.keys[l.credentials[id].hashKid])
    && (forall d :: d in l.proofs ==>
          KidSafe(l, ring, l.proofs[d].hashKid)
          && d == Keyed(ring.keys[l.proofs[d].hashKid], d.proof)
          && ProofKid(d.proof) == Some(l.proofs[d].hashKid))
  }

  /** A backup can be restored: it is sealed and its keyring serves its ledger. */
  ghost predicate Restorable(b: (Ledger, Ring)) {
    Sealed(b.0) && Coherent(b.0) && KeySafe(b.0, b.1)
  }

  ghost predicate Locks(w: World) {
    forall pid :: pid in w.procs ==>
      && (HoldsInstance(w.procs[pid]) ==> w.instanceLock == Some(pid))
      && (HoldsFile(w.procs[pid]) ==> w.fileLock == Some(pid))
  }

  /** A copy that a process acts on equals the file, and what a retire command has checked still holds. */
  ghost predicate CopyIsFresh(w: World, p: Proc) {
    match p
    case Serving(ring) => ring == w.disk
    case ClientLocked(ring) => ring == w.disk
    case KeyLoaded(ring) => ring == w.disk
    case KeyLocked(ring) => ring == w.disk
    case CredentialsChecked(ring, kid) => ring == w.disk && kid != ring.current && CredentialsAvoid(w.ledger, kid)
    case ProofsChecked(ring, kid) =>
      ring == w.disk && kid != ring.current && CredentialsAvoid(w.ledger, kid) && ProofsAvoid(w.ledger, kid)
    case BackupLocked(ring) => ring == w.disk
    case BackupCopied(ring, copy) => ring == w.disk && Restorable((copy, ring))
    case _ => true
  }

  ghost predicate Fresh(w: World) {
    forall pid :: pid in w.procs ==> CopyIsFresh(w, w.procs[pid])
  }

  ghost predicate Safe(w: World) {
    && Coherent(w.ledger)
    && KeySafe(w.ledger, w.disk)
    && Locks(w)
    && Fresh(w)
    && forall i :: 0 <= i < |w.backups| ==> Restorable(w.backups[i])
  }

  // ----- ledger steps and the keyring -----

  /** A recorded key check never changes and never disappears. */
  lemma ChecksAreStable(l: Ledger, op: Op)
    ensures forall kid :: kid in l.hashKeys ==>
              kid in Next(l, op).hashKeys && Next(l, op).hashKeys[kid] == l.hashKeys[kid]
  {
    if Issues(l, op) { IssueCommits(l, op); }
    else if Creates(l, op) { CreateCommits(l, op); }
    else if Decides(l, op) { DecideCommits(l, op); }
    else if Rotates(l, op) { RotateCommits(l, op); }
    else if Revokes(l, op) { RevokeCommits(l, op); }
    else if Activates(l, op) { ActivateCommits(l, op); }
    else if !op.Clean? && !op.Seal? { RollsBack(l, op); }
  }

  lemma CredentialKeySafe(l: Ledger, op: Op, ring: Ring, id: Id)
    requires KeySafe(l, ring) && UsesCurrentKey(op, ring) && id in Next(l, op).credentials
    ensures KidSafe(Next(l, op), ring, Next(l, op).credentials[id].hashKid)
    ensures Next(l, op).credentials[id].secretDigest.key == ring.keys[Next(l, op).credentials[id].hashKid]
  {
    hide Next, ProofKid, Issues, Decides, Accepts, Revokes, Activates;
    ChecksAreStable(l, op);
    CredentialSteps(l, op, id);
    if Creates(l, op) { CreateCommits(l, op); }
    if Rotates(l, op) { RotateCommits(l, op); }
  }

  lemma ProofKeySafe(l: Ledger, op: Op, ring: Ring, d: TokenDigest)
    requires KeySafe(l, ring) && UsesCurrentKey(op, ring) && d in Next(l, op).proofs
    ensures var p := Next(l, op).proofs[d];
            && KidSafe(Next(l, op), ring, p.hashKid)
            && d == Keyed(ring.keys[p.hashKid], d.proof)
            && ProofKid(d.proof) == Some(p.hashKid)
  {
    hide Next, ProofKid, Creates, Decides, Accepts, Rotates, Revokes, Activates;
    ChecksAreStable(l, op);
    ProofSteps(l, op, d);
    if Issues(l, op) { IssueCommits(l, op); }
  }

  /** A transaction that uses the current key of an up-to-date copy keeps the ledger and the keyring in step. */
  lemma KeepsKeySafe(l: Ledger, op: Op, ring: Ring)
    requires KeySafe(l, ring) && UsesCurrentKey(op, ring)
    ensures KeySafe(Next(l, op), ring)
  {
    hide Next, ProofKid, UsesCurrentKey;
    forall id | id in Next(l, op).credentials
      ensures KidSafe(Next(l, op), ring, Next(l, op).credentials[id].hashKid)
              && Next(l, op).credentials[id].secretDigest.key == ring.keys[Next(l, op).credentials[id].hashKid]
    {
      CredentialKeySafe(l, op, ring, id);
    }
    forall d | d in Next(l, op).proofs
      ensures KidSafe(Next(l, op), ring, Next(l, op).proofs[d].hashKid)
              && d == Keyed(ring.keys[Next(l, op).proofs[d].hashKid], d.proof)
              && ProofKid(d.proof) == Some(Next(l, op).proofs[d].hashKid)
    {
      ProofKeySafe(l, op, ring, d);
    }
  }

  /** Only issue, create and rotate add references to keys. */
  lemma AddsNoReference(l: Ledger, op: Op, kid: Kid)
    requires !op.Issue? && !op.Create? && !op.Rotate?
    ensures CredentialsAvoid(l, kid) ==> CredentialsAvoid(Next(l, op), kid)
    ensures ProofsAvoid(l, kid) ==> ProofsAvoid(Next(l, op), kid)
  {
    hide Next;
    forall id | id in Next(l, op).credentials && CredentialsAvoid(l, kid)
      ensures Next(l, op).credentials[id].hashKid != kid
    {
      CredentialSteps(l, op, id);
    }
    forall d | d in Next(l, op).proofs && ProofsAvoid(l, kid)
      ensures Next(l, op).proofs[d].hashKid != kid
    {
      ProofSteps(l, op, d);
    }
  }

  // ----- preservation -----

  /** Replacing the keyring file keeps it serving the ledger: a key is added, or one no row names is removed. */
  lemma WritesStaySafe(w: World, e: Event)
    requires Safe(w) && Enabled(w, e) && (e.RotateWrite? || e.RetireWrite?)
    ensures KeySafe(w.ledger, DiskAfter(w, e))
  {
    hide ProofKid, Restorable, Coherent, Locks, Next, UsesCurrentKey, PresentsByRing;
    assert CopyIsFresh(w, w.procs[e.pid]);
  }

  /** A key that no row names can leave the keyring. */
  lemma UnnamedKeyCanGo(l: Ledger, ring: Ring, kid: Kid)
    requires KeySafe(l, ring) && kid != ring.current && CredentialsAvoid(l, kid) && ProofsAvoid(l, kid)
    ensures KeySafe(l, Ring(ring.current, ring.keys - {kid}))
  {
    hide ProofKid;
  }

  lemma LedgerAndDiskStaySafe(w: World, e: Event)
    requires Safe(w) && Enabled(w, e)
    ensures KeySafe(After(w, e).ledger, After(w, e).disk)
  {
    hide Next, KeySafe, Restorable, Locks, Coherent;
    match e
    case ServerWork(pid, op) => assert CopyIsFresh(w, w.procs[pid]); KeepsKeySafe(w.ledger, op, w.disk);
    case ClientCommit(pid, op) => assert CopyIsFresh(w, w.procs[pid]); KeepsKeySafe(w.ledger, op, w.disk);
    case Reactivate(_, op) => KeysOfSafe(w); KeepsKeySafe(w.ledger, op, w.disk);
    case Administer(op) => KeysOfSafe(w); KeepsKeySafe(w.ledger, op, w.disk);
    case RotateWrite(pid, _, _) => WritesStaySafe(w, e);
    case RetireWrite(pid) => WritesStaySafe(w, e);
    case _ =>
  }

  lemma KeysOfSafe(w: World)
    requires Safe(w)
    ensures w.disk.current in w.disk.keys
  {
  }

  lemma LocksStay(w: World, e: Event)
    requires Locks(w) && Enabled(w, e)
    ensures Locks(After(w, e))
  {
    hide Next, DiskAfter, UsesCurrentKey, PresentsByRing;
  }

  /** Whoever writes the keyring or the rows naming its keys excludes every process whose copy must not go stale. */
  lemma OthersStayFresh(w: World, e: Event, pid: Pid)
    requires Safe(w) && Enabled(w, e) && pid in w.procs && pid in After(w, e).procs
    requires After(w, e).procs[pid] == w.procs[pid]
    ensures CopyIsFresh(After(w, e), w.procs[pid])
  {
    hide Next, KeySafe, UsesCurrentKey, PresentsByRing, Restorable, ProofKid, Coherent;
    assert CopyIsFresh(w, w.procs[pid]);
    var p := w.procs[pid];
    if Transacts(e).Some? && (p.CredentialsChecked? || p.ProofsChecked?) {
      var op := Transacts(e).value;
      AddsNoReference(w.ledger, op, p.kid);
    }
  }

  lemma CopiesStayFresh(w: World, e: Event)
    requires Safe(w) && Enabled(w, e)
    ensures Fresh(After(w, e))
  {
    hide Next, KeySafe, UsesCurrentKey, PresentsByRing, ProofKid, Coherent;
    var v := After(w, e);
    forall pid | pid in v.procs ensures CopyIsFresh(v, v.procs[pid]) {
      if pid in w.procs && v.procs[pid] == w.procs[pid] {
        OthersStayFresh(w, e, pid);
      } else {
        MoverIsFresh(w, e, pid);
      }
    }
  }

  lemma MoverIsFresh(w: World, e: Event, pid: Pid)
    requires Safe(w) && Enabled(w, e) && pid in After(w, e).procs
    requires pid in w.procs ==> After(w, e).procs[pid] != w.procs[pid]
    ensures CopyIsFresh(After(w, e), After(w, e).procs[pid])
  {
    hide Next, UsesCurrentKey, PresentsByRing, ProofKid, Locks, Coherent, KeySafe;
    if pid in w.procs { assert CopyIsFresh(w, w.procs[pid]); }
    SnapshotIsCoherent(w.ledger);
    SnapshotIsKeySafe(w.ledger, w.disk);
  }

  lemma SnapshotIsKeySafe(l: Ledger, ring: Ring)
    requires KeySafe(l, ring)
    ensures KeySafe(Snapshot(l), ring)
  {
  }

  lemma BackupsStay(w: World, e: Event)
    requires Safe(w) && Enabled(w, e)
    ensures forall i :: 0 <= i < |After(w, e).backups| ==> Restorable(After(w, e).backups[i])
  {
    hide Next, KeySafe, UsesCurrentKey, PresentsByRing, ProofKid, Coherent;
    if e.BackupWrite? { assert CopyIsFresh(w, w.procs[e.pid]); }
  }

  lemma LedgerStaysCoherent(w: World, e: Event)
    requires Coherent(w.ledger) && Enabled(w, e)
    ensures Coherent(After(w, e).ledger)
  {
    hide Next, Coherent, KeySafe, UsesCurrentKey, PresentsByRing;
    if Transacts(e).Some? { KeepsCoherent(w.ledger, Transacts(e).value); }
  }

  lemma KeepsSafe(w: World, e: Event)
    requires Safe(w) && Enabled(w, e)
    ensures Safe(After(w, e))
  {
    hide Coherent, KeySafe, Locks, Fresh, Restorable, Enabled, After;
    LedgerStaysCoherent(w, e);
    LedgerAndDiskStaySafe(w, e);
    LocksStay(w, e);
    CopiesStayFresh(w, e);
    BackupsStay(w, e);
  }

  // ----- whole executions -----

  /** A fresh instance, or one restored from a sealed pair, with no process running. */
  ghost predicate IsInitial(w: World) {
    && ((&& w.ledger == EMPTY && w.disk.current in w.disk.keys
         && (forall kid :: kid in w.disk.keys ==> IsKid(kid) && '.' !in kid))
        || Restorable((w.ledger, w.disk)))
    && w.instanceLock.None? && w.fileLock.None? && w.procs == map[] && w.backups == []
  }

  ghost predicate IsExecution(ws: seq<World>, es: seq<Event>) {
    && |ws| == |es| + 1
    && IsInitial(ws[0])
    && forall i :: 0 <= i < |es| ==> Enabled(ws[i], es[i]) && ws[i + 1] == After(ws[i], es[i])
  }

  lemma {:induction false} ExecutionIsSafe(ws: seq<World>, es: seq<Event>, i: nat)
    requires IsExecution(ws, es) && i < |ws|
    ensures Safe(ws[i])
  {
    if i > 0 {
      ExecutionIsSafe(ws, es, i - 1);
      KeepsSafe(ws[i - 1], es[i - 1]);
    } else {
      EmptyIsCoherent();
      hide Coherent;
    }
  }

  lemma ServerComesUp(w: World)
    requires w.procs == map[] && w.instanceLock.None?
    ensures Enabled(w, ServerStart(0)) && Enabled(After(w, ServerStart(0)), ServerLoad(0))
    ensures After(After(w, ServerStart(0)), ServerLoad(0)) ==
            w.(procs := map[0 := Serving(w.disk)], instanceLock := Some(0))
  {
    hide Next;
    assert map[0 := ServerStarting][0 := Serving(w.disk)] == map[0 := Serving(w.disk)];
  }

  lemma BackupLoads(w: World)
    requires w.fileLock.None? && 1 !in w.procs
    ensures Enabled(w, BackupLoad(1)) && Enabled(After(w, BackupLoad(1)), BackupLock(1))
    ensures After(After(w, BackupLoad(1)), BackupLock(1)) ==
            w.(procs := w.procs[1 := BackupLocked(w.disk)], fileLock := Some(1))
  {
    hide Next;
    assert w.procs[1 := BackupLoaded(w.disk)][1 := BackupLocked(w.disk)] == w.procs[1 := BackupLocked(w.disk)];
  }

  lemma BackupCopies(w: World)
    requires 1 in w.procs && w.procs[1] == BackupLocked(w.disk)
    ensures Enabled(w, BackupCopy(1))
    ensures After(w, BackupCopy(1)) == w.(procs := w.procs[1 := BackupCopied(w.disk, Snapshot(w.ledger))])
  {
    hide Next;
  }

  /** The locks do not serialise everything: a server works while a backup is half done and a key command must wait. */
  lemma BackupRunsBesideServer(w: World, now: int) returns (ws: seq<World>, es: seq<Event>)
    requires IsInitial(w)
    ensures IsExecution(ws, es) && ws[0] == w
    ensures var v := ws[|es|];
            && v.procs.Keys == {0, 1} && v.procs[0].Serving? && v.procs[1].BackupCopied?
            && Enabled(v, ServerWork(0, Op.Clean(now))) && forall pid :: !Enabled(v, KeyStart(pid))
  {
    hide Next, KeySafe, Coherent, After;
    ServerComesUp(w);
    var w1 := After(w, ServerStart(0));
    var w2 := After(w1, ServerLoad(0));
    BackupLoads(w2);
    var w3 := After(w2, BackupLoad(1));
    var w4 := After(w3, BackupLock(1));
    BackupCopies(w4);
    ws := [w, w1, w2, w3, w4, After(w4, BackupCopy(1))];
    es := [ServerStart(0), ServerLoad(0), BackupLoad(1), BackupLock(1), BackupCopy(1)];
    InitialHasCurrentKey(w);
  }

  lemma InitialHasCurrentKey(w: World)
    requires IsInitial(w)
    ensures w.disk.current in w.disk.keys
  {
  }

  /** No two processes ever own the instance lock together, or the keyring file lock. */
  lemma MutualExclusion(ws: seq<World>, es: seq<Event>, i: nat, p: Pid, q: Pid)
    requires IsExecution(ws, es) && i < |ws| && p in ws[i].procs && q in ws[i].procs && p != q
    ensures !(HoldsInstance(ws[i].procs[p]) && HoldsInstance(ws[i].procs[q]))
    ensures !(HoldsFile(ws[i].procs[p]) && HoldsFile(ws[i].procs[q]))
  {
    ExecutionIsSafe(ws, es, i);
    hide Coherent, KeySafe, Fresh, IsExecution;
  }

  /**
   * Key-reference safety. In every interleaving, with stops and crashes anywhere, each key a credential or proof
   * names is in the keyring file and has the recorded check; no key's loss can make a row unreadable.
   */
  lemma KeyReferencesAreSafe(ws: seq<World>, es: seq<Event>, i: nat)
    requires IsExecution(ws, es) && i < |ws|
    ensures Serviceable(ws[i].ledger, ws[i].disk)
  {
    ExecutionIsSafe(ws, es, i);
  }

  /** A retire command that reached its write found the key unused, and nothing came to use it meanwhile. */
  lemma RetiredKeyIsUnused(ws: seq<World>, es: seq<Event>, i: nat)
    requires IsExecution(ws, es) && i < |es| && es[i].RetireWrite?
    ensures var kid := ws[i].procs[es[i].pid].kid;
            && CredentialsAvoid(ws[i].ledger, kid) && ProofsAvoid(ws[i].ledger, kid)
            && kid != ws[i].disk.current
            && ws[i + 1].disk == Ring(ws[i].disk.current, ws[i].disk.keys - {kid})
  {
    ExecutionIsSafe(ws, es, i);
    assert CopyIsFresh(ws[i], ws[i].procs[es[i].pid]);
  }

  /** Every backup pair ever completed can start a new instance, although the server kept issuing during it. */
  lemma BackupPairsRestore(ws: seq<World>, es: seq<Event>, i: nat, k: nat)
    requires IsExecution(ws, es) && i < |ws| && k < |ws[i].backups|
    ensures IsInitial(World(ws[i].backups[k].0, ws[i].backups[k].1, None, None, map[], []))
    ensures Sealed(ws[i].backups[k].0)
    ensures Serviceable(ws[i].backups[k].0, ws[i].backups[k].1)
  {
    ExecutionIsSafe(ws, es, i);
    assert Restorable(ws[i].backups[k]);
  }

  // ----- readiness -----

  ghost predicate ServesUntil(ws: seq<World>, i: nat, j: nat, pid: Pid)
    requires i <= j < |ws|
  {
    forall k :: i <= k <= j ==> pid in ws[k].procs && ws[k].procs[pid].Serving?
  }

  lemma {:induction false} ChecksStay(ws: seq<World>, es: seq<Event>, i: nat, j: nat, kid: Kid)
    requires IsExecution(ws, es) && i <= j < |ws| && kid in ws[i].ledger.hashKeys
    ensures kid in ws[j].ledger.hashKeys && ws[j].ledger.hashKeys[kid] == ws[i].ledger.hashKeys[kid]
  {
    hide Next, Enabled;
    if i < j {
      ChecksStay(ws, es, i, j - 1, kid);
      if Transacts(es[j - 1]).Some? { ChecksAreStable(ws[j - 1].ledger, Transacts(es[j - 1]).value); }
    }
  }

  lemma {:induction false} RingStays(ws: seq<World>, es: seq<Event>, i: nat, j: nat, pid: Pid)
    requires IsExecution(ws, es) && i <= j < |ws| && ServesUntil(ws, i, j, pid)
    ensures ws[j].procs[pid].ring == ws[i].procs[pid].ring
  {
    hide Next, UsesCurrentKey, PresentsByRing;
    if i < j {
      RingStays(ws, es, i, j - 1, pid);
      assert pid in ws[j - 1].procs && ws[j - 1].procs[pid].Serving?;
    }
  }

  /**
   * Readiness of a running server never fails for a missing or mismatched key: the referenced keys are read in
   * one step, their recorded checks in a later one, and both agree with the server's copy.
   */
  lemma ServerKeysAreReady(ws: seq<World>, es: seq<Event>, i: nat, j: nat, pid: Pid, kid: Kid)
    requires IsExecution(ws, es) && i <= j < |ws| && ServesUntil(ws, i, j, pid)
    requires !CredentialsAvoid(ws[i].ledger, kid) || !ProofsAvoid(ws[i].ledger, kid)
    ensures kid in ws[j].ledger.hashKeys
    ensures kid in ws[j].procs[pid].ring.keys
    ensures ws[j].ledger.hashKeys[kid] == KeyCheck(ws[j].procs[pid].ring.keys[kid])
  {
    assert pid in ws[i].procs && ws[i].procs[pid].Serving?;
    ExecutionIsSafe(ws, es, i);
    assert CopyIsFresh(ws[i], ws[i].procs[pid]);
    ChecksStay(ws, es, i, j, kid);
    RingStays(ws, es, i, j, pid);
  }

  // ----- authentication and live proofs -----

  /** A server accepts a secret exactly when it is the one registered for an accepted credential of that role. */
  lemma AuthenticationIsExact(ws: seq<World>, es: seq<Event>, i: nat, pid: Pid, secret: string, role: Role, now: int,
                              id: Id)
    requires IsExecution(ws, es) && i < |ws| && pid in ws[i].procs && ws[i].procs[pid].Serving?
    ensures Authenticate(ws[i].ledger, ws[i].procs[pid].ring, secret, role, now) == Some(id) <==>
            && CredentialIdFromSecret(secret, role) == Some(id)
            && id in ws[i].ledger.credentials
            && ws[i].ledger.credentials[id].role == role
            && ws[i].ledger.credentials[id].secretDigest.secret == secret
            && Accepted(ws[i].ledger.credentials[id], now)
  {
    hide CredentialIdFromSecret, Accepted, Next, After, Enabled, Coherent;
    ExecutionIsSafe(ws, es, i);
    assert CopyIsFresh(ws[i], ws[i].procs[pid]);
  }

  /** What an operation must not do for an issued proof to stay acceptable until `now`. */
  ghost predicate Harmless(l: Ledger, op: Op, d: TokenDigest, clientId: Id, now: int) {
    && !(Revokes(l, op) && op.clientId == clientId)
    && !Activates(l, op)
    && !(Accepts(l, op) && op.request.digest == d)
    && (op.Clean? ==> op.now <= now + 3_600)
  }

  lemma LiveRowStays(l: Ledger, op: Op, d: TokenDigest, now: int)
    requires d in l.proofs && now < l.proofs[d].expiresAt && Harmless(l, op, d, l.proofs[d].clientId, now)
    ensures d in Next(l, op).proofs && Next(l, op).proofs[d] == l.proofs[d]
  {
    hide Next;
    ProofSteps(l, op, d);
  }

  /** Every step between the issue and the verification is harmless to this proof. */
  ghost predicate Undisturbed(ws: seq<World>, es: seq<Event>, k: nat, n: nat, d: TokenDigest, clientId: Id, now: int)
    requires |ws| == |es| + 1 && k <= n <= |es|
  {
    forall i :: k <= i < n && Transacts(es[i]).Some? ==>
      Harmless(ws[i].ledger, Transacts(es[i]).value, d, clientId, now)
  }

  lemma {:induction false} LiveRowSurvives(ws: seq<World>, es: seq<Event>, k: nat, n: nat, d: TokenDigest,
                                           row: Proof, now: int)
    requires IsExecution(ws, es) && k <= n < |ws|
    requires d in ws[k].ledger.proofs && ws[k].ledger.proofs[d] == row && now < row.expiresAt
    requires Undisturbed(ws, es, k, n, d, row.clientId, now)
    ensures d in ws[n].ledger.proofs && ws[n].ledger.proofs[d] == row
  {
    hide Next, Enabled, Harmless;
    if k < n {
      LiveRowSurvives(ws, es, k, n - 1, d, row, now);
      if Transacts(es[n - 1]).Some? { LiveRowStays(ws[n - 1].ledger, Transacts(es[n - 1]).value, d, now); }
    }
  }

  /** The deciding transaction for a live, correctly bound proof and fresh identifiers. */
  lemma LiveDecision(l: Ledger, op: Op)
    requires op.Verify? && op.key.None? && !Sealed(l)
    requires Authorised(l, op.credentialId, op.clientId, Role.Verification, op.now)
    requires op.request.digest in l.proofs
    requires var p := l.proofs[op.request.digest];
             p.clientId == op.clientId && p.consumedAt.None? && op.now < p.expiresAt && BoundTo(p, op.request)
    requires op.decisionId !in l.decisions && op.eventId !in l.auditEvents
    ensures ReplyOf(l, op) == Reply.Verdict(
              Answer(AcceptedResult(l.proofs[op.request.digest], op.decisionId, op.now), Origin.Fresh))
            || (ReplyOf(l, op).Failed? && ReplyOf(l, op).error.RateLimited?)
  {
    hide Prune, Slots, Oldest, KeyedDecision, Accepted, FromDict, ToDict;
    var limit := l.clients[op.clientId].verifyLimit;
    var slot := ConsumeRateSlot(l, op.clientId, VerifySlot, limit, op.now);
    if slot.Success? {
      SlotTaken(l, op.clientId, VerifySlot, limit, op.now);
      ConditionalUpdateHits(slot.value, op.clientId, op.request, op.now, op.decisionId);
    }
  }

  /** The transaction that ends a verification of a live proof, once its caller is authorised. */
  lemma LiveTransaction(ws: seq<World>, es: seq<Event>, k: nat, n: nat, pid: Pid, p: Presentation,
                        credentialId: Id, now: int, decisionId: Id, eventId: Id)
    requires IsExecution(ws, es) && k < n < |ws|
    requires es[k].ServerWork? && Issues(ws[k].ledger, es[k].op)
    requires Presents(p, es[k].op) && now < IssuedRow(es[k].op).expiresAt
    requires Undisturbed(ws, es, k + 1, n, es[k].op.digest, IssuedRow(es[k].op).clientId, now)
    requires Authorised(ws[n].ledger, credentialId, IssuedRow(es[k].op).clientId, Role.Verification, now)
    requires pid in ws[n].procs && ws[n].procs[pid].Serving?
    requires decisionId !in ws[n].ledger.decisions && eventId !in ws[n].ledger.auditEvents
    ensures var row := IssuedRow(es[k].op);
            var verify := VerifyOp(ws[n].procs[pid].ring, credentialId, row.clientId, p, now, decisionId, eventId);
            IsLiveReply(ReplyOf(ws[n].ledger, verify), row, decisionId, now)
  {
    hide Next, ReplyOf, Enabled, Prune, ProofKid, Coherent;
    var issue, l := es[k].op, ws[n].ledger;
    var row := IssuedRow(issue);
    IssueCommits(ws[k].ledger, issue);
    LiveRowSurvives(ws, es, k + 1, n, issue.digest, row, now);
    ExecutionIsSafe(ws, es, n);
    assert CopyIsFresh(ws[n], ws[n].procs[pid]);
    assert PresentedDigest(ws[n].procs[pid].ring, p.proof) == issue.digest;
    StaysOpen(ws, es, k, n);
    LiveDecision(l, VerifyOp(ws[n].procs[pid].ring, credentialId, row.clientId, p, now, decisionId, eventId));
  }

  /** The presentation of an issued proof, with the bindings it was issued with and no idempotency key. */
  predicate Presents(p: Presentation, issue: Op)
    requires issue.Issue?
  {
    var row := IssuedRow(issue);
    && p.proof == issue.digest.proof && p.key.None?
    && p.subject == row.subject && p.purpose == row.purpose && p.audience == row.audience
  }

  /** Accepted with the issued claims, or rate limited. */
  predicate IsLiveReply(reply: Reply, row: Proof, decisionId: Id, now: int) {
    || reply == Reply.Verdict(Answer(AcceptedResult(row, decisionId, now), Origin.Fresh))
    || (reply.Failed? && reply.error.RateLimited?)
  }

  /** In a coherent ledger whoever authenticates belongs to an active client. */
  lemma AuthenticatedIsAuthorised(l: Ledger, ring: Ring, secret: string, role: Role, now: int, id: Id)
    requires Coherent(l) && Authenticate(l, ring, secret, role, now) == Some(id)
    ensures id in l.credentials && Authorised(l, id, l.credentials[id].clientId, role, now)
  {
    hide CredentialIdFromSecret;
  }

  /** The secret is accepted in this world, for a verification credential of this client. */
  ghost predicate VerifierOf(w: World, ring: Ring, secret: string, now: int, id: Id, clientId: Id) {
    && Authenticate(w.ledger, ring, secret, Role.Verification, now) == Some(id)
    && w.ledger.credentials[id].clientId == clientId
  }

  /**
   * Live-proof completeness. Once an issue has committed, let the server stop and restart, keys and credentials
   * rotate, retirements be tried, backups be made, cleanups run up to an hour past the verification, and any
   * number of other requests be served, also while the verification itself is under way. Then presenting the proof
   * with its bindings before the expiry, without an idempotency key, with the secret of a verifier of its client
   * that is accepted when the request arrives and at the lock, is accepted with the issued claims or rate limited.
   * Nothing else.
   */
  lemma LiveProofIsAccepted(ws: seq<World>, es: seq<Event>, k: nat, first: nat, middle: nat, n: nat, pid: Pid,
                            p: Presentation, id: Id, times: VerifyTimes, decisionId: Id, eventId: Id)
    requires IsExecution(ws, es) && k < n < |ws| && first <= middle <= n && ServesUntil(ws, first, n, pid)
    requires es[k].ServerWork? && Issues(ws[k].ledger, es[k].op)
    requires Presents(p, es[k].op) && times.locked < IssuedRow(es[k].op).expiresAt
    requires Undisturbed(ws, es, k + 1, n, es[k].op.digest, IssuedRow(es[k].op).clientId, times.locked)
    requires pid in ws[first].procs && ws[first].procs[pid].Serving?
    requires var ring, clientId := ws[first].procs[pid].ring, IssuedRow(es[k].op).clientId;
             && VerifierOf(ws[first], ring, p.secret, times.authenticated, id, clientId)
             && VerifierOf(ws[n], ring, p.secret, times.locked, id, clientId)
    requires decisionId !in ws[n].ledger.decisions && eventId !in ws[n].ledger.auditEvents
    ensures var (after, reply) := VerifyReply(ws[first].ledger, ws[middle].ledger, ws[n].ledger,
                                              ws[first].procs[pid].ring, p, times, decisionId, eventId);
            IsLiveReply(reply, IssuedRow(es[k].op), decisionId, times.locked)
  {
    hide Next, ReplyOf, Enabled, After, Authenticate, Coherent, IsLiveReply, FromDict, KeySafe;
    assert pid in ws[n].procs && ws[n].procs[pid].Serving?;
    RingStays(ws, es, first, n, pid);
    ExecutionIsSafe(ws, es, n);
    AuthenticatedIsAuthorised(ws[n].ledger, ws[n].procs[pid].ring, p.secret, Role.Verification, times.locked, id);
    LiveTransaction(ws, es, k, n, pid, p, id, times.locked, decisionId, eventId);
  }

  /** A live instance is never sealed: only its backups are. */
  lemma {:induction false} StaysOpen(ws: seq<World>, es: seq<Event>, k: nat, n: nat)
    requires IsExecution(ws, es) && k <= n < |ws| && !Sealed(ws[k].ledger)
    ensures !Sealed(ws[n].ledger)
  {
    hide Next, UsesCurrentKey, PresentsByRing, DiskAfter, KeySafe, Coherent;
    if k < n {
      StaysOpen(ws, es, k, n - 1);
      if Transacts(es[n - 1]).Some? { SealSteps(ws[n - 1].ledger, Transacts(es[n - 1]).value); }
    }
  }
}
