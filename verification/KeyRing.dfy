/** The keyring object and its file (src/onceproof/keyring.py:173-306). File locks are steps of KeyProtocol. */
module KeyRing {
  import opened Wrappers
  import opened Verdict
  import opened KeyringCodec

  datatype RingError =
    | NotRegular
    | Unreadable(cause: KeyringError)
    | ChangedOnDisk
    | CannotRetireCurrent
    | UnknownKid
    | StillInUse
    | WriteFailed
    | CommitUncertain

  /** The file's decoded text; `os.replace` makes every change to it all at once. */
  class KeyringFile {
    var payload: Json

    constructor (payload: Json)
      ensures this.payload == payload
    {
      this.payload := payload;
    }
  }

  class KeyRing {
    const file: KeyringFile
    var currentKid: Kid
    var keys: map<Kid, Key>

    function Copy(): Ring
      reads this
    {
      Ring(currentKid, keys)
    }

    ghost predicate Valid()
      reads this
    {
      Sound(Copy())
    }

    /** The copy in memory is the generation on disk. */
    ghost predicate InStep()
      reads this, file
    {
      Parsed(file.payload) == Success(Copy())
    }

    /** A change was refused before anything was written. */
    ghost predicate Refused(payload: Json, copy: Ring, failure: Option<RingError>)
      reads this, file
    {
      && failure.Some? && failure.value !in {WriteFailed, CommitUncertain}
      && Copy() == copy && file.payload == payload
    }

    /** A change was attempted: the file holds the old generation or `next`, and success means `next`. */
    ghost predicate Replaced(payload: Json, copy: Ring, next: Ring, failure: Option<RingError>)
      reads this, file
    {
      && (file.payload == payload || file.payload == SerializedPayload(next))
      && (InStep() || Copy() == copy)
      && match failure
         case None => InStep() && Copy() == next && file.payload == SerializedPayload(next)
         case Some(e) => e == CommitUncertain || (e == WriteFailed && InStep())
    }

    constructor (file: KeyringFile, ring: Ring)
      requires Sound(ring)
      ensures this.file == file && Copy() == ring && Valid()
    {
      this.file := file;
      currentKid, keys := ring.current, ring.keys;
    }

    /** `regular` tells whether the path is a regular file, not a link, with closed permissions. */
    static method Load(file: KeyringFile, regular: bool) returns (r: Result<KeyRing, RingError>)
      ensures !regular ==> r == Failure(NotRegular)
      ensures regular ==>
              match Parsed(file.payload)
              case Success(ring) =>
                r.Success? && fresh(r.value) && r.value.file == file && r.value.Valid() && r.value.InStep()
              case Failure(_) => r.Failure? && r.error.Unreadable? && ParsesTo(file.payload, Failure(r.error.cause))
    {
      if !regular {
        return Failure(NotRegular);
      }
      var parsed := ParsePayload(file.payload);
      if parsed.Failure? {
        return Failure(Unreadable(parsed.error));
      }
      ParsedIsSound(file.payload);
      var ring := new KeyRing(file, parsed.value);
      return Success(ring);
    }

    /** The check made under the file lock before any dependent step. */
    method Stable() returns (failure: Option<RingError>)
      ensures failure.None? <==> InStep()
      ensures match Parsed(file.payload)
              case Failure(_) =>
                failure.Some? && failure.value.Unreadable? && ParsesTo(file.payload, Failure(failure.value.cause))
              case Success(disk) => failure == if disk == Copy() then None else Some(ChangedOnDisk)
    {
      var disk := ParsePayload(file.payload);
      if disk.Failure? {
        return Some(Unreadable(disk.error));
      }
      if disk.value.current != currentKid || disk.value.keys != keys {
        return Some(ChangedOnDisk);
      }
      return None;
    }

    method Reload() returns (ok: bool)
      requires Valid()
      modifies this
      ensures Valid()
      ensures if ok then InStep() else Copy() == old(Copy())
    {
      if * {
        return false;
      }
      var parsed := ParsePayload(file.payload);
      if parsed.Failure? {
        return false;
      }
      ParsedIsSound(file.payload);
      currentKid, keys := parsed.value.current, parsed.value.keys;
      return true;
    }

    /**
     * Writing may fail before the replacement, the syncs after it, the removal of the temporary file, or the reading
     * back. The file holds the old or the new generation, never a mixture, and memory follows it unless it could not
     * be read. Any failure but an uncertain commit leaves memory and file in step.
     */
    method ReplaceAndReload(ring: Ring) returns (failure: Option<RingError>)
      requires Valid() && InStep() && Sound(ring)
      modifies this, file
      ensures Valid()
      ensures Replaced(old(file.payload), old(Copy()), ring, failure)
    {
      PayloadRoundTrip(ring);
      failure := Some(WriteFailed);
      if * {
        file.payload := SerializedPayload(ring);
        if * {
          failure := Some(CommitUncertain);
        } else if * {
          failure := None;
        }
      }
      var readable := Reload();
      if !readable {
        failure := Some(CommitUncertain);
      }
    }

    /** Adds a current key; the identifier was drawn until it was new to the ring. */
    method Rotate(kid: Kid, key: Key) returns (failure: Option<RingError>)
      requires Valid() && IsKid(kid) && |key| == KEY_BYTES && kid !in keys
      modifies this, file
      ensures Valid()
      ensures if old(InStep()) then Replaced(old(file.payload), old(Copy()), Ring(kid, old(keys)[kid := key]), failure)
              else Refused(old(file.payload), old(Copy()), failure)
    {
      failure := Stable();
      if failure.Some? {
        return;
      }
      failure := ReplaceAndReload(Ring(kid, keys[kid := key]));
    }

    /** Removes a previous key, unless the ledger still names it. `used` is read under the same locks. */
    method Retire(kid: Kid, used: bool) returns (failure: Option<RingError>)
      requires Valid()
      modifies this, file
      ensures Valid()
      ensures if old(InStep()) && kid != old(currentKid) && kid in old(keys) && !used
              then Replaced(old(file.payload), old(Copy()), Ring(old(currentKid), old(keys) - {kid}), failure)
              else Refused(old(file.payload), old(Copy()), failure)
      ensures old(InStep()) && kid != old(currentKid) && kid in old(keys) && used ==> failure == Some(StillInUse)
    {
      failure := Stable();
      if failure.Some? {
        return;
      }
      if kid == currentKid {
        return Some(CannotRetireCurrent);
      }
      if kid !in keys {
        return Some(UnknownKid);
      }
      if used {
        return Some(StillInUse);
      }
      failure := ReplaceAndReload(Ring(currentKid, keys - {kid}));
    }
  }
}
