/**
 Private files and symbolic authenticated encryption, as every encrypted store uses them (team/private_state.py).
 A file is replaced as a whole; the write may fail before or after the replacement took effect, and a crash has
 the same durable outcomes.
 */
module PrivateFiles {
  import opened Wrappers

  datatype Write = Done | FailedBefore | FailedAfter

  datatype FileError = KeyUnavailable | Unwritable

  /** What a transaction meets: the random bytes of a new key, and the fate of its two writes. */
  datatype Faults = Faults(random: nat, keyWrite: Write, stateWrite: Write)

  function Replaced<S>(before: S, after: S, write: Write): S {
    if write.FailedBefore? then before else after
  }

  /** `PrivateState.key`: an existing key is never replaced. */
  function KeyTx(file: Option<nat>, allowCreate: bool, random: nat, write: Write): (Option<nat>, Result<nat, FileError>) {
    match file
    case Some(key) => (file, Success(key))
    case None =>
      if !allowCreate then (file, Failure(KeyUnavailable))
      else (Replaced(file, Some(random), write), if write.Done? then Success(random) else Failure(Unwritable))
  }

  /** When a transaction gets a key to seal with. */
  predicate KeyObtained(file: Option<nat>, allowCreate: bool, write: Write) {
    file.Some? || (allowCreate && write.Done?)
  }

  /** When the key file is created, whether or not that is acknowledged. */
  predicate KeyCreated(file: Option<nat>, allowCreate: bool, write: Write) {
    file.None? && allowCreate && !write.FailedBefore?
  }

  /** A key that exists never changes; otherwise it changes exactly when one is created. */
  lemma KeyIsWrittenOnce(file: Option<nat>, allowCreate: bool, random: nat, write: Write)
    ensures var (after, r) := KeyTx(file, allowCreate, random, write);
            && (r.Success? <==> KeyObtained(file, allowCreate, write))
            && (r.Success? ==> after == Some(r.value))
            && (after != file <==> KeyCreated(file, allowCreate, write))
            && (file.Some? ==> after == file)
  {
  }

  // ---------------------------------------------------------------- sealed values

  datatype Sealed<A, P> = Sealed(key: nat, aad: A, plaintext: P)

  /** A sealed value opens only under its key and its exact associated data. */
  function Open<A(==), P>(key: nat, aad: A, sealed: Sealed<A, P>): Option<P> {
    if sealed.key == key && sealed.aad == aad then Some(sealed.plaintext) else None
  }
}
