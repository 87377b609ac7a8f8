/** Vocabulary shared by the attached-worker models. */
module Base {
  datatype Option<+T> = None | Some(value: T)

  /** Identity of one authenticated connection. */
  datatype Scope = Scope(
    tenant: string,
    owner: string,
    worker: string,
    connection: string,
    enrollmentGeneration: nat,
    connectionGeneration: nat)

  /** The immutable authority of one leased attempt. `wellFormed` stands for
      the identifier and digest format checks of the protocol package. */
  datatype Binding = Binding(
    run: string,
    attempt: string,
    lease: string,
    leaseGeneration: nat,
    fence: string,
    expiresAt: int,
    contextDigest: string,
    capabilityDigest: string,
    policyDigest: string,
    wellFormed: bool)

  predicate BindingValid(b: Binding) {
    b.wellFormed && b.leaseGeneration > 0 && b.expiresAt > 0
  }

  const MAX_UINT64: nat := 0xFFFF_FFFF_FFFF_FFFF

  /** Increment of an unsigned 64-bit counter, which wraps at its maximum. */
  function Succ(n: nat): nat {
    if n == MAX_UINT64 then 0 else n + 1
  }

  type Byte = x: int | 0 <= x < 256

  type Bytes = seq<Byte>

  predicate LowerHex(c: char) {
    '0' <= c <= '9' || 'a' <= c <= 'f'
  }

  /** A lower-case SHA-256 digest in hexadecimal. */
  predicate ValidDigest(s: string) {
    |s| == 64 && forall i | 0 <= i < |s| :: LowerHex(s[i])
  }

  /** Transport digests are additionally refused when all their bytes are zero. */
  predicate ValidTransportDigest(s: string) {
    ValidDigest(s) && exists i | 0 <= i < |s| :: s[i] != '0'
  }

  /** The local process identity of one attempt. */
  datatype Identity = Identity(
    tenant: string,
    owner: string,
    worker: string,
    run: string,
    attempt: string,
    lease: string,
    fence: nat)

  predicate IdentityValid(id: Identity) {
    && id.tenant != "" && id.owner != "" && id.worker != ""
    && id.run != "" && id.attempt != "" && id.lease != "" && id.fence > 0
  }

  /** What the local runner reports; `wellFormed` stands for the byte-count,
      credential and digest-order checks, `detail` for the remaining evidence. */
  datatype RunResult = RunResult(
    exitCode: int,
    cancelled: bool,
    deadline: bool,
    processFailure: string,
    failure: string,
    descendantsReaped: bool,
    boundaryReleased: bool,
    cleanupSucceeded: bool,
    credentialRequired: bool,
    credentialReleased: bool,
    wellFormed: bool,
    detail: string)
  {
    predicate CleanupComplete() {
      descendantsReaped && boundaryReleased && cleanupSucceeded && (credentialRequired ==> credentialReleased)
    }

    predicate Succeeded(runFailed: bool) {
      && !runFailed && !cancelled && !deadline && exitCode == 0
      && processFailure == "" && failure == "" && CleanupComplete()
    }
  }

  /** The completion fingerprint, as an injective constructor. */
  datatype Completion = Completion(identity: Identity, result: RunResult, runFailed: bool)

  function Min(a: int, b: int): int {
    if a < b then a else b
  }

  function Bit(b: bool): nat {
    if b then 1 else 0
  }
}
