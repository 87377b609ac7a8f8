/** The records of one local installation and their validity rules.

    Times are counted from the zero time, which every validator refuses. The
    fingerprint of an identity key is an injective constructor. */
module LocalRecords {
  import opened Base
  import opened InlineCheckpoint

  datatype Installation = Installation(origin: string, tenant: string, owner: string, worker: string)

  datatype KeyDigest = DigestOfKey(key: seq<Byte>) | ForeignKey(text: string)

  /** Logout evidence inside a logged-out manifest; its three state labels are fixed. */
  datatype LogoutReceipt = LogoutReceipt(requestId: string, requestedAt: nat, committedAt: nat)

  datatype Lifecycle = Active | LoggedOut(logout: LogoutReceipt)

  /** `launch` is the OCI and harness configuration; `wellFormed` stands for the
      identifier, origin, digest, OCI and harness checks. */
  datatype Manifest = Manifest(
    revision: nat,
    installation: Installation,
    launch: string,
    enrollment: nat,
    connection: nat,
    fingerprint: KeyDigest,
    lifecycle: Lifecycle,
    createdAt: nat,
    updatedAt: nat,
    wellFormed: bool)

  datatype Secret = Secret(
    revision: nat,
    tenant: string,
    owner: string,
    worker: string,
    enrollment: nat,
    connection: nat,
    identityKey: seq<Byte>,
    connectionSecret: seq<Byte>)

  datatype Intent = Intent(
    expectedRevision: nat,
    nextRevision: nat,
    requestId: string,
    requestedAt: nat,
    tenant: string,
    owner: string,
    worker: string)

  datatype DaemonState = DaemonRunning | DaemonDraining | DaemonStopped

  datatype Observation = Observation(
    revision: nat,
    manifestRevision: nat,
    state: DaemonState,
    active: bool,
    accepted: nat,
    completed: nat,
    failed: nat,
    observedAt: nat,
    failureCode: string)

  /** `wellFormed` stands for the protocol-level checks of the machine snapshot. */
  datatype Reconnect = Reconnect(
    revision: nat,
    manifestRevision: nat,
    tenant: string,
    owner: string,
    worker: string,
    enrollment: nat,
    connection: nat,
    checkpointedAt: nat,
    expiresAt: nat,
    wellFormed: bool)

  /** A receipt payload: the unversioned first form, a canonical inline checkpoint,
      or bytes that carry a version but are no canonical checkpoint. */
  datatype Payload = Opaque(bytes: seq<Byte>) | Inline(checkpoint: Checkpoint) | Broken(bytes: seq<Byte>)

  /** `wellFormed` stands for the payload bound, its digest and the connection id. */
  datatype Receipt = Receipt(
    manifestRevision: nat,
    scope: Scope,
    payload: Payload,
    wellFormed: bool)

  predicate Letter(c: char) {
    'a' <= c <= 'z' || 'A' <= c <= 'Z' || '0' <= c <= '9'
  }

  predicate RequestIdValid(id: string) {
    && 8 <= |id| <= 128
    && Letter(id[0])
    && forall i | 1 <= i < |id| :: Letter(id[i]) || id[i] in "._:-"
  }

  predicate FailureCodeValid(code: string) {
    && 1 <= |code| <= 64
    && 'a' <= code[0] <= 'z'
    && forall i | 1 <= i < |code| :: 'a' <= code[i] <= 'z' || '0' <= code[i] <= '9' || code[i] == '_'
  }

  predicate ManifestValid(m: Manifest) {
    && m.wellFormed
    && m.revision != 0
    && m.installation.tenant != "" && m.installation.owner != "" && m.installation.worker != ""
    && m.enrollment != 0
    && 0 < m.createdAt <= m.updatedAt
    && match m.lifecycle
       case Active => true
       case LoggedOut(r) => RequestIdValid(r.requestId) && 0 < r.requestedAt <= r.committedAt <= m.updatedAt
  }

  predicate SecretValid(s: Secret, m: Manifest) {
    && ManifestValid(m)
    && m.lifecycle.Active?
    && s.revision == m.revision
    && s.tenant == m.installation.tenant
    && s.owner == m.installation.owner
    && s.worker == m.installation.worker
    && s.enrollment == m.enrollment
    && s.connection == m.connection
    && |s.identityKey| == 64
    && |s.connectionSecret| == (if m.connection == 0 then 0 else 32)
    && m.fingerprint == DigestOfKey(s.identityKey)
  }

  predicate IntentValid(i: Intent) {
    && i.expectedRevision != 0
    && i.nextRevision == Succ(i.expectedRevision)
    && RequestIdValid(i.requestId)
    && i.requestedAt != 0
    && i.tenant != "" && i.owner != "" && i.worker != ""
  }

  predicate CountersValid(o: Observation) {
    o.completed <= o.accepted && o.failed <= o.accepted - o.completed
  }

  predicate ObservationValid(o: Observation, m: Manifest) {
    && ManifestValid(m)
    && m.lifecycle.Active?
    && o.revision != 0
    && o.manifestRevision == m.revision
    && 0 < o.observedAt
    && m.updatedAt <= o.observedAt
    && CountersValid(o)
    && (o.failureCode != "" ==> FailureCodeValid(o.failureCode))
    && (o.state.DaemonStopped? ==> !o.active)
  }

  predicate ReconnectValid(c: Reconnect, m: Manifest) {
    && ManifestValid(m)
    && m.lifecycle.Active?
    && c.wellFormed
    && c.revision != 0
    && c.manifestRevision == m.revision
    && c.tenant == m.installation.tenant
    && c.owner == m.installation.owner
    && c.worker == m.installation.worker
    && c.enrollment == m.enrollment
    && c.connection == m.connection
    && 0 < m.updatedAt <= c.checkpointedAt < c.expiresAt
  }

  predicate ReceiptValid(x: Receipt, m: Manifest) {
    && ManifestValid(m)
    && m.lifecycle.Active?
    && x.wellFormed
    && x.manifestRevision == m.revision
    && x.scope.tenant == m.installation.tenant
    && x.scope.owner == m.installation.owner
    && x.scope.worker == m.installation.worker
    && x.scope.enrollmentGeneration == m.enrollment
    && x.scope.connectionGeneration == m.connection
  }

  /** A canonical inline payload whose authorization names the record's own scope. */
  predicate InlineRecord(x: Receipt) {
    && x.payload.Inline?
    && Valid(x.payload.checkpoint)
    && x.payload.checkpoint.plan.authorization.scope == x.scope
  }

  predicate SameInstallation(left: Manifest, right: Manifest) {
    left.installation == right.installation
  }

  predicate SameOrNext(current: nat, next: nat) {
    next == current || (current != MAX_UINT64 && next == current + 1)
  }

  /** Key material changes exactly when its generation does. */
  predicate GenerationSecretChange(currentGeneration: nat, nextGeneration: nat, current: seq<Byte>, next: seq<Byte>) {
    (nextGeneration == currentGeneration) == (current == next)
  }
}
