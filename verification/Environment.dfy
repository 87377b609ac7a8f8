/** Everything the adapter cannot see: the peer session, the receipt publisher,
    the file system and the clock. An oracle answers the k-th interaction; a
    statement about every oracle is a statement about every environment. */
module Environment {
  import opened Base
  import opened InlineJournal

  datatype Stage = Prepared | BodyClaimed | CanonicalCopying | Ready | RetiredWithoutWrites

  /** The publisher's compact reply; nothing about it is trusted. */
  datatype PublisherReply = PublisherReply(
    version: nat,
    stage: Stage,
    nonce: string,
    fingerprint: string,
    capability: string,
    expiresAt: int,
    canonical: string)

  datatype Snapshot = Snapshot(ready: bool, scope: Scope, capability: string, authenticationExpires: int)

  datatype Status = Succeeded | Failed | Cancelled

  datatype TerminalResult = ResultCompleted | ResultFailed | ResultCancelled

  /** The result that the worker reports beside a status. */
  function ResultOf(status: Status): TerminalResult {
    match status
    case Succeeded => ResultCompleted
    case Failed => ResultFailed
    case Cancelled => ResultCancelled
  }

  datatype Terminal = Terminal(
    binding: Binding,
    attemptSequence: nat,
    terminalSequence: nat,
    status: Status,
    result: TerminalResult,
    evidence: string)

  datatype Body =
    | LeaseOffer(binding: Binding, sequence: nat)
    | LeaseAccepted(binding: Binding, sequence: nat)
    | Cancel(binding: Binding, sequence: nat, revision: nat)
    | Drain(revision: nat)
    | Revoke(revision: nat)
    | TerminalAck(
        binding: Binding,
        sequence: nat,
        terminalSequence: nat,
        status: Status,
        result: TerminalResult,
        evidence: string)
    | Other

  /** A platform frame: its header, its envelope check and its payload. */
  datatype Frame = Frame(
    worker: string,
    enrollmentGeneration: nat,
    connectionGeneration: nat,
    envelopeValid: bool,
    body: Body)

  /** Why a local step failed. */
  datatype Cause = Plain | Canceled | DeadlineExceeded

  datatype Answer = Answer(
    now: int,
    contextDone: bool,
    cause: Cause,
    io: Io,
    encodeOk: bool,
    sourceOk: bool,
    replyOk: bool,
    reply: PublisherReply,
    snapshot: Snapshot,
    exchangeOk: bool,
    frame: Option<Frame>,
    localOk: bool,
    late: bool,
    evidence: Option<string>)

  type Oracle = nat -> Answer

  /** The pinned capability, and which receipt features the composition installed. */
  datatype Config = Config(capability: string, receipts: bool, inline: bool, prepared: bool)

  const MAX_ATTEMPT_MESSAGES: nat := 64

  predicate AttemptPayloadValid(b: Binding, sequence: nat) {
    BindingValid(b) && 0 < sequence <= MAX_ATTEMPT_MESSAGES
  }

  predicate BodyValid(b: Body) {
    match b
    case LeaseOffer(binding, sequence) => AttemptPayloadValid(binding, sequence)
    case LeaseAccepted(binding, sequence) => AttemptPayloadValid(binding, sequence)
    case Cancel(binding, sequence, revision) => AttemptPayloadValid(binding, sequence) && revision > 0
    case Drain(revision) => revision > 0
    case Revoke(revision) => revision > 0
    case TerminalAck(binding, sequence, terminalSequence, _, _, _) =>
      AttemptPayloadValid(binding, sequence) && terminalSequence > 0
    case Other => false
  }

  predicate MatchesSession(f: Frame, s: Snapshot) {
    && f.worker == s.scope.worker
    && f.enrollmentGeneration == s.scope.enrollmentGeneration
    && f.connectionGeneration == s.scope.connectionGeneration
  }

  predicate FrameValid(f: Frame) {
    f.envelopeValid && BodyValid(f.body)
  }

  /** The session may be used: ready, authenticated and with the pinned capability. */
  predicate ReadySnapshot(a: Answer, cfg: Config) {
    && a.snapshot.ready
    && a.snapshot.scope.enrollmentGeneration > 0
    && a.snapshot.scope.connectionGeneration > 0
    && a.now < a.snapshot.authenticationExpires
    && a.snapshot.capability == cfg.capability
  }
}
