/** The daemon transport adapter: claim, hand out, cancel, terminal, drain. The
    peer session may answer anything at any time. Every operation holds the gate,
    so operations do not interleave; one whose local call outlives its deadline
    keeps the gate until that call returns. */
module Adapter {
  import opened Base
  import opened InlineCheckpoint
  import Journals = InlineJournal
  import opened Environment
  import Receipts = InlineReceipt

  datatype Active = Active(
    scope: Scope,
    binding: Binding,
    identity: Identity,
    nextWorker: nat,
    nextPlatform: nat,
    cancelRevision: nat,
    cancelAcked: bool,
    drainRevision: nat)

  /** What the adapter did, in order; `n` numbers the attempts it accepted. */
  datatype Event =
    | Accepted(n: nat, binding: Binding, granted: Binding, offered: nat, claimed: nat, answered: nat, cancelled: bool)
    | HandedOut(n: nat)
    | CancelSeen(n: nat, sequence: nat, binding: Binding)
    | LocallyCancelled(n: nat)
    | CancelAckSent(n: nat, sequence: nat)
    | CancelAckSettled(n: nat)
    | TerminalSent(n: nat, terminal: Terminal, inline: bool)
    | TerminalAckSeen(n: nat, terminal: Terminal, ack: Body)
    | DrainedSent(n: nat)

  datatype State = State(
    active: Option<Active>,
    last: Option<Completion>,
    gateFree: bool,
    receipt: Receipts.World,
    attempts: nat,
    trace: seq<Event>)

  datatype Error =
    | Busy | InvalidAuthority | AttemptActive | AttemptUnavailable | AttemptCancelled | DrainRequested
    | MaterializationFailed | ReconciliationRequired | SessionFenced | EvidenceInvalid

  datatype Reply = Invocation(identity: Identity) | Nothing | CancelHandled | Completed | Refused(error: Error)

  /** What the pinned producer declares about its output. */
  datatype Declaration = Declaration(
    nonce: string,
    fingerprint: string,
    producer: string,
    artifacts: seq<Artifact>,
    observationDigest: string,
    acceptedAt: int,
    expiresAt: int,
    wellFormed: bool)

  // ---------------------------------------------------------------------------
  // Pure helpers

  predicate AttemptMatchesSnapshot(b: Binding, snapshot: Snapshot, now: int) {
    && BindingValid(b)
    && now < b.expiresAt <= snapshot.authenticationExpires
    && b.capabilityDigest == snapshot.capability
  }

  predicate ActiveAuthority(active: Active, cfg: Config, a: Answer) {
    ReadySnapshot(a, cfg) && active.scope == a.snapshot.scope &&
    AttemptMatchesSnapshot(active.binding, a.snapshot, a.now)
  }

  function IdentityOf(scope: Scope, b: Binding): Identity {
    Identity(scope.tenant, scope.owner, scope.worker, b.run, b.attempt, b.lease, b.leaseGeneration)
  }

  /** Cancelled, succeeded or failed, as reported to the platform. */
  function Classify(cancelRevision: nat, r: RunResult, runFailed: bool): Status {
    var preRunCancel := r.failure == "cancelled_before_materialization" && !r.credentialRequired;
    if cancelRevision > 0 && r.cancelled && (r.failure == "" || preRunCancel) && r.CleanupComplete() then Cancelled
    else if r.Succeeded(runFailed) then Succeeded
    else Status.Failed
  }

  predicate AckMatches(t: Terminal, b: Body, expectedSequence: nat) {
    && b.TerminalAck?
    && BodyValid(b)
    && b.binding == t.binding
    && b.sequence == expectedSequence
    && b.terminalSequence == t.terminalSequence
    && b.status == t.status
    && b.result == t.result
    && b.evidence == t.evidence
  }

  function BuildPlan(active: Active, d: Declaration): Plan {
    Plan(Authorization(active.scope, active.binding, 1), d.nonce, d.fingerprint, d.producer, d.artifacts,
         d.observationDigest, d.acceptedAt, d.expiresAt, active.nextWorker, active.nextPlatform, 1, d.wellFormed)
  }

  /** Recovery authenticates the retained result, not a fresh execution. */
  predicate RecoveryAuthority(active: Active, r: Receipts.Attempt, completion: Completion, cfg: Config, a: Answer) {
    var p := r.checkpoint.plan;
    && ReadySnapshot(a, cfg)
    && !r.blocked
    && r.completion == completion
    && Valid(r.checkpoint)
    && p.authorization == Authorization(active.scope, active.binding, 1)
    && p.workerSequence == active.nextWorker
    && p.platformSequence == active.nextPlatform
    && p.terminalSequence == 1
    && active.scope == a.snapshot.scope
    && BindingValid(active.binding)
    && active.binding.capabilityDigest == a.snapshot.capability
    && a.sourceOk
  }

  const CANCELLED_RESULT: RunResult :=
    RunResult(0, true, false, "", "cancelled_before_materialization", true, true, true, false, false, true, "")

  function FailedResult(code: string): RunResult {
    RunResult(0, false, false, "", code, false, false, false, false, false, true, "")
  }

  function MaterializationFailure(cause: Cause): string {
    match cause
    case Plain => "invocation_materialization_failed"
    case Canceled => "invocation_materialization_cancelled"
    case DeadlineExceeded => "invocation_materialization_deadline"
  }

  // ---------------------------------------------------------------------------
  // Operations

  function Now(s: State): nat {
    s.receipt.tick
  }

  function Tick(s: State): State {
    s.(receipt := s.receipt.(tick := s.receipt.tick + 1))
  }

  function Log(s: State, e: Event): State {
    s.(trace := s.trace + [e])
  }

  function Current(s: State): nat {
    if s.attempts == 0 then 0 else s.attempts - 1
  }

  /** Send CancelAck once; only a clean empty answer settles it. */
  function AcknowledgeCancel(s: State, o: Oracle): (State, bool)
    requires s.active.Some?
  {
    var active, a := s.active.value, o(Now(s));
    var s1 := Tick(Log(s, CancelAckSent(Current(s), active.nextWorker)));
    if !a.exchangeOk || a.frame.Some? then (s1, false)
    else
      var settled := active.(nextWorker := active.nextWorker + 1, cancelAcked := true);
      (Log(s1, CancelAckSettled(Current(s))).(active := Some(settled)), true)
  }

  /** Local completion of an attempt: what to report and how it ended. */
  datatype Report = Report(
    identity: Identity,
    result: RunResult,
    runFailed: bool,
    declaration: Option<Declaration>,
    deadline: Option<int>)
  {
    function Fingerprint(): Completion {
      Completion(identity, result, runFailed)
    }
  }

  predicate OwnsAttempt(active: Active, identity: Identity) {
    && active.identity == identity
    && IdentityValid(identity)
    && 0 < active.nextWorker < MAX_UINT64
    && 0 < active.nextPlatform < MAX_UINT64
  }

  predicate MayComplete(active: Active, receipt: Option<Receipts.Attempt>, completion: Completion, cfg: Config,
                        a: Answer) {
    && (active.cancelRevision != 0 ==> active.cancelAcked)
    && if cfg.inline && receipt.Some? then RecoveryAuthority(active, receipt.value, completion, cfg, a)
       else ActiveAuthority(active, cfg, a)
  }

  function InlineOffer(active: Active, report: Report, cfg: Config): Receipts.Offer {
    var plan := if report.declaration.None? then None else Some(BuildPlan(active, report.declaration.value));
    Receipts.Offer(report.Fingerprint(),
                   cfg.inline && report.result.Succeeded(report.runFailed) && report.result.CleanupComplete(),
                   plan, report.deadline)
  }

  datatype EvidenceResult = Known(digest: string) | Missing(error: Error)

  /** The evidence of the terminal: the canonical receipt digest, or what the other
      reporting paths produce. */
  function Evidence(s: State, report: Report, status: Status, cfg: Config, o: Oracle): (State, EvidenceResult)
    requires s.active.Some?
  {
    if cfg.receipts && cfg.inline && status.Succeeded? then
      var (w, out) := Receipts.Publish(s.receipt, cfg, InlineOffer(s.active.value, report, cfg), o);
      (s.(receipt := w),
       match out
       case Evidence(digest) => Known(digest)
       case Failure(reason) => Missing(if reason.EvidenceInvalid? then EvidenceInvalid else ReconciliationRequired))
    else if cfg.receipts && !report.result.CleanupComplete() then (s, Missing(EvidenceInvalid))
    else
      (Tick(s),
       match o(Now(s)).evidence
       case Some(digest) => Known(digest)
       case None => Missing(if cfg.receipts then ReconciliationRequired else EvidenceInvalid))
  }

  /** Send the terminal and accept only the acknowledgement of exactly that frame. */
  function SendTerminal(s: State, t: Terminal, o: Oracle): (State, bool)
    requires s.active.Some?
  {
    var a := o(Now(s));
    var s1 := Tick(Log(s, TerminalSent(Current(s), t, s.receipt.attempt.Some?)));
    if a.exchangeOk && a.frame.Some? && MatchesSession(a.frame.value, a.snapshot) &&
       AckMatches(t, a.frame.value.body, s.active.value.nextPlatform)
    then (Log(s1, TerminalAckSeen(Current(s), t, a.frame.value.body)), true)
    else (s1, false)
  }

  /** Acknowledge a pending remote drain, after the terminal was acknowledged. */
  function SendDrained(s: State, o: Oracle): (State, bool)
    requires s.active.Some?
  {
    if s.active.value.drainRevision == 0 then (s, true)
    else
      var presence := o(Now(s));
      if !presence.exchangeOk || presence.frame.Some? then (Tick(s), false)
      else
        var s1 := Log(Tick(s), DrainedSent(Current(s)));
        var a := o(Now(s1));
        (Tick(s1), a.exchangeOk && a.frame.None?)
  }

  function RetireReceipts(s: State, status: Status, cfg: Config, o: Oracle): (State, bool) {
    var v1 := cfg.receipts && !(cfg.inline && status.Succeeded?);
    var s1 := if v1 then Tick(s) else s;
    if v1 && !o(Now(s)).localOk then (s1, false)
    else if s1.receipt.attempt.None? then (s1, true)
    else
      var (w, failure) := Receipts.Acknowledge(s1.receipt, o);
      (s1.(receipt := w), failure.None?)
  }

  function Finish(s: State, completion: Completion): State {
    s.(active := None, last := Some(completion), receipt := s.receipt.(attempt := None, sends := []))
  }

  /** Everything after the evidence is known. */
  function Conclude(s: State, report: Report, status: Status, evidence: string, cfg: Config, o: Oracle): (State, Reply)
    requires s.active.Some?
  {
    var active := s.active.value;
    var t := Terminal(active.binding, active.nextWorker, 1, status, ResultOf(status), evidence);
    var (s1, acked) := SendTerminal(s, t, o);
    if !acked then (s1, Refused(ReconciliationRequired))
    else
      var (s2, retired) := RetireReceipts(s1, status, cfg, o);
      if !retired then (s2, Refused(ReconciliationRequired))
      else
        var (s3, drained) := SendDrained(s2, o);
        if !drained then (s3, Refused(ReconciliationRequired))
        else if cfg.prepared && !o(Now(s3)).localOk then (Tick(s3), Refused(ReconciliationRequired))
        else (Finish(Tick(s3), report.Fingerprint()), Completed)
  }

  function CompleteOwned(s: State, report: Report, cfg: Config, o: Oracle): (State, Reply) {
    if !report.result.wellFormed then (s, Refused(EvidenceInvalid))
    else if s.active.None? then
      (s, if s.last == Some(report.Fingerprint()) then Completed else Refused(AttemptUnavailable))
    else if !OwnsAttempt(s.active.value, report.identity) then (s, Refused(InvalidAuthority))
    else if !MayComplete(s.active.value, s.receipt.attempt, report.Fingerprint(), cfg, o(Now(s)))
    then (Tick(s), Refused(ReconciliationRequired))
    else
      var status := Classify(s.active.value.cancelRevision, report.result, report.runFailed);
      var (s1, evidence) := Evidence(Tick(s), report, status, cfg, o);
      match evidence
      case Missing(error) => (s1, Refused(error))
      case Known(digest) =>
        if s1.active.None? then (s1, Refused(InvalidAuthority))
        else Conclude(s1, report, status, digest, cfg, o)
  }

  /** A new attempt becomes active; nothing of the previous one remains. */
  function Accept(s: State, scope: Scope, b: Binding, granted: Binding, offered: nat, answered: nat,
                  cancelRevision: nat): State {
    var active := Active(scope, b, IdentityOf(scope, b), offered + 1, answered + 1, cancelRevision, false, 0);
    Log(s.(active := Some(active), attempts := s.attempts + 1),
        Accepted(s.attempts, b, granted, offered, offered, answered, cancelRevision != 0))
  }

  /** Build the local input of an accepted attempt and hand it out. */
  function Materialize(s: State, cfg: Config, o: Oracle): (State, Reply)
    requires s.active.Some?
  {
    var a, id := o(Now(s)), s.active.value.identity;
    var s1 := Tick(s);
    if a.late then (s1.(gateFree := false), Refused(MaterializationFailed))
    else if !a.localOk || a.contextDone then
      var failed := Report(id, FailedResult(MaterializationFailure(a.cause)), !a.localOk, None, None);
      var (s2, _) := CompleteOwned(s1, failed, cfg, o);
      (s2, Refused(MaterializationFailed))
    else if !ActiveAuthority(s1.active.value, cfg, o(Now(s1))) then (Tick(s1), Refused(ReconciliationRequired))
    else
      var s2 := Tick(s1);
      if !o(Now(s2)).localOk then
        var invalid := Report(id, FailedResult("invocation_materialization_invalid"), true, None, None);
        var (s3, _) := CompleteOwned(Tick(s2), invalid, cfg, o);
        (s3, Refused(MaterializationFailed))
      else (Log(Tick(s2), HandedOut(Current(s2))), Invocation(id))
  }

  /** A claim answered by Cancel: acknowledge and report without running anything. */
  function AbandonClaim(s: State, cfg: Config, o: Oracle): (State, Reply)
    requires s.active.Some?
  {
    var (s1, acked) := AcknowledgeCancel(s, o);
    if !acked then (s1, Refused(ReconciliationRequired))
    else
      var (s2, _) := CompleteOwned(s1, Report(s.active.value.identity, CANCELLED_RESULT, true, None, None), cfg, o);
      (s2, Refused(AttemptCancelled))
  }

  function Claim(s: State, cfg: Config, snapshot: Snapshot, b: Binding, offered: nat, o: Oracle): (State, Reply) {
    var scope := snapshot.scope;
    if offered != 1 || !AttemptMatchesSnapshot(b, snapshot, o(Now(s)).now) then (Tick(s), Refused(InvalidAuthority))
    else
      var s1 := Tick(s);
      var a := o(Now(s1));
      var s2 := Tick(s1);
      if !a.exchangeOk || a.frame.None? || !FrameValid(a.frame.value) || !MatchesSession(a.frame.value, snapshot)
      then (s2, Refused(ReconciliationRequired))
      else if !IdentityValid(IdentityOf(scope, b)) then (s2, Refused(InvalidAuthority))
        else match a.frame.value.body
             case LeaseAccepted(binding, sequence) =>
               if sequence != offered + 1 || binding != b then (s2, Refused(InvalidAuthority))
               else Materialize(Accept(s2, scope, b, binding, offered, sequence, 0), cfg, o)
             case Cancel(binding, sequence, revision) =>
               if sequence != offered + 1 || binding != b then (s2, Refused(InvalidAuthority))
               else AbandonClaim(Accept(s2, scope, b, binding, offered, sequence, revision), cfg, o)
             case _ => (s2, Refused(InvalidAuthority))
  }

  function Next(s: State, cfg: Config, o: Oracle): (State, Reply) {
    if !s.gateFree then (s, Refused(Busy))
    else if s.active.Some? then (s, Refused(AttemptActive))
    else
      var ready := o(Now(s));
      var s1 := Tick(s);
      var a := o(Now(s1));
      var s2 := Tick(s1);
      if !ReadySnapshot(ready, cfg) then (s1, Refused(SessionFenced))
      else if !a.exchangeOk then (s2, Refused(ReconciliationRequired))
      else if a.frame.None? then (s2, Nothing)
      else if !FrameValid(a.frame.value) || !MatchesSession(a.frame.value, ready.snapshot) then
        (s2, Refused(InvalidAuthority))
      else match a.frame.value.body
           case LeaseOffer(b, sequence) => Claim(s2, cfg, ready.snapshot, b, sequence, o)
           case Revoke(_) => (Tick(s2), Refused(SessionFenced))
           case Drain(_) =>
             (Tick(s2), Refused(if o(Now(s2)).exchangeOk then DrainRequested else ReconciliationRequired))
           case _ => (s2, Refused(InvalidAuthority))
  }

  /** Apply a remote Cancel locally; acknowledge only a confirmed local cancel. */
  function ApplyCancel(s: State, binding: Binding, sequence: nat, revision: nat, cfg: Config, o: Oracle): (State, Reply)
    requires s.active.Some?
  {
    var cancelled := s.active.value.(cancelRevision := revision, nextPlatform := sequence + 1);
    var s1 := Log(s.(active := Some(cancelled)), CancelSeen(Current(s), sequence, binding));
    var s2 := Tick(s1);
    if !ActiveAuthority(cancelled, cfg, o(Now(s1))) then (s2, Refused(ReconciliationRequired))
    else
      var a := o(Now(s2));
      var s3 := Tick(s2);
      if a.late then (s3.(gateFree := false), Refused(ReconciliationRequired))
      else if a.contextDone || !a.localOk then (s3, Refused(ReconciliationRequired))
      else
        var (s4, acked) := AcknowledgeCancel(Log(s3, LocallyCancelled(Current(s))), o);
        (s4, if acked then CancelHandled else Refused(ReconciliationRequired))
  }

  /** One active-presence exchange. */
  function Poll(s: State, identity: Identity, withDrain: bool, cfg: Config, o: Oracle): (State, Reply) {
    if !s.gateFree then (s, Refused(Busy))
    else if s.active.None? then (s, Refused(AttemptUnavailable))
    else if s.active.value.identity != identity then (s, Refused(InvalidAuthority))
    else if s.active.value.cancelRevision != 0 then
      (s, if s.active.value.cancelAcked then CancelHandled else Refused(ReconciliationRequired))
    else if !ActiveAuthority(s.active.value, cfg, o(Now(s))) then (Tick(s), Refused(ReconciliationRequired))
    else
      var active := s.active.value;
      var s1 := Tick(s);
      var a := o(Now(s1));
      var s2 := Tick(s1);
      if !a.exchangeOk then (s2, Refused(ReconciliationRequired))
      else if a.frame.None? then (s2, Nothing)
      else if !MatchesSession(a.frame.value, a.snapshot) || !BodyValid(a.frame.value.body) then
        (s2, Refused(InvalidAuthority))
      else match a.frame.value.body
           case Cancel(binding, sequence, revision) =>
             if binding != active.binding || sequence != active.nextPlatform || revision != 1 then
               (s2, Refused(InvalidAuthority))
             else ApplyCancel(s2, binding, sequence, revision, cfg, o)
           case Drain(revision) =>
             if !withDrain || active.drainRevision != 0 then (s2, Refused(InvalidAuthority))
             else
               var s3 := Tick(s2).(active := Some(active.(drainRevision := revision)));
               (s3, if o(Now(s2)).localOk then Nothing else Refused(ReconciliationRequired))
           case _ => (s2, Refused(InvalidAuthority))
  }

  function Complete(s: State, report: Report, cfg: Config, o: Oracle): (State, Reply) {
    if !s.gateFree then (s, Refused(Busy)) else CompleteOwned(s, report, cfg, o)
  }

  // ---------------------------------------------------------------------------
  // Runs

  datatype Call =
    | NextCall
    | PollCall(identity: Identity, withDrain: bool)
    | CompleteCall(report: Report)
    | LateReturn

  function Step(s: State, call: Call, cfg: Config, o: Oracle): State {
    match call
    case NextCall => Next(s, cfg, o).0
    case PollCall(identity, withDrain) => Poll(s, identity, withDrain, cfg, o).0
    case CompleteCall(report) => Complete(s, report, cfg, o).0
    case LateReturn => s.(gateFree := true)
  }

  function Steps(s: State, calls: seq<Call>, cfg: Config, o: Oracle): State
    decreases |calls|
  {
    if calls == [] then s
    else Step(Steps(s, calls[..|calls| - 1], cfg, o), calls[|calls| - 1], cfg, o)
  }

  /** A new adapter over whatever journal earlier processes left. */
  function Initially(journal: Journals.Journal): State {
    State(None, None, true, Receipts.World(None, journal, 0, []), 0, [])
  }

  // ---------------------------------------------------------------------------
  // What every run promises

  datatype Kind = IsAccepted | IsHandedOut | IsCancelSeen | IsLocallyCancelled | IsAckSent | IsAckSettled
                | IsTerminalSent | IsTerminalAck | IsDrained

  function KindOf(e: Event): Kind {
    match e
    case Accepted(_, _, _, _, _, _, _) => IsAccepted
    case HandedOut(_) => IsHandedOut
    case CancelSeen(_, _, _) => IsCancelSeen
    case LocallyCancelled(_) => IsLocallyCancelled
    case CancelAckSent(_, _) => IsAckSent
    case CancelAckSettled(_) => IsAckSettled
    case TerminalSent(_, _, _) => IsTerminalSent
    case TerminalAckSeen(_, _, _) => IsTerminalAck
    case DrainedSent(_) => IsDrained
  }

  /** How often attempt `n` shows an event of this kind. */
  function Count(t: seq<Event>, n: nat, k: Kind): nat {
    if t == [] then 0
    else Count(t[..|t| - 1], n, k) + Bit(t[|t| - 1].n == n && KindOf(t[|t| - 1]) == k)
  }

  /** A Cancel reached attempt `n`, in the answer to its claim or later. */
  ghost predicate CancelPending(t: seq<Event>, n: nat) {
    Count(t, n, IsCancelSeen) > 0 || exists i | 0 <= i < |t| :: t[i].Accepted? && t[i].n == n && t[i].cancelled
  }

  /** Worker and platform frames of attempt `n` that were accepted so far. */
  function WorkerFrames(t: seq<Event>, n: nat): nat {
    Count(t, n, IsAccepted) + Count(t, n, IsAckSettled)
  }

  function PlatformFrames(t: seq<Event>, n: nat): nat {
    2 * Count(t, n, IsAccepted) + Count(t, n, IsCancelSeen)
  }

  /** What must have happened before each event. */
  ghost predicate EventOk(p: seq<Event>, e: Event) {
    match e
    case Accepted(n, binding, granted, offered, claimed, answered, _) =>
      && binding == granted
      && Count(p, n, IsAccepted) == 0
      && (forall m | 0 <= m < n :: Count(p, m, IsTerminalAck) > 0)
      && offered == claimed == 1 && answered == 2
    case HandedOut(n) =>
      && Count(p, n, IsHandedOut) == 0
      && (forall m | 0 <= m < n :: Count(p, m, IsTerminalAck) > 0)
      && !CancelPending(p, n)
    case CancelSeen(n, sequence, binding) => sequence == PlatformFrames(p, n) + 1 && AcceptedWith(p, n, binding)
    case LocallyCancelled(n) => Count(p, n, IsCancelSeen) > 0
    case CancelAckSent(n, sequence) =>
      && Count(p, n, IsAckSent) == 0
      && (Count(p, n, IsLocallyCancelled) > 0 || Count(p, n, IsHandedOut) == 0)
      && sequence == WorkerFrames(p, n) + 1
    case CancelAckSettled(n) => Count(p, n, IsAckSent) == 1
    case TerminalSent(n, t, _) =>
      && (CancelPending(p, n) ==> Count(p, n, IsAckSettled) > 0)
      && (t.status.Cancelled? ==> CancelPending(p, n))
      && t.attemptSequence == WorkerFrames(p, n) + 1
      && t.terminalSequence == 1
      && AcceptedWith(p, n, t.binding)
      && (forall i | 0 <= i < |p| && p[i].TerminalSent? && p[i].n == n && p[i].inline :: p[i].terminal == t)
    case TerminalAckSeen(n, t, ack) =>
      && AckMatches(t, ack, PlatformFrames(p, n) + 1)
      && p != [] && p[|p| - 1].TerminalSent? && p[|p| - 1].n == n && p[|p| - 1].terminal == t
    case DrainedSent(n) => Count(p, n, IsTerminalAck) > 0
  }

  ghost predicate TraceOk(t: seq<Event>) {
    forall i | 0 <= i < |t| :: EventOk(t[..i], t[i])
  }

  // ---------------------------------------------------------------------------
  // How the adapter's memory reflects the trace

  ghost predicate History(t: seq<Event>, attempts: nat, open: bool) {
    && (open ==> attempts > 0)
    && (forall i | 0 <= i < |t| :: t[i].n < attempts)
    && (forall m | 0 <= m < attempts - Bit(open) :: Count(t, m, IsTerminalAck) > 0)
  }

  ghost predicate AcceptedWith(t: seq<Event>, n: nat, b: Binding) {
    exists i | 0 <= i < |t| :: t[i].Accepted? && t[i].n == n && t[i].binding == b
  }

  ghost predicate ActiveLink(t: seq<Event>, n: nat, active: Active) {
    && Count(t, n, IsAccepted) == 1
    && AcceptedWith(t, n, active.binding)
    && active.nextWorker == WorkerFrames(t, n) + 1
    && active.nextPlatform == PlatformFrames(t, n) + 1
    && (active.cancelRevision != 0 <==> CancelPending(t, n))
    && (active.cancelAcked ==> Count(t, n, IsAckSettled) > 0)
    && (active.cancelRevision == 0 ==> Count(t, n, IsAckSent) == 0)
  }

  function InlineTerminal(active: Active, c: Checkpoint): Terminal {
    Terminal(active.binding, c.plan.workerSequence, 1, Succeeded, ResultCompleted, c.progress.canonical)
  }

  ghost predicate SentInline(t: seq<Event>, n: nat, i: nat) {
    i < |t| && t[i].TerminalSent? && t[i].n == n && t[i].inline
  }

  /** With a receipt, every terminal sent is the one frame the receipt fixes, and in a
      journal that was clean an acknowledged record means that the platform acknowledged a
      terminal. */
  ghost predicate ReceiptLink(t: seq<Event>, n: nat, active: Active, w: Receipts.World, cfg: Config, clean: bool) {
    match w.attempt
    case None =>
      && (clean ==> Receipts.Unacked(w.journal))
      && (forall i: nat | i < |t| :: !SentInline(t, n, i))
    case Some(r) =>
      && cfg.inline && cfg.receipts
      && r.completion.result.Succeeded(r.completion.runFailed)
      && (forall i: nat | SentInline(t, n, i) ::
            r.checkpoint.progress.canonical != "" && t[i].terminal == InlineTerminal(active, r.checkpoint))
      && (clean ==> Receipts.Unacked(w.journal) || Count(t, n, IsTerminalAck) > 0)
  }

  ghost predicate Link(s: State, cfg: Config, clean: bool) {
    && History(s.trace, s.attempts, s.active.Some?)
    && Receipts.Inv(s.receipt, false)
    && match s.active
       case None => s.receipt.attempt.None? && (clean ==> Receipts.Unacked(s.receipt.journal))
       case Some(active) =>
         ActiveLink(s.trace, Current(s), active) && ReceiptLink(s.trace, Current(s), active, s.receipt, cfg, clean)
  }

  ghost predicate Good(s: State, cfg: Config, clean: bool) {
    TraceOk(s.trace) && Link(s, cfg, clean)
  }

  lemma CountAppend(t: seq<Event>, e: Event)
    ensures forall n, k :: Count(t + [e], n, k) == Count(t, n, k) + Bit(e.n == n && KindOf(e) == k)
  {
    assert (t + [e])[..|t|] == t;
  }

  lemma TraceAppend(t: seq<Event>, e: Event)
    requires TraceOk(t) && EventOk(t, e)
    ensures TraceOk(t + [e])
  {
    forall i | 0 <= i < |t + [e]|
      ensures EventOk((t + [e])[..i], (t + [e])[i])
    {
      if i < |t| {
        assert (t + [e])[..i] == t[..i];
      } else {
        assert (t + [e])[..i] == t;
      }
    }
  }

  /** Appending keeps what older events showed. */
  lemma MembersAppend(t: seq<Event>, e: Event, n: nat, b: Binding)
    ensures AcceptedWith(t, n, b) ==> AcceptedWith(t + [e], n, b)
    ensures CancelPending(t + [e], n) <==>
            CancelPending(t, n) || (e.n == n && (e.CancelSeen? || (e.Accepted? && e.cancelled)))
    ensures forall i: nat :: SentInline(t + [e], n, i) <==>
                             SentInline(t, n, i) || (i == |t| && e.TerminalSent? && e.n == n && e.inline)
  {
    var t' := t + [e];
    CountAppend(t, e);
    assert t'[|t|] == e;
    assert forall i | 0 <= i < |t| :: t'[i] == t[i];
    if AcceptedWith(t, n, b) {
      var i :| 0 <= i < |t| && t[i].Accepted? && t[i].n == n && t[i].binding == b;
      assert t'[i].Accepted?;
    }
    if i :| 0 <= i < |t| && t[i].Accepted? && t[i].n == n && t[i].cancelled {
      assert t'[i].Accepted? && t'[i].cancelled;
    }
  }

  /** Record one event of the active attempt together with its new memory. */
  lemma LogActive(s: State, e: Event, active: Active, cfg: Config, clean: bool)
    requires Good(s, cfg, clean) && s.active.Some? && e.n == Current(s) && !e.TerminalSent? && EventOk(s.trace, e)
    requires active.binding == s.active.value.binding && ActiveLink(s.trace + [e], e.n, active)
    ensures Good(Log(s, e).(active := Some(active)), cfg, clean)
  {
    hide EventOk, ActiveLink, Receipts.Inv;
    TraceAppend(s.trace, e);
    CountAppend(s.trace, e);
    MembersAppend(s.trace, e, e.n, active.binding);
  }

  ghost predicate Marker(e: Event) {
    e.HandedOut? || e.LocallyCancelled? || e.DrainedSent? || e.TerminalAckSeen? || e.CancelAckSent?
  }

  lemma LogMarker(s: State, e: Event, cfg: Config, clean: bool)
    requires Good(s, cfg, clean) && s.active.Some? && e.n == Current(s) && EventOk(s.trace, e) && Marker(e)
    requires e.CancelAckSent? ==> s.active.value.cancelRevision != 0
    ensures Good(Log(s, e), cfg, clean)
    ensures forall k :: Count(Log(s, e).trace, e.n, k) == Count(s.trace, e.n, k) + Bit(KindOf(e) == k)
  {
    hide EventOk;
    CountAppend(s.trace, e);
    MembersAppend(s.trace, e, e.n, s.active.value.binding);
    LogActive(s, e, s.active.value, cfg, clean);
  }

  lemma TickKeeps(s: State, cfg: Config, clean: bool)
    requires Good(s, cfg, clean)
    ensures Good(Tick(s), cfg, clean)
  {
  }

  lemma AcknowledgeCancelKeeps(s: State, cfg: Config, o: Oracle, clean: bool)
    requires Good(s, cfg, clean) && s.active.Some? && s.active.value.cancelRevision != 0
    requires Count(s.trace, Current(s), IsAckSent) == 0
    requires Count(s.trace, Current(s), IsLocallyCancelled) > 0 || Count(s.trace, Current(s), IsHandedOut) == 0
    ensures var (s', acked) := AcknowledgeCancel(s, o);
            Good(s', cfg, clean) && s'.active.Some? && s'.attempts == s.attempts &&
            s'.active.value.identity == s.active.value.identity
  {
    hide Good, EventOk, ActiveLink, Count;
    var n, active := Current(s), s.active.value;
    AckSentOk(s, cfg, clean);
    var e := CancelAckSent(n, active.nextWorker);
    LogMarker(s, e, cfg, clean);
    TickKeeps(Log(s, e), cfg, clean);
    var s1 := Tick(Log(s, e));
    AckSettledOk(s1, cfg, clean);
    LogActive(s1, CancelAckSettled(n), active.(nextWorker := active.nextWorker + 1, cancelAcked := true), cfg, clean);
  }

  lemma AckSentOk(s: State, cfg: Config, clean: bool)
    requires Good(s, cfg, clean) && s.active.Some? && s.active.value.cancelRevision != 0
    requires Count(s.trace, Current(s), IsAckSent) == 0
    requires Count(s.trace, Current(s), IsLocallyCancelled) > 0 || Count(s.trace, Current(s), IsHandedOut) == 0
    ensures EventOk(s.trace, CancelAckSent(Current(s), s.active.value.nextWorker))
  {
  }

  lemma AckSettledOk(s: State, cfg: Config, clean: bool)
    requires Good(s, cfg, clean) && s.active.Some? && s.active.value.cancelRevision != 0
    requires Count(s.trace, Current(s), IsAckSent) == 1
    ensures EventOk(s.trace, CancelAckSettled(Current(s)))
    ensures var active := s.active.value;
            ActiveLink(s.trace + [CancelAckSettled(Current(s))], Current(s),
                       active.(nextWorker := active.nextWorker + 1, cancelAcked := true))
  {
    hide TraceOk, ReceiptLink;
    CountAppend(s.trace, CancelAckSettled(Current(s)));
    MembersAppend(s.trace, CancelAckSettled(Current(s)), Current(s), s.active.value.binding);
  }

  // ---------------------------------------------------------------------------
  // Completion keeps the promises

  /** The evidence is the canonical digest whenever a receipt exists. */
  ghost predicate EvidenceOk(s: State, digest: string, status: Status) {
    match s.receipt.attempt
    case None => true
    case Some(r) =>
      && status.Succeeded?
      && r.checkpoint.progress.canonical == digest != ""
      && s.active.Some?
      && r.checkpoint.plan.workerSequence == s.active.value.nextWorker
  }

  /** Success is reported exactly for a clean run, whatever a Cancel did meanwhile, and a
      cancellation exactly for a cancelled run, or one cancelled before it started, whose
      cleanup is complete and which a Cancel asked for. */
  lemma ClassifyIsHonest(cancelRevision: nat, r: RunResult, runFailed: bool)
    ensures Classify(cancelRevision, r, runFailed) == Succeeded <==> r.Succeeded(runFailed)
    ensures Classify(cancelRevision, r, runFailed) == Cancelled <==>
            && cancelRevision > 0 && r.cancelled && r.CleanupComplete()
            && (r.failure != "" ==> r.failure == "cancelled_before_materialization" && !r.credentialRequired)
  {
  }

  lemma PublishEvidenceKeeps(s: State, report: Report, cfg: Config, o: Oracle, clean: bool)
    requires Good(s, cfg, clean) && s.active.Some? && cfg.receipts && cfg.inline
    requires s.receipt.attempt.Some? ==>
               s.receipt.attempt.value.checkpoint.plan.workerSequence == s.active.value.nextWorker
    ensures var (w, out) := Receipts.Publish(s.receipt, cfg, InlineOffer(s.active.value, report, cfg), o);
            && Good(s.(receipt := w), cfg, clean)
            && (out.Evidence? ==> EvidenceOk(s.(receipt := w), out.digest, Succeeded))
  {
    hide Receipts.Publish, ActiveLink, TraceOk, Receipts.Inv;
    var offer := InlineOffer(s.active.value, report, cfg);
    Receipts.PublishKeeps(s.receipt, cfg, offer, o, false);
    if !offer.enabled {
      PublishNeedsOffer(s.receipt, cfg, offer, o);
    }
    var w := Receipts.Publish(s.receipt, cfg, offer, o).0;
    if w.attempt.Some? {
      assert w.attempt.value.completion.result.Succeeded(w.attempt.value.completion.runFailed);
    }
    assert ReceiptLink(s.trace, Current(s), s.active.value, w, cfg, clean);
  }

  lemma PublishNeedsOffer(w: Receipts.World, cfg: Config, offer: Receipts.Offer, o: Oracle)
    requires !offer.enabled
    ensures Receipts.Publish(w, cfg, offer, o).0 == w && Receipts.Publish(w, cfg, offer, o).1.Failure?
  {
  }

  /** A retained receipt belongs to this very report and to the current numbering. */
  ghost predicate SameReport(s: State, report: Report) {
    s.receipt.attempt.Some? && s.active.Some? ==>
      && s.receipt.attempt.value.completion == report.Fingerprint()
      && s.receipt.attempt.value.checkpoint.plan.workerSequence == s.active.value.nextWorker
  }

  lemma EvidenceKeeps(s: State, report: Report, status: Status, cfg: Config, o: Oracle, clean: bool)
    requires Good(s, cfg, clean) && s.active.Some? && SameReport(s, report)
    requires status == Classify(s.active.value.cancelRevision, report.result, report.runFailed)
    ensures var (s', evidence) := Evidence(s, report, status, cfg, o);
            && Good(s', cfg, clean) && s'.active == s.active && s'.attempts == s.attempts && s'.trace == s.trace
            && (evidence.Known? ==> EvidenceOk(s', evidence.digest, status))
  {
    hide Receipts.Publish, ActiveLink, TraceOk, Receipts.Inv, InlineOffer;
    if s.receipt.attempt.Some? {
      ClassifyIsHonest(s.active.value.cancelRevision, report.result, report.runFailed);
    }
    if cfg.receipts && cfg.inline && status.Succeeded? {
      PublishEvidenceKeeps(s, report, cfg, o, clean);
    } else {
      TickKeeps(s, cfg, clean);
    }
  }

  lemma TerminalSentOk(s: State, t: Terminal, cfg: Config, clean: bool)
    requires Good(s, cfg, clean) && s.active.Some? && EvidenceOk(s, t.evidence, t.status)
    requires s.active.value.cancelRevision != 0 ==> s.active.value.cancelAcked
    requires t == Terminal(s.active.value.binding, s.active.value.nextWorker, 1, t.status, ResultOf(t.status),
                           t.evidence)
    requires t.status.Cancelled? ==> s.active.value.cancelRevision != 0
    ensures EventOk(s.trace, TerminalSent(Current(s), t, s.receipt.attempt.Some?))
  {
    hide TraceOk, Receipts.Inv;
    assert AcceptedWith(s.trace, Current(s), t.binding);
    forall i | 0 <= i < |s.trace| && s.trace[i].TerminalSent? && s.trace[i].n == Current(s) && s.trace[i].inline
      ensures s.trace[i].terminal == t
    {
      assert SentInline(s.trace, Current(s), i);
    }
  }

  lemma TerminalSentLink(s: State, t: Terminal, cfg: Config, clean: bool)
    requires Good(s, cfg, clean) && s.active.Some? && EvidenceOk(s, t.evidence, t.status)
    requires t == Terminal(s.active.value.binding, s.active.value.nextWorker, 1, t.status, ResultOf(t.status),
                           t.evidence)
    ensures Link(Log(s, TerminalSent(Current(s), t, s.receipt.attempt.Some?)), cfg, clean)
  {
    hide TraceOk, Receipts.Inv;
    var e := TerminalSent(Current(s), t, s.receipt.attempt.Some?);
    CountAppend(s.trace, e);
    MembersAppend(s.trace, e, Current(s), t.binding);
    assert (s.trace + [e])[|s.trace|] == e;
  }

  lemma SendTerminalKeeps(s: State, t: Terminal, cfg: Config, o: Oracle, clean: bool)
    requires Good(s, cfg, clean) && s.active.Some? && EvidenceOk(s, t.evidence, t.status)
    requires s.active.value.cancelRevision != 0 ==> s.active.value.cancelAcked
    requires t == Terminal(s.active.value.binding, s.active.value.nextWorker, 1, t.status, ResultOf(t.status),
                           t.evidence)
    requires t.status.Cancelled? ==> s.active.value.cancelRevision != 0
    ensures var (s', acked) := SendTerminal(s, t, o);
            && Good(s', cfg, clean) && s'.active == s.active && s'.attempts == s.attempts
            && (acked ==> Count(s'.trace, Current(s'), IsTerminalAck) > 0)
  {
    hide EventOk, Good, AckMatches;
    var e := TerminalSent(Current(s), t, s.receipt.attempt.Some?);
    TerminalLogged(s, t, cfg, clean);
    var s1 := Tick(Log(s, e));
    var a := o(Now(s));
    if a.frame.Some? && AckMatches(t, a.frame.value.body, s.active.value.nextPlatform) {
      TerminalAckOk(s1, t, a.frame.value.body, cfg, clean);
      LogMarker(s1, TerminalAckSeen(Current(s), t, a.frame.value.body), cfg, clean);
    }
  }

  lemma TerminalLogged(s: State, t: Terminal, cfg: Config, clean: bool)
    requires Good(s, cfg, clean) && s.active.Some? && EvidenceOk(s, t.evidence, t.status)
    requires s.active.value.cancelRevision != 0 ==> s.active.value.cancelAcked
    requires t == Terminal(s.active.value.binding, s.active.value.nextWorker, 1, t.status, ResultOf(t.status),
                           t.evidence)
    requires t.status.Cancelled? ==> s.active.value.cancelRevision != 0
    ensures Good(Tick(Log(s, TerminalSent(Current(s), t, s.receipt.attempt.Some?))), cfg, clean)
  {
    hide EventOk, TraceOk, Link;
    var e := TerminalSent(Current(s), t, s.receipt.attempt.Some?);
    TerminalSentOk(s, t, cfg, clean);
    TerminalSentLink(s, t, cfg, clean);
    TraceAppend(s.trace, e);
    TickKeeps(Log(s, e), cfg, clean);
  }

  lemma TerminalAckOk(s: State, t: Terminal, ack: Body, cfg: Config, clean: bool)
    requires Good(s, cfg, clean) && s.active.Some? && s.trace != []
    requires s.trace[|s.trace| - 1].TerminalSent? && s.trace[|s.trace| - 1].n == Current(s)
    requires s.trace[|s.trace| - 1].terminal == t && AckMatches(t, ack, s.active.value.nextPlatform)
    ensures EventOk(s.trace, TerminalAckSeen(Current(s), t, ack))
  {
    hide AckMatches, TraceOk, History, ReceiptLink, Receipts.Inv, Count;
  }

  lemma RetireReceiptsKeeps(s: State, status: Status, cfg: Config, o: Oracle, clean: bool)
    requires Good(s, cfg, clean) && s.active.Some? && Count(s.trace, Current(s), IsTerminalAck) > 0
    ensures var (s', ok) := RetireReceipts(s, status, cfg, o);
            && Good(s', cfg, clean) && s'.active == s.active && s'.attempts == s.attempts && s'.trace == s.trace
            && (ok && s'.receipt.attempt.Some? ==> s'.receipt.attempt.value.retired)
  {
    hide ActiveLink, TraceOk, Receipts.Acknowledge, Receipts.Inv;
    TickKeeps(s, cfg, clean);
    Receipts.AcknowledgeKeeps(s.receipt, o, false);
    Receipts.AcknowledgeKeeps(Tick(s).receipt, o, false);
  }

  lemma SendDrainedKeeps(s: State, cfg: Config, o: Oracle, clean: bool)
    requires Good(s, cfg, clean) && s.active.Some? && Count(s.trace, Current(s), IsTerminalAck) > 0
    ensures var (s', ok) := SendDrained(s, o);
            && Good(s', cfg, clean) && s'.active == s.active && s'.attempts == s.attempts
            && s'.receipt.attempt == s.receipt.attempt
            && Count(s'.trace, Current(s'), IsTerminalAck) > 0
  {
    hide Good;
    if s.active.value.drainRevision != 0 {
      TickKeeps(s, cfg, clean);
      var e := DrainedSent(Current(s));
      LogMarker(Tick(s), e, cfg, clean);
      TickKeeps(Log(Tick(s), e), cfg, clean);
    }
  }

  lemma FinishKeeps(s: State, completion: Completion, cfg: Config, clean: bool)
    requires Good(s, cfg, clean) && s.active.Some? && Count(s.trace, Current(s), IsTerminalAck) > 0
    requires s.receipt.attempt.Some? ==> s.receipt.attempt.value.retired
    ensures Good(Finish(s, completion), cfg, clean)
  {
    hide ActiveLink, TraceOk;
  }

  lemma ConcludeKeeps(s: State, report: Report, status: Status, evidence: string, cfg: Config, o: Oracle, clean: bool)
    requires Good(s, cfg, clean) && s.active.Some? && EvidenceOk(s, evidence, status)
    requires s.active.value.cancelRevision != 0 ==> s.active.value.cancelAcked
    requires status.Cancelled? ==> s.active.value.cancelRevision != 0
    ensures Good(Conclude(s, report, status, evidence, cfg, o).0, cfg, clean)
  {
    hide Good, SendTerminal, RetireReceipts, SendDrained, Finish;
    var active := s.active.value;
    var t := Terminal(active.binding, active.nextWorker, 1, status, ResultOf(status), evidence);
    SendTerminalKeeps(s, t, cfg, o, clean);
    var (s1, acked) := SendTerminal(s, t, o);
    if acked {
      RetireReceiptsKeeps(s1, status, cfg, o, clean);
      var (s2, retired) := RetireReceipts(s1, status, cfg, o);
      if retired {
        SendDrainedKeeps(s2, cfg, o, clean);
        var (s3, drained) := SendDrained(s2, o);
        TickKeeps(s3, cfg, clean);
        FinishKeeps(Tick(s3), report.Fingerprint(), cfg, clean);
      }
    }
  }

  lemma CompleteOwnedKeeps(s: State, report: Report, cfg: Config, o: Oracle, clean: bool)
    requires Good(s, cfg, clean)
    ensures Good(CompleteOwned(s, report, cfg, o).0, cfg, clean)
  {
    hide Conclude, Evidence, ActiveAuthority, TraceOk, ActiveLink, Receipts.Inv;
    TickKeeps(s, cfg, clean);
    if report.result.wellFormed && s.active.Some? && OwnsAttempt(s.active.value, report.identity) &&
       MayComplete(s.active.value, s.receipt.attempt, report.Fingerprint(), cfg, o(Now(s))) {
      var status := Classify(s.active.value.cancelRevision, report.result, report.runFailed);
      EvidenceKeeps(Tick(s), report, status, cfg, o, clean);
      var (s1, evidence) := Evidence(Tick(s), report, status, cfg, o);
      if evidence.Known? {
        ConcludeKeeps(s1, report, status, evidence.digest, cfg, o, clean);
      }
    }
  }

  // ---------------------------------------------------------------------------
  // Claiming, cancelling and polling keep the promises

  /** A freshly accepted attempt: nothing handed out, nothing acknowledged. */
  ghost predicate JustAccepted(s: State, cfg: Config, clean: bool) {
    && Good(s, cfg, clean) && s.active.Some?
    && Count(s.trace, Current(s), IsHandedOut) == 0
    && Count(s.trace, Current(s), IsAckSent) == 0
  }

  lemma {:induction false} FreshCounts(t: seq<Event>, n: nat, k: Kind)
    requires forall i | 0 <= i < |t| :: t[i].n < n
    ensures Count(t, n, k) == 0
  {
    if t != [] {
      FreshCounts(t[..|t| - 1], n, k);
    }
  }

  lemma AcceptKeeps(s: State, scope: Scope, b: Binding, cancelRevision: nat, cfg: Config, clean: bool)
    requires Good(s, cfg, clean) && s.active.None?
    ensures JustAccepted(Accept(s, scope, b, b, 1, 2, cancelRevision), cfg, clean)
  {
    hide TraceOk, Receipts.Inv, ActiveLink, History, Count, SentInline;
    var e := Accepted(s.attempts, b, b, 1, 1, 2, cancelRevision != 0);
    AcceptTrace(s, e, cfg, clean);
    AcceptLink(s, scope, e, cancelRevision, cfg, clean);
    AcceptHistory(s, e, cfg, clean);
  }

  lemma AcceptHistory(s: State, e: Event, cfg: Config, clean: bool)
    requires Good(s, cfg, clean) && s.active.None? && e.Accepted? && e.n == s.attempts
    ensures History(s.trace + [e], s.attempts + 1, true)
    ensures forall i: nat | i < |s.trace| + 1 :: !SentInline(s.trace + [e], e.n, i)
  {
  }

  lemma AcceptLink(s: State, scope: Scope, e: Event, cancelRevision: nat, cfg: Config, clean: bool)
    requires Good(s, cfg, clean) && s.active.None? && e.Accepted? &&
             e == Accepted(s.attempts, e.binding, e.binding, 1, 1, 2, cancelRevision != 0)
    ensures ActiveLink(s.trace + [e], e.n, Accept(s, scope, e.binding, e.binding, 1, 2, cancelRevision).active.value)
    ensures Count(s.trace + [e], e.n, IsHandedOut) == 0 && Count(s.trace + [e], e.n, IsAckSent) == 0
  {
    hide TraceOk, Receipts.Inv;
    forall k {
      FreshCounts(s.trace, e.n, k);
    }
    assert !CancelPending(s.trace, e.n);
    CountAppend(s.trace, e);
    MembersAppend(s.trace, e, e.n, e.binding);
    assert (s.trace + [e])[|s.trace|] == e;
  }

  lemma AcceptTrace(s: State, e: Event, cfg: Config, clean: bool)
    requires Good(s, cfg, clean) && s.active.None? && e.Accepted? && e.n == s.attempts
    requires e.binding == e.granted && e.offered == e.claimed == 1 && e.answered == 2
    ensures TraceOk(s.trace + [e])
  {
    hide Receipts.Inv;
    FreshCounts(s.trace, e.n, IsAccepted);
    TraceAppend(s.trace, e);
  }

  lemma MaterializeKeeps(s: State, cfg: Config, o: Oracle, clean: bool)
    requires JustAccepted(s, cfg, clean) && s.active.value.cancelRevision == 0
    ensures Good(Materialize(s, cfg, o).0, cfg, clean)
  {
    hide CompleteOwned, Good;
    var a, id := o(Now(s)), s.active.value.identity;
    TickKeeps(s, cfg, clean);
    var s1 := Tick(s);
    GateKeeps(s1, false, cfg, clean);
    var failed := Report(id, FailedResult(MaterializationFailure(a.cause)), !a.localOk, None, None);
    CompleteOwnedKeeps(s1, failed, cfg, o, clean);
    TickKeeps(s1, cfg, clean);
    var s2 := Tick(s1);
    TickKeeps(s2, cfg, clean);
    var invalid := Report(id, FailedResult("invocation_materialization_invalid"), true, None, None);
    CompleteOwnedKeeps(Tick(s2), invalid, cfg, o, clean);
    HandOutKeeps(Tick(s2), cfg, clean);
  }

  lemma GateKeeps(s: State, free: bool, cfg: Config, clean: bool)
    requires Good(s, cfg, clean)
    ensures Good(s.(gateFree := free), cfg, clean)
  {
  }

  lemma HandOutKeeps(s: State, cfg: Config, clean: bool)
    requires JustAccepted(s, cfg, clean) && s.active.value.cancelRevision == 0
    ensures Good(Log(s, HandedOut(Current(s))), cfg, clean)
  {
    HandOutOk(s, cfg, clean);
    hide EventOk;
    LogMarker(s, HandedOut(Current(s)), cfg, clean);
  }

  lemma HandOutOk(s: State, cfg: Config, clean: bool)
    requires JustAccepted(s, cfg, clean) && s.active.value.cancelRevision == 0
    ensures EventOk(s.trace, HandedOut(Current(s)))
  {
  }

  lemma AbandonClaimKeeps(s: State, cfg: Config, o: Oracle, clean: bool)
    requires JustAccepted(s, cfg, clean) && s.active.value.cancelRevision != 0
    ensures Good(AbandonClaim(s, cfg, o).0, cfg, clean)
  {
    hide CompleteOwned, AcknowledgeCancel;
    AcknowledgeCancelKeeps(s, cfg, o, clean);
    hide Good;
    var (s1, acked) := AcknowledgeCancel(s, o);
    CompleteOwnedKeeps(s1, Report(s.active.value.identity, CANCELLED_RESULT, true, None, None), cfg, o, clean);
  }

  lemma AcceptAndGoOn(s: State, cfg: Config, scope: Scope, b: Binding, revision: nat, o: Oracle, clean: bool)
    requires Good(s, cfg, clean) && s.active.None?
    ensures var s' := Accept(s, scope, b, b, 1, 2, revision);
            Good(if revision == 0 then Materialize(s', cfg, o).0 else AbandonClaim(s', cfg, o).0, cfg, clean)
  {
    hide Good, Materialize, AbandonClaim;
    AcceptKeeps(s, scope, b, revision, cfg, clean);
    if revision == 0 {
      MaterializeKeeps(Accept(s, scope, b, b, 1, 2, revision), cfg, o, clean);
    } else {
      AbandonClaimKeeps(Accept(s, scope, b, b, 1, 2, revision), cfg, o, clean);
    }
  }

  lemma ClaimKeeps(s: State, cfg: Config, snapshot: Snapshot, b: Binding, offered: nat, o: Oracle, clean: bool)
    requires Good(s, cfg, clean) && s.active.None?
    ensures Good(Claim(s, cfg, snapshot, b, offered, o).0, cfg, clean)
  {
    hide Good, Materialize, AbandonClaim, Accept, AttemptMatchesSnapshot;
    TickKeeps(s, cfg, clean);
    TickKeeps(Tick(s), cfg, clean);
    var s2 := Tick(Tick(s));
    var a := o(Now(Tick(s)));
    AcceptAndGoOn(s2, cfg, snapshot.scope, b, 0, o, clean);
    if a.frame.Some? && a.frame.value.body.Cancel? {
      AcceptAndGoOn(s2, cfg, snapshot.scope, b, a.frame.value.body.revision, o, clean);
    }
  }

  lemma NextKeeps(s: State, cfg: Config, o: Oracle, clean: bool)
    requires Good(s, cfg, clean)
    ensures Good(Next(s, cfg, o).0, cfg, clean)
  {
    hide Claim, Good;
    TickKeeps(s, cfg, clean);
    TickKeeps(Tick(s), cfg, clean);
    var s2 := Tick(Tick(s));
    TickKeeps(s2, cfg, clean);
    var ready, a := o(Now(s)), o(Now(Tick(s)));
    if s.active.None? && a.frame.Some? && a.frame.value.body.LeaseOffer? {
      ClaimKeeps(s2, cfg, ready.snapshot, a.frame.value.body.binding, a.frame.value.body.sequence, o, clean);
    }
  }

  lemma CancelSeenKeeps(s: State, revision: nat, cfg: Config, clean: bool)
    requires Good(s, cfg, clean) && s.active.Some? && s.active.value.cancelRevision == 0 && revision != 0
    ensures var active := s.active.value;
            var e := CancelSeen(Current(s), active.nextPlatform, active.binding);
            var cancelled := active.(cancelRevision := revision, nextPlatform := active.nextPlatform + 1);
            var s' := Log(s.(active := Some(cancelled)), e);
            && Good(s', cfg, clean)
            && Count(s'.trace, Current(s), IsAckSent) == 0
            && Count(s'.trace, Current(s), IsCancelSeen) > 0
  {
    hide TraceOk, Receipts.Inv, ReceiptLink;
    var active := s.active.value;
    var e := CancelSeen(Current(s), active.nextPlatform, active.binding);
    CountAppend(s.trace, e);
    MembersAppend(s.trace, e, Current(s), active.binding);
    LogActive(s, e, active.(cancelRevision := revision, nextPlatform := active.nextPlatform + 1), cfg, clean);
  }

  lemma ApplyCancelKeeps(s: State, binding: Binding, sequence: nat, revision: nat, cfg: Config, o: Oracle, clean: bool)
    requires Good(s, cfg, clean) && s.active.Some? && s.active.value.cancelRevision == 0 && revision != 0
    requires sequence == s.active.value.nextPlatform && binding == s.active.value.binding
    ensures Good(ApplyCancel(s, binding, sequence, revision, cfg, o).0, cfg, clean)
  {
    hide AcknowledgeCancel, Good, ActiveAuthority;
    CancelSeenKeeps(s, revision, cfg, clean);
    var active := s.active.value.(cancelRevision := revision, nextPlatform := sequence + 1);
    var s1 := Log(s.(active := Some(active)), CancelSeen(Current(s), sequence, binding));
    TickKeeps(s1, cfg, clean);
    TickKeeps(Tick(s1), cfg, clean);
    var s3 := Tick(Tick(s1));
    GateKeeps(s3, false, cfg, clean);
    var e := LocallyCancelled(Current(s));
    LogMarker(s3, e, cfg, clean);
    AcknowledgeCancelKeeps(Log(s3, e), cfg, o, clean);
  }

  lemma DrainSeenKeeps(s: State, revision: nat, cfg: Config, clean: bool)
    requires Good(s, cfg, clean) && s.active.Some?
    ensures Good(s.(active := Some(s.active.value.(drainRevision := revision))), cfg, clean)
  {
  }

  lemma PollKeeps(s: State, identity: Identity, withDrain: bool, cfg: Config, o: Oracle, clean: bool)
    requires Good(s, cfg, clean)
    ensures Good(Poll(s, identity, withDrain, cfg, o).0, cfg, clean)
  {
    hide ApplyCancel, Good, ActiveAuthority;
    TickKeeps(s, cfg, clean);
    TickKeeps(Tick(s), cfg, clean);
    var s2 := Tick(Tick(s));
    TickKeeps(s2, cfg, clean);
    var a := o(Now(Tick(s)));
    if s.active.Some? && s.active.value.cancelRevision == 0 && a.frame.Some? {
      match a.frame.value.body {
        case Cancel(binding, sequence, revision) =>
          if binding == s.active.value.binding && sequence == s.active.value.nextPlatform && revision != 0 {
            ApplyCancelKeeps(s2, binding, sequence, revision, cfg, o, clean);
          }
        case Drain(revision) => DrainSeenKeeps(Tick(s2), revision, cfg, clean);
        case _ =>
      }
    }
  }

  lemma StepKeeps(s: State, call: Call, cfg: Config, o: Oracle, clean: bool)
    requires Good(s, cfg, clean)
    ensures Good(Step(s, call, cfg, o), cfg, clean)
  {
    hide Good, Next, Poll, CompleteOwned;
    match call
    case NextCall => NextKeeps(s, cfg, o, clean);
    case PollCall(identity, withDrain) => PollKeeps(s, identity, withDrain, cfg, o, clean);
    case CompleteCall(report) => CompleteOwnedKeeps(s, report, cfg, o, clean);
    case LateReturn => GateKeeps(s, true, cfg, clean);
  }

  lemma {:induction false} StepsKeep(journal: Journals.Journal, calls: seq<Call>, cfg: Config, o: Oracle, clean: bool)
    requires clean ==> Receipts.Unacked(journal)
    ensures Good(Steps(Initially(journal), calls, cfg, o), cfg, clean)
    decreases |calls|
  {
    hide Step;
    if calls != [] {
      hide Good;
      StepsKeep(journal, calls[..|calls| - 1], cfg, o, clean);
      StepKeeps(Steps(Initially(journal), calls[..|calls| - 1], cfg, o), calls[|calls| - 1], cfg, o, clean);
    }
  }

  /** For every sequence of calls and every behaviour of the session, the local
      process, the publisher and the disk, each event of the run had its
      preconditions: see EventOk. */
  lemma EveryRunIsOrderly(journal: Journals.Journal, calls: seq<Call>, cfg: Config, o: Oracle)
    ensures TraceOk(Steps(Initially(journal), calls, cfg, o).trace)
  {
    StepsKeep(journal, calls, cfg, o, false);
  }

  /** At most one CancelAck per attempt, over every run. */
  lemma AtMostOneCancelAck(journal: Journals.Journal, calls: seq<Call>, cfg: Config, o: Oracle, i: nat, j: nat)
    requires i < j < |Steps(Initially(journal), calls, cfg, o).trace|
    requires var t := Steps(Initially(journal), calls, cfg, o).trace; t[i].CancelAckSent? && t[j].CancelAckSent?
    ensures var t := Steps(Initially(journal), calls, cfg, o).trace; t[i].n != t[j].n
  {
    StepsKeep(journal, calls, cfg, o, false);
    var t := Steps(Initially(journal), calls, cfg, o).trace;
    assert EventOk(t[..j], t[j]);
    if t[i].n == t[j].n {
      MemberCounts(t[..j], i);
      assert false;
    }
  }

  lemma {:induction false} MemberCounts(t: seq<Event>, i: nat)
    requires i < |t|
    ensures Count(t, t[i].n, KindOf(t[i])) > 0
  {
    if i < |t| - 1 {
      MemberCounts(t[..|t| - 1], i);
    }
  }

  /** Once an attempt has a receipt, all its terminals are the same frame: binding,
      sequences, status and evidence, across all retries. */
  lemma TerminalsAreIdentical(journal: Journals.Journal, calls: seq<Call>, cfg: Config, o: Oracle, i: nat, j: nat)
    requires i < j < |Steps(Initially(journal), calls, cfg, o).trace|
    requires var t := Steps(Initially(journal), calls, cfg, o).trace;
             t[i].TerminalSent? && t[j].TerminalSent? && t[i].n == t[j].n && t[i].inline
    ensures var t := Steps(Initially(journal), calls, cfg, o).trace; t[i].terminal == t[j].terminal
  {
    StepsKeep(journal, calls, cfg, o, false);
    var t := Steps(Initially(journal), calls, cfg, o).trace;
    assert EventOk(t[..j], t[j]);
    assert t[..j][i] == t[i];
  }

  /** The durable acknowledged bit is written only after the platform acknowledged
      a terminal of that attempt, and while the attempt is unfinished its sends
      stay one-shot. */
  lemma AckBitFollowsTerminalAck(journal: Journals.Journal, calls: seq<Call>, cfg: Config, o: Oracle)
    ensures var s := Steps(Initially(journal), calls, cfg, o);
            && (Receipts.Unacked(journal) && !Receipts.Unacked(s.receipt.journal) ==>
                  s.active.Some? && Count(s.trace, Current(s), IsTerminalAck) > 0)
            && Receipts.Prepares(s.receipt.sends) <= 1
            && Receipts.Submits(s.receipt.sends) <= 1
            && Receipts.Reconciles(s.receipt.sends) <= 1
  {
    StepsKeep(journal, calls, cfg, o, Receipts.Unacked(journal));
    hide Steps;
    GoodMeans(Steps(Initially(journal), calls, cfg, o), cfg, Receipts.Unacked(journal));
  }

  lemma GoodMeans(s: State, cfg: Config, clean: bool)
    requires Good(s, cfg, clean)
    ensures clean && !Receipts.Unacked(s.receipt.journal) ==>
              s.active.Some? && Count(s.trace, Current(s), IsTerminalAck) > 0
    ensures Receipts.Prepares(s.receipt.sends) <= 1
    ensures Receipts.Submits(s.receipt.sends) <= 1
    ensures Receipts.Reconciles(s.receipt.sends) <= 1
  {
    hide TraceOk, ActiveLink, History;
  }

  // ---------------------------------------------------------------------------
  // The adapter is not merely safe: a cooperative session completes an attempt

  ghost predicate Answers(a: Answer, cfg: Config, snapshot: Snapshot, b: Binding) {
    && a.snapshot == snapshot && ReadySnapshot(a, cfg) && AttemptMatchesSnapshot(b, snapshot, a.now)
    && a.exchangeOk && a.localOk && !a.late && !a.contextDone
  }

  function FrameOf(snapshot: Snapshot, body: Body): Option<Frame> {
    var scope := snapshot.scope;
    Some(Frame(scope.worker, scope.enrollmentGeneration, scope.connectionGeneration, true, body))
  }

  /** An offer, its acceptance and local success lead to exactly one hand-out. */
  lemma OfferIsHandedOut(s: State, cfg: Config, o: Oracle, snapshot: Snapshot, b: Binding)
    requires s.active.None? && s.gateFree && IdentityValid(IdentityOf(snapshot.scope, b))
    requires forall k | Now(s) <= k <= Now(s) + 6 :: Answers(o(k), cfg, snapshot, b)
    requires o(Now(s) + 1).frame == FrameOf(snapshot, LeaseOffer(b, 1))
    requires o(Now(s) + 3).frame == FrameOf(snapshot, LeaseAccepted(b, 2))
    ensures var (s', reply) := Next(s, cfg, o);
            && reply == Invocation(IdentityOf(snapshot.scope, b))
            && s'.active == Some(Active(snapshot.scope, b, IdentityOf(snapshot.scope, b), 2, 3, 0, false, 0))
            && s'.trace == s.trace + [Accepted(s.attempts, b, b, 1, 1, 2, false)] + [HandedOut(s.attempts)]
            && Now(s') == Now(s) + 7
  {
    hide CompleteOwned;
    var id, n := IdentityOf(snapshot.scope, b), Now(s);
    var s2 := Tick(Tick(s));
    var accepted := Accept(Tick(Tick(s2)), snapshot.scope, b, b, 1, 2, 0);
    assert Answers(o(n), cfg, snapshot, b) && Answers(o(n + 1), cfg, snapshot, b);
    assert Answers(o(n + 2), cfg, snapshot, b) && Answers(o(n + 3), cfg, snapshot, b);
    assert Next(s, cfg, o) == Claim(s2, cfg, snapshot, b, 1, o);
    assert Claim(s2, cfg, snapshot, b, 1, o) == Materialize(accepted, cfg, o);
    assert Answers(o(n + 4), cfg, snapshot, b) && Answers(o(n + 5), cfg, snapshot, b);
    assert Answers(o(n + 6), cfg, snapshot, b);
  }

  /** From `from` on local writes succeed and the platform takes every frame silently. */
  ghost predicate Smooth(o: Oracle, from: nat) {
    forall k | from <= k ::
      o(k).localOk && o(k).encodeOk && o(k).io.Synced? && o(k).exchangeOk && o(k).frame.None?
  }

  /** A receipt that the acknowledgement can still retire. */
  ghost predicate Retirable(w: Receipts.World) {
    w.attempt.Some? ==> Receipts.Live(w, false) && w.attempt.value.checkpoint.progress.canonical != ""
  }

  lemma RetirableLater(w: Receipts.World)
    requires Retirable(w)
    ensures Retirable(w.(tick := w.tick + 1))
  {
  }

  lemma RetireSucceeds(s: State, status: Status, cfg: Config, o: Oracle)
    requires Retirable(s.receipt) && Smooth(o, Now(s))
    ensures var (s', retired) := RetireReceipts(s, status, cfg, o);
            retired && s'.active == s.active && s'.trace == s.trace && s'.gateFree == s.gateFree && Now(s') >= Now(s)
  {
    hide Receipts.Acknowledge, Receipts.SendsOk;
    var v1 := cfg.receipts && !(cfg.inline && status.Succeeded?);
    var s1 := if v1 then Tick(s) else s;
    if s1.receipt.attempt.Some? {
      Receipts.AcknowledgeSucceeds(s1.receipt, o, false);
    }
  }

  lemma DrainSucceeds(s: State, o: Oracle)
    requires s.active.Some? && Smooth(o, Now(s))
    ensures var (s', drained) := SendDrained(s, o);
            && drained && s'.gateFree == s.gateFree && Now(s') >= Now(s)
            && s'.trace == s.trace + if s.active.value.drainRevision == 0 then [] else [DrainedSent(Current(s))]
  {
  }

  /** The rest of a completion succeeds once its terminal is acknowledged exactly. */
  lemma ConcludeSucceeds(s: State, report: Report, status: Status, evidence: string, cfg: Config, o: Oracle)
    requires s.active.Some? && Retirable(s.receipt) && Smooth(o, Now(s) + 1)
    requires AttemptPayloadValid(s.active.value.binding, s.active.value.nextPlatform)
    requires var active, a := s.active.value, o(Now(s));
             && a.exchangeOk
             && a.frame == FrameOf(a.snapshot, TerminalAck(active.binding, active.nextPlatform, 1, status,
                                                           ResultOf(status), evidence))
    ensures var (s', reply) := Conclude(s, report, status, evidence, cfg, o);
            && reply == Completed && s'.active.None? && s'.last == Some(report.Fingerprint())
            && s'.gateFree == s.gateFree
            && |s'.trace| == |s.trace| + 2 + (if s.active.value.drainRevision == 0 then 0 else 1)
            && s'.trace[|s.trace|].TerminalSent? && s'.trace[|s.trace| + 1].TerminalAckSeen?
            && (s.active.value.drainRevision != 0 ==> s'.trace[|s.trace| + 2].DrainedSent?)
  {
    hide RetireReceipts, SendDrained, Retirable;
    var active := s.active.value;
    var t := Terminal(active.binding, active.nextWorker, 1, status, ResultOf(status), evidence);
    var (s1, acked) := SendTerminal(s, t, o);
    assert acked;
    RetirableLater(s.receipt);
    RetireSucceeds(s1, status, cfg, o);
    var (s2, retired) := RetireReceipts(s1, status, cfg, o);
    DrainSucceeds(s2, o);
  }

  /** Under every composition and whatever cancel or drain came before: an authorized
      completion whose terminal is acknowledged exactly, with the local steps succeeding
      afterwards, completes the attempt, acknowledges a pending drain, frees the adapter, and
      repeating it succeeds without any effect. */
  lemma TerminalCompletes(s: State, cfg: Config, o: Oracle, report: Report, evidence: string)
    requires s.active.Some? && s.gateFree && report.result.wellFormed && OwnsAttempt(s.active.value, report.identity)
    requires MayComplete(s.active.value, s.receipt.attempt, report.Fingerprint(), cfg, o(Now(s)))
    requires var active := s.active.value;
             var status := Classify(active.cancelRevision, report.result, report.runFailed);
             var (s1, known) := Evidence(Tick(s), report, status, cfg, o);
             && known == Known(evidence) && Retirable(s1.receipt) && Smooth(o, Now(s1) + 1)
             && AttemptPayloadValid(active.binding, active.nextPlatform)
             && var a := o(Now(s1));
             && a.exchangeOk
             && a.frame == FrameOf(a.snapshot, TerminalAck(active.binding, active.nextPlatform, 1, status,
                                                           ResultOf(status), evidence))
    ensures var (s', reply) := Complete(s, report, cfg, o);
            && reply == Completed && s'.active.None? && s'.last == Some(report.Fingerprint())
            && |s'.trace| == |s.trace| + 2 + (if s.active.value.drainRevision == 0 then 0 else 1)
            && s'.trace[|s.trace|].TerminalSent? && s'.trace[|s.trace| + 1].TerminalAckSeen?
            && (s.active.value.drainRevision != 0 ==> s'.trace[|s.trace| + 2].DrainedSent?)
            && Complete(s', report, cfg, o) == (s', Completed)
  {
    hide Receipts.Publish, Conclude, MayComplete, Classify, Retirable, Smooth, AttemptPayloadValid;
    var status := Classify(s.active.value.cancelRevision, report.result, report.runFailed);
    var (s1, known) := Evidence(Tick(s), report, status, cfg, o);
    ConcludeSucceeds(s1, report, status, evidence, cfg, o);
  }
}
