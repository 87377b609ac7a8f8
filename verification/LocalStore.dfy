/** The installation directory and every operation on it.

    A rename or an unlink shows at once; only a successful directory sync makes it
    durable. `history` holds every directory content since the last successful sync,
    oldest first, so its last element is the visible one. */
module LocalStore {
  import opened Base
  import opened InlineCheckpoint
  import opened LocalRecords

  datatype Files = Files(
    manifest: Option<Manifest>,
    secret: Option<Secret>,
    intent: Option<Intent>,
    observation: Option<Observation>,
    reconnect: Option<Reconnect>,
    receipt: Option<Receipt>)

  const NO_FILES: Files := Files(None, None, None, None, None, None)

  /** `temp` says that a temporary file of an interrupted write was left behind. */
  datatype Disk = Disk(history: seq<Files>, temp: bool) {
    function Visible(): Files {
      if history == [] then NO_FILES else history[|history| - 1]
    }

    predicate Durable() {
      |history| == 1
    }
  }

  /** The fate of one file action: durable, visible with a failed directory sync, or
      failed before the change, perhaps leaving a temporary file. A crash right
      after an action is that action followed by a crash of the machine. */
  datatype Fault = Done | Unsynced | Untouched(tempLeft: bool)

  type Faults = nat -> Fault

  datatype Error =
    | InvalidState | StateConflict | StateIncomplete | StateMissing | StateAmbiguous | LocalIo | SecretRetired

  /** One atomic write of one file, as the directory content it produces. */
  function WriteAtomic(d: Disk, next: Files, fault: Fault): (Disk, Option<Error>) {
    match fault
    case Done => (d.(history := [next]), None)
    case Unsynced => (d.(history := d.history + [next]), Some(StateAmbiguous))
    case Untouched(tempLeft) => (d.(temp := d.temp || tempLeft), Some(LocalIo))
  }

  /** A durable removal; removing an absent file touches and syncs nothing. */
  function RemoveDurable(d: Disk, next: Files, fault: Fault): (Disk, Option<Error>) {
    if next == d.Visible() then (d, None)
    else match fault
         case Done => (d.(history := [next]), None)
         case Unsynced => (d.(history := d.history + [next]), Some(StateAmbiguous))
         case Untouched(_) => (d, Some(LocalIo))
  }

  datatype Loaded = Loaded(manifest: Manifest) | NotLoaded(error: Error)

  /** The one consistency gate of every read and every write. */
  function LoadConsistent(d: Disk): Loaded {
    var f := d.Visible();
    if d.temp then NotLoaded(StateIncomplete)
    else if f.manifest.None? then
      NotLoaded(if f.secret.Some? || f.intent.Some? then StateIncomplete else StateMissing)
    else
      var m := f.manifest.value;
      if !ManifestValid(m) then NotLoaded(InvalidState)
      else if f.intent.Some? then NotLoaded(StateIncomplete)
      else if m.lifecycle.LoggedOut? then
        if f.secret.Some? || f.observation.Some? || f.reconnect.Some? then NotLoaded(StateIncomplete)
        else Loaded(m)
      else if f.secret.None? || !SecretValid(f.secret.value, m) then NotLoaded(StateIncomplete)
      else if f.observation.Some? && !ObservationValid(f.observation.value, m) then NotLoaded(StateIncomplete)
      else if f.reconnect.Some? && !ReconnectValid(f.reconnect.value, m) then NotLoaded(StateIncomplete)
      else Loaded(m)
  }

  datatype SecretLoad = SecretLoaded(secret: Secret) | SecretRefused(error: Error)

  function LoadSecret(d: Disk): SecretLoad {
    var f := d.Visible();
    if d.temp then SecretRefused(StateIncomplete)
    else if f.intent.Some? then SecretRefused(SecretRetired)
    else if f.manifest.None? then SecretRefused(StateMissing)
    else if !ManifestValid(f.manifest.value) then SecretRefused(InvalidState)
    else if !f.manifest.value.lifecycle.Active? then SecretRefused(SecretRetired)
    else if f.secret.None? || !SecretValid(f.secret.value, f.manifest.value) then SecretRefused(StateIncomplete)
    else SecretLoaded(f.secret.value)
  }

  // ---------------------------------------------------------------------------
  // Manifest and secret

  predicate InitialRecords(m: Manifest, s: Secret) {
    SecretValid(s, m) && m.revision == 1 && m.createdAt == m.updatedAt
  }

  /** The secret is replaced before the manifest that names it. */
  function Commit(d: Disk, m: Manifest, s: Secret, secretFault: Fault, manifestFault: Fault): (Disk, Option<Error>) {
    var (d1, failed) := WriteAtomic(d, d.Visible().(secret := Some(s)), secretFault);
    if failed.Some? then (d1, failed)
    else WriteAtomic(d1, d1.Visible().(manifest := Some(m)), manifestFault)
  }

  function Initialize(d: Disk, m: Manifest, s: Secret, faults: Faults): (Disk, Option<Error>) {
    if !InitialRecords(m, s) then (d, Some(InvalidState))
    else if d.temp || d.Visible() != NO_FILES then (d, Some(StateConflict))
    else Commit(d, m, s, faults(0), faults(1))
  }

  /** What an update must satisfy against the consistent manifest `current`. */
  predicate MayUpdate(f: Files, current: Manifest, expected: nat, m: Manifest, s: Secret) {
    && current.revision == expected
    && expected != MAX_UINT64
    && m.revision == expected + 1
    && SameInstallation(current, m)
    && m.createdAt == current.createdAt
    && current.updatedAt < m.updatedAt
    && SameOrNext(current.enrollment, m.enrollment)
    && SameOrNext(current.connection, m.connection)
    && f.secret.Some?
    && SecretValid(f.secret.value, current)
    && GenerationSecretChange(current.enrollment, m.enrollment, f.secret.value.identityKey, s.identityKey)
    && GenerationSecretChange(current.connection, m.connection, f.secret.value.connectionSecret, s.connectionSecret)
  }

  /** Why an update is refused before it touches a file, if it is. */
  function UpdateRefusal(d: Disk, expected: nat, m: Manifest, s: Secret): Option<Error> {
    var consistent := LoadConsistent(d);
    if !SecretValid(s, m) then Some(InvalidState)
    else if consistent.NotLoaded? then Some(consistent.error)
    else if !MayUpdate(d.Visible(), consistent.manifest, expected, m, s) then Some(StateConflict)
    else match d.Visible().receipt
         case None => None
         case Some(x) => Some(if ReceiptReadable(x, consistent.manifest) then StateConflict else InvalidState)
  }

  function Update(d: Disk, expected: nat, m: Manifest, s: Secret, faults: Faults): (Disk, Option<Error>) {
    var refusal := UpdateRefusal(d, expected, m, s);
    if refusal.Some? then (d, refusal)
    else
      var (d1, failed) := RemoveDurable(d, d.Visible().(reconnect := None), faults(0));
      if failed.Some? then (d1, failed)
      else
        var (d2, failed) := RemoveDurable(d1, d1.Visible().(observation := None), faults(1));
        if failed.Some? then (d2, failed)
        else Commit(d2, m, s, faults(2), faults(3))
  }

  // ---------------------------------------------------------------------------
  // Observations and reconnect checkpoints

  predicate Follows(prior: Option<Observation>, o: Observation, m: Manifest) {
    match prior
    case None => o.revision == 1
    case Some(current) =>
      && ObservationValid(current, m)
      && current.revision != MAX_UINT64
      && o.revision == current.revision + 1
      && current.observedAt <= o.observedAt
      && current.accepted <= o.accepted
      && current.completed <= o.completed
      && current.failed <= o.failed
  }

  function PersistObservation(d: Disk, o: Observation, fault: Fault): (Disk, Option<Error>) {
    var consistent := LoadConsistent(d);
    if consistent.NotLoaded? then (d, Some(consistent.error))
    else if !ObservationValid(o, consistent.manifest) then (d, Some(InvalidState))
    else if !Follows(d.Visible().observation, o, consistent.manifest) then (d, Some(StateConflict))
    else WriteAtomic(d, d.Visible().(observation := Some(o)), fault)
  }

  function RetireObservation(d: Disk, expected: nat, fault: Fault): (Disk, Option<Error>) {
    if expected == 0 then (d, Some(InvalidState))
    else if LoadConsistent(d).NotLoaded? then (d, Some(LoadConsistent(d).error))
    else match d.Visible().observation
         case None => (d, None)
         case Some(current) =>
           if current.revision != expected then (d, Some(StateConflict))
           else RemoveDurable(d, d.Visible().(observation := None), fault)
  }

  function PersistReconnect(d: Disk, expected: nat, c: Reconnect, fault: Fault): (Disk, Option<Error>) {
    var current := d.Visible().reconnect;
    if LoadConsistent(d).NotLoaded? then (d, Some(LoadConsistent(d).error))
    else if expected == MAX_UINT64 || !ReconnectValid(c, LoadConsistent(d).manifest) || c.revision != expected + 1
    then (d, Some(StateConflict))
    else if current.Some? != (expected != 0) || (current.Some? && current.value.revision != expected)
      then (d, Some(StateConflict))
      else WriteAtomic(d, d.Visible().(reconnect := Some(c)), fault)
  }

  function RetireReconnect(d: Disk, expected: nat, fault: Fault): (Disk, Option<Error>) {
    if LoadConsistent(d).NotLoaded? then (d, Some(LoadConsistent(d).error))
    else match d.Visible().reconnect
         case None => (d, if expected == 0 then None else Some(StateConflict))
         case Some(current) =>
           if current.revision != expected then (d, Some(StateConflict))
           else RemoveDurable(d, d.Visible().(reconnect := None), fault)
  }

  // ---------------------------------------------------------------------------
  // Receipt checkpoints

  /** A stored receipt that decodes and belongs to the manifest. */
  predicate ReceiptReadable(x: Receipt, m: Manifest) {
    ReceiptValid(x, m) && match x.payload
                          case Opaque(_) => true
                          case Inline(_) => InlineRecord(x)
                          case Broken(_) => false
  }

  /** A versioned payload may only be sealed as an initial inline checkpoint. */
  predicate MaySeal(x: Receipt) {
    match x.payload
    case Opaque(_) => true
    case Inline(c) => InlineRecord(x) && c.progress.revision == 1
    case Broken(_) => false
  }

  function SealReceipt(d: Disk, x: Receipt, fault: Fault): (Disk, Option<Error>) {
    var consistent := LoadConsistent(d);
    if consistent.NotLoaded? then (d, Some(consistent.error))
    else if !ReceiptValid(x, consistent.manifest) then (d, Some(InvalidState))
    else match d.Visible().receipt
         case Some(prior) =>
           if !ReceiptReadable(prior, consistent.manifest) then (d, Some(InvalidState))
           else (d, if prior == x then None else Some(StateConflict))
         case None =>
           if !MaySeal(x) then (d, Some(InvalidState))
           else WriteAtomic(d, d.Visible().(receipt := Some(x)), fault)
  }

  predicate SameScope(x: Receipt, y: Receipt) {
    x.manifestRevision == y.manifestRevision && x.scope == y.scope
  }

  predicate MayAdvance(expected: Receipt, next: Receipt)
    requires InlineRecord(expected)
  {
    && InlineRecord(next)
    && AdvanceFrom(next.payload.checkpoint, expected.payload.checkpoint)
    && SameScope(expected, next)
  }

  datatype Advanced = Advanced(disk: Disk, applied: bool, error: Option<Error>)

  /** The compare-and-swap on the receipt file. */
  function AdvanceReceipt(d: Disk, expected: Receipt, next: Receipt, fault: Fault): Advanced {
    var consistent := LoadConsistent(d);
    if !InlineRecord(expected) then Advanced(d, false, Some(InvalidState))
    else if !MayAdvance(expected, next) then Advanced(d, false, Some(StateConflict))
    else if consistent.NotLoaded? then Advanced(d, false, Some(consistent.error))
    else if !ReceiptValid(expected, consistent.manifest) || !ReceiptValid(next, consistent.manifest)
    then Advanced(d, false, Some(InvalidState))
    else match d.Visible().receipt
         case None => Advanced(d, false, Some(StateConflict))
         case Some(prior) =>
           if !ReceiptReadable(prior, consistent.manifest) then Advanced(d, false, Some(InvalidState))
           else if !SameScope(prior, expected) then Advanced(d, false, Some(StateConflict))
           else if prior.payload == next.payload then Advanced(d, false, None)
           else if prior.payload != expected.payload then Advanced(d, false, Some(StateConflict))
           else
             var (d1, failed) := WriteAtomic(d, d.Visible().(receipt := Some(next)), fault);
             Advanced(d1, failed.None?, failed)
  }

  /** What a receipt must be for its exact-match retirement. */
  predicate MayRetire(prior: Receipt, expected: Receipt) {
    && prior.payload == expected.payload
    && prior.scope.connection == expected.scope.connection
    && prior.scope.connectionGeneration == expected.scope.connectionGeneration
    && match prior.payload
       case Opaque(_) => true
       case Inline(c) => c.progress.terminalAcked
       case Broken(_) => false
  }

  function RetireReceipt(d: Disk, expected: Receipt, fault: Fault): (Disk, Option<Error>) {
    var consistent := LoadConsistent(d);
    if consistent.NotLoaded? then (d, Some(consistent.error))
    else if !ReceiptValid(expected, consistent.manifest) then (d, Some(InvalidState))
    else match d.Visible().receipt
         case None => (d, Some(StateConflict))
         case Some(prior) =>
           if !ReceiptReadable(prior, consistent.manifest) then (d, Some(InvalidState))
           else if !MayRetire(prior, expected) then (d, Some(StateConflict))
           else RemoveDurable(d, d.Visible().(receipt := None), fault)
  }

  // ---------------------------------------------------------------------------
  // Logout

  /** One logout request. */
  datatype Request = Request(requestId: string, expectedRevision: nat)

  datatype LogoutReply = LogoutDone(revision: nat, requestId: string) | LogoutFailed(error: Error)

  predicate IntentMatches(i: Intent, m: Manifest, r: Request) {
    && i.expectedRevision == r.expectedRevision
    && i.nextRevision == Succ(r.expectedRevision)
    && i.requestId == r.requestId
    && i.tenant == m.installation.tenant
    && i.owner == m.installation.owner
    && i.worker == m.installation.worker
  }

  function NewIntent(m: Manifest, r: Request, now: nat): Intent {
    Intent(m.revision, Succ(m.revision), r.requestId, now, m.installation.tenant, m.installation.owner,
           m.installation.worker)
  }

  function LoggedOutManifest(m: Manifest, i: Intent, now: nat): Manifest {
    var receipt := LogoutReceipt(i.requestId, i.requestedAt, now);
    m.(revision := i.nextRevision, updatedAt := now, lifecycle := LoggedOut(receipt))
  }

  function ReplyFor(m: Manifest, r: Request, failed: Option<Error>): LogoutReply {
    match failed
    case None => LogoutDone(m.revision, r.requestId)
    case Some(error) => LogoutFailed(error)
  }

  /** A repeat against a manifest that is already logged out. */
  function RepeatLogout(d: Disk, m: Manifest, r: Request, fault: Fault): (Disk, LogoutReply)
    requires m.lifecycle.LoggedOut?
  {
    var f := d.Visible();
    if m.lifecycle.logout.requestId != r.requestId || m.revision != Succ(r.expectedRevision)
    then (d, LogoutFailed(StateConflict))
    else if f.secret.Some? || f.observation.Some? || f.reconnect.Some? then (d, LogoutFailed(StateIncomplete))
      else if f.intent.None? then (d, LogoutDone(m.revision, r.requestId))
      else if !IntentMatches(f.intent.value, m, r) then (d, LogoutFailed(StateConflict))
      else
        var (d1, failed) := RemoveDurable(d, f.(intent := None), fault);
        (d1, ReplyFor(m, r, failed))
  }

  function RemoveEvidence(d: Disk, faults: Faults): (Disk, Option<Error>) {
    var (d1, failed) := RemoveDurable(d, d.Visible().(observation := None), faults(1));
    if failed.Some? then (d1, failed)
    else RemoveDurable(d1, d1.Visible().(reconnect := None), faults(2))
  }

  /** Remove the four files an active installation may hold, in the order of the code. */
  function RemoveHoldings(d: Disk, faults: Faults): (Disk, Option<Error>) {
    var (d1, failed) := RemoveEvidence(d, faults);
    if failed.Some? then (d1, failed)
    else
      var (d2, failed) := RemoveDurable(d1, d1.Visible().(receipt := None), faults(3));
      if failed.Some? then (d2, failed)
      else RemoveDurable(d2, d2.Visible().(secret := None), faults(4))
  }

  /** The part of a logout that follows a present intent. */
  function FinishLogout(d: Disk, m: Manifest, i: Intent, r: Request, committedAt: nat, faults: Faults)
    : (Disk, LogoutReply)
  {
    var f := d.Visible();
    if f.secret.Some? && !SecretValid(f.secret.value, m) then (d, LogoutFailed(StateIncomplete))
    else
      var (d1, failed) := RemoveHoldings(d, faults);
      if failed.Some? then (d1, LogoutFailed(failed.value))
      else if committedAt < i.requestedAt then (d1, LogoutFailed(InvalidState))
      else
        var next := LoggedOutManifest(m, i, committedAt);
        var (d2, failed) := WriteAtomic(d1, d1.Visible().(manifest := Some(next)), faults(5));
        if failed.Some? then (d2, LogoutFailed(failed.value))
        else
          var (d3, failed) := RemoveDurable(d2, d2.Visible().(intent := None), faults(6));
          (d3, ReplyFor(next, r, failed))
  }

  /** Why a logout is refused before it looks at the lifecycle, if it is. */
  function LogoutRefusal(d: Disk, r: Request): (refusal: Option<Error>)
    ensures refusal.None? ==> d.Visible().manifest.Some?
  {
    var f := d.Visible();
    if r.expectedRevision == 0 || !RequestIdValid(r.requestId) then Some(InvalidState)
    else if d.temp then Some(StateIncomplete)
    else if f.manifest.None? then Some(StateMissing)
    else if !ManifestValid(f.manifest.value) then Some(InvalidState)
    else if f.intent.Some? && !IntentValid(f.intent.value) then Some(InvalidState)
    else None
  }

  function Logout(d: Disk, r: Request, requestedAt: nat, committedAt: nat, faults: Faults): (Disk, LogoutReply) {
    var refusal := LogoutRefusal(d, r);
    if refusal.Some? then (d, LogoutFailed(refusal.value))
    else
      var m := d.Visible().manifest.value;
      if m.lifecycle.LoggedOut? then RepeatLogout(d, m, r, faults(6))
      else if m.revision != r.expectedRevision || r.expectedRevision == MAX_UINT64 then (d, LogoutFailed(StateConflict))
      else match d.Visible().intent
           case Some(i) =>
             if !IntentMatches(i, m, r) then (d, LogoutFailed(StateConflict))
             else FinishLogout(d, m, i, r, committedAt, faults)
           case None =>
             if LoadConsistent(d).NotLoaded? then (d, LogoutFailed(LoadConsistent(d).error))
             else
               var i := NewIntent(m, r, requestedAt);
               var (d1, failed) := WriteAtomic(d, d.Visible().(intent := Some(i)), faults(0));
               if failed.Some? then (d1, LogoutFailed(failed.value))
               else FinishLogout(d1, m, i, r, committedAt, faults)
  }

  // ---------------------------------------------------------------------------
  // Crashes

  /** A directory content that a crash may leave when the file system may reorder
      unsynced directory changes: each file on its own is some recent content of it. */
  ghost predicate Mixture(h: seq<Files>, f: Files) {
    && (exists i | 0 <= i < |h| :: h[i].manifest == f.manifest)
    && (exists i | 0 <= i < |h| :: h[i].secret == f.secret)
    && (exists i | 0 <= i < |h| :: h[i].intent == f.intent)
    && (exists i | 0 <= i < |h| :: h[i].observation == f.observation)
    && (exists i | 0 <= i < |h| :: h[i].reconnect == f.reconnect)
    && (exists i | 0 <= i < |h| :: h[i].receipt == f.receipt)
  }

  /** A crash of a file system that keeps the order of directory changes. */
  ghost predicate Prefix(h: seq<Files>, f: Files) {
    exists i | 0 <= i < |h| :: h[i] == f
  }
}
