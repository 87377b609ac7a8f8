/** Every run of the local store: any operations, any file faults, any crashes. */
module LocalRuns {
  import opened Base
  import opened LocalRecords
  import opened LocalStore

  datatype Call =
    | InitializeCall(manifest: Manifest, secret: Secret)
    | UpdateCall(expected: nat, manifest: Manifest, secret: Secret)
    | LoadCall
    | LoadSecretCall
    | ObserveCall(observation: Observation)
    | RetireObservationCall(expected: nat)
    | ReconnectCall(expected: nat, reconnect: Reconnect)
    | RetireReconnectCall(expected: nat)
    | SealCall(receipt: Receipt)
    | AdvanceCall(before: Receipt, after: Receipt)
    | RetireCall(receipt: Receipt)
    | LogoutCall(request: Request, requestedAt: nat, committedAt: nat)

  /** An operation whose locks were taken, or a crash that leaves `files`. Whether a
      lock could be released only changes what the caller is told. */
  datatype Event = Op(call: Call, faults: Faults) | Crash(files: Files, temp: bool)

  /** A manifest and the secret written for it by one Initialize or Update. */
  datatype Pair = Pair(manifest: Manifest, secret: Secret)

  /** `commits` lists the pairs that passed every check and began to be written,
      `served` the pairs that successful active loads read. */
  datatype World = World(disk: Disk, commits: seq<Pair>, served: seq<Pair>)

  const START: World := World(Disk([NO_FILES], false), [], [])

  function DiskAfter(d: Disk, call: Call, faults: Faults): Disk {
    match call
    case InitializeCall(m, s) => Initialize(d, m, s, faults).0
    case UpdateCall(expected, m, s) => Update(d, expected, m, s, faults).0
    case LoadCall => d
    case LoadSecretCall => d
    case ObserveCall(o) => PersistObservation(d, o, faults(0)).0
    case RetireObservationCall(expected) => RetireObservation(d, expected, faults(0)).0
    case ReconnectCall(expected, c) => PersistReconnect(d, expected, c, faults(0)).0
    case RetireReconnectCall(expected) => RetireReconnect(d, expected, faults(0)).0
    case SealCall(x) => SealReceipt(d, x, faults(0)).0
    case AdvanceCall(before, after) => AdvanceReceipt(d, before, after, faults(0)).disk
    case RetireCall(x) => RetireReceipt(d, x, faults(0)).0
    case LogoutCall(r, requestedAt, committedAt) => Logout(d, r, requestedAt, committedAt, faults).0
  }

  predicate BeginsCommit(d: Disk, call: Call) {
    match call
    case InitializeCall(m, s) => InitialRecords(m, s) && !d.temp && d.Visible() == NO_FILES
    case UpdateCall(expected, m, s) => UpdateRefusal(d, expected, m, s).None?
    case _ => false
  }

  predicate Serves(d: Disk, call: Call) {
    match call
    case LoadCall => LoadConsistent(d).Loaded? && LoadConsistent(d).manifest.lifecycle.Active?
    case LoadSecretCall => LoadSecret(d).SecretLoaded?
    case _ => false
  }

  function Do(w: World, call: Call, faults: Faults): World {
    World(DiskAfter(w.disk, call, faults),
          if BeginsCommit(w.disk, call) then w.commits + [Pair(call.manifest, call.secret)] else w.commits,
          if Serves(w.disk, call) then w.served + [Pair(w.disk.Visible().manifest.value, w.disk.Visible().secret.value)]
          else w.served)
  }

  function Step(w: World, e: Event): World {
    match e
    case Op(call, faults) => Do(w, call, faults)
    case Crash(f, temp) => w.(disk := Disk([f], temp))
  }

  /** A crash may leave any mixture of the contents since the last successful sync. */
  ghost predicate Possible(w: World, e: Event) {
    e.Crash? ==> Mixture(w.disk.history, e.files)
  }

  function Steps(w: World, events: seq<Event>): World
    decreases |events|
  {
    if events == [] then w
    else Step(Steps(w, events[..|events| - 1]), events[|events| - 1])
  }

  /** Every crash of the run leaves something that a crash at that point may leave. */
  ghost predicate Legal(w: World, events: seq<Event>)
    decreases |events|
  {
    events == [] ||
    (&& Legal(w, events[..|events| - 1])
     && Possible(Steps(w, events[..|events| - 1]), events[|events| - 1]))
  }

  // ---------------------------------------------------------------------------
  // The invariant of manifests and secrets

  ghost predicate IsActive(m: Option<Manifest>) {
    m.Some? && m.value.lifecycle.Active?
  }

  /** No secret is older than an active manifest that a crash may leave, nor than any
      revision already served, and a matching pair comes from one commit. */
  ghost predicate PairOk(f: Files, g: Files, floor: nat, commits: seq<Pair>) {
    && (g.secret.Some? ==> floor <= g.secret.value.revision)
    && (IsActive(f.manifest) && g.secret.Some? ==>
          && f.manifest.value.revision <= g.secret.value.revision
          && (SecretValid(g.secret.value, f.manifest.value) ==> Pair(f.manifest.value, g.secret.value) in commits))
    && (g.manifest.None? ==> floor <= 1 && (IsActive(f.manifest) ==> f.manifest.value.revision <= 1))
  }

  /** Manifests never go back below the visible one. */
  ghost predicate Below(f: Files, g: Files) {
    f.manifest.Some? ==> g.manifest.Some? && f.manifest.value.revision <= g.manifest.value.revision
  }

  ghost predicate DiskOk(h: seq<Files>, floor: nat, commits: seq<Pair>) {
    && h != []
    && (forall i | 0 <= i < |h| :: Below(h[i], h[|h| - 1]))
    && (forall i, j | 0 <= i < |h| && 0 <= j < |h| :: PairOk(h[i], h[j], floor, commits))
  }

  function Floor(served: seq<Pair>): nat {
    if served == [] then 0 else served[|served| - 1].manifest.revision
  }

  ghost predicate Inv(w: World) {
    && DiskOk(w.disk.history, Floor(w.served), w.commits)
    && (forall k | 0 <= k < |w.served| :: w.served[k] in w.commits)
    && (forall i, j | 0 <= i <= j < |w.served| :: w.served[i].manifest.revision <= w.served[j].manifest.revision)
  }

  /** The next directory content fits beside every content a crash may leave. */
  ghost predicate Fits(h: seq<Files>, next: Files, floor: nat, commits: seq<Pair>) {
    && PairOk(next, next, floor, commits)
    && (forall i | 0 <= i < |h| ::
          Below(h[i], next) && PairOk(h[i], next, floor, commits) && PairOk(next, h[i], floor, commits))
  }

  lemma WriteKeeps(d: Disk, next: Files, fault: Fault, floor: nat, commits: seq<Pair>)
    requires DiskOk(d.history, floor, commits) && Fits(d.history, next, floor, commits)
    ensures DiskOk(WriteAtomic(d, next, fault).0.history, floor, commits)
    ensures DiskOk(RemoveDurable(d, next, fault).0.history, floor, commits)
  {
    hide PairOk;
  }

  /** Changing any other file is always safe. */
  lemma OtherFilesFit(h: seq<Files>, next: Files, floor: nat, commits: seq<Pair>)
    requires DiskOk(h, floor, commits)
    requires next.manifest == h[|h| - 1].manifest
    requires next.secret == h[|h| - 1].secret || next.secret == None
    ensures Fits(h, next, floor, commits)
  {
    var last := h[|h| - 1];
    assert PairOk(last, last, floor, commits);
    forall i | 0 <= i < |h|
      ensures Below(h[i], next) && PairOk(h[i], next, floor, commits) && PairOk(next, h[i], floor, commits)
    {
      assert PairOk(h[i], last, floor, commits) && PairOk(last, h[i], floor, commits);
    }
  }

  lemma OtherFileKeeps(d: Disk, next: Files, fault: Fault, floor: nat, commits: seq<Pair>)
    requires DiskOk(d.history, floor, commits)
    requires next.manifest == d.Visible().manifest
    requires next.secret == d.Visible().secret || next.secret == None
    ensures DiskOk(WriteAtomic(d, next, fault).0.history, floor, commits)
    ensures DiskOk(RemoveDurable(d, next, fault).0.history, floor, commits)
  {
    OtherFilesFit(d.history, next, floor, commits);
    WriteKeeps(d, next, fault, floor, commits);
  }

  /** More commits only weaken what a matching pair must be. */
  lemma MoreCommits(h: seq<Files>, floor: nat, commits: seq<Pair>, p: Pair)
    requires DiskOk(h, floor, commits)
    ensures DiskOk(h, floor, commits + [p])
  {
    forall i, j | 0 <= i < |h| && 0 <= j < |h|
      ensures PairOk(h[i], h[j], floor, commits + [p])
    {
      assert PairOk(h[i], h[j], floor, commits);
    }
  }

  /** A fresh secret is newer than every manifest, so it matches none of them; once
      it is durable its manifest can match nothing else. */
  lemma CommitKeeps(d: Disk, m: Manifest, s: Secret, fault0: Fault, fault1: Fault, floor: nat, commits: seq<Pair>)
    requires DiskOk(d.history, floor, commits)
    requires SecretValid(s, m) && Pair(m, s) in commits && floor <= m.revision
    requires match d.Visible().manifest
             case None => m.revision == 1
             case Some(current) => m.revision == current.revision + 1
    ensures DiskOk(Commit(d, m, s, fault0, fault1).0.history, floor, commits)
  {
    var h := d.history;
    var last := d.Visible();
    var next := last.(secret := Some(s));
    forall i | 0 <= i < |h|
      ensures Below(h[i], next) && PairOk(h[i], next, floor, commits) && PairOk(next, h[i], floor, commits)
    {
      assert Below(h[i], last);
      assert PairOk(h[i], last, floor, commits) && PairOk(last, h[i], floor, commits);
    }
    WriteKeeps(d, next, fault0, floor, commits);
    if fault0.Done? {
      var d1 := WriteAtomic(d, next, fault0).0;
      assert d1.history == [next];
      var final := next.(manifest := Some(m));
      assert Fits(d1.history, final, floor, commits);
      WriteKeeps(d1, final, fault1, floor, commits);
    }
  }

  lemma UpdateKeeps(w: World, expected: nat, m: Manifest, s: Secret, faults: Faults)
    requires Inv(w) && UpdateRefusal(w.disk, expected, m, s).None?
    ensures DiskOk(Update(w.disk, expected, m, s, faults).0.history, Floor(w.served), w.commits + [Pair(m, s)])
  {
    hide PairOk;
    var d, floor, commits := w.disk, Floor(w.served), w.commits + [Pair(m, s)];
    MoreCommits(d.history, floor, w.commits, Pair(m, s));
    ConsistentPair(w);
    OtherFileKeeps(d, d.Visible().(reconnect := None), faults(0), floor, commits);
    var (d1, failed1) := RemoveDurable(d, d.Visible().(reconnect := None), faults(0));
    if failed1.None? {
      OtherFileKeeps(d1, d1.Visible().(observation := None), faults(1), floor, commits);
      var (d2, failed2) := RemoveDurable(d1, d1.Visible().(observation := None), faults(1));
      if failed2.None? {
        assert d2.Visible().manifest == d.Visible().manifest;
        CommitKeeps(d2, m, s, faults(2), faults(3), floor, commits);
      }
    }
  }

  /** A consistent active directory holds one commit's pair, at or above the floor. */
  lemma ConsistentPair(w: World)
    requires Inv(w)
    ensures var f := w.disk.Visible();
            f.manifest.Some? && f.secret.Some? && SecretValid(f.secret.value, f.manifest.value) ==>
              && Pair(f.manifest.value, f.secret.value) in w.commits
              && Floor(w.served) <= f.manifest.value.revision
  {
    var h := w.disk.history;
    assert PairOk(h[|h| - 1], h[|h| - 1], Floor(w.served), w.commits);
  }

  /** After serving the visible pair, no content that a crash may leave is older. */
  lemma ServeKeeps(w: World)
    requires Inv(w)
    requires var f := w.disk.Visible();
             f.manifest.Some? && f.secret.Some? && SecretValid(f.secret.value, f.manifest.value)
    ensures var f := w.disk.Visible();
            Inv(w.(served := w.served + [Pair(f.manifest.value, f.secret.value)]))
  {
    ConsistentPair(w);
    var h, last := w.disk.history, w.disk.Visible();
    forall i, j | 0 <= i < |h| && 0 <= j < |h|
      ensures PairOk(h[i], h[j], last.manifest.value.revision, w.commits)
    {
      assert PairOk(h[i], h[j], Floor(w.served), w.commits);
      assert PairOk(last, h[j], Floor(w.served), w.commits);
    }
  }

  lemma LogoutManifestFits(d: Disk, m: Manifest, floor: nat, commits: seq<Pair>)
    requires DiskOk(d.history, floor, commits) && m.lifecycle.LoggedOut?
    requires d.Visible().manifest.Some? && d.Visible().manifest.value.revision <= m.revision
    ensures Fits(d.history, d.Visible().(manifest := Some(m)), floor, commits)
  {
    var h, last := d.history, d.Visible();
    var next := last.(manifest := Some(m));
    assert PairOk(last, last, floor, commits);
    forall i | 0 <= i < |h|
      ensures Below(h[i], next) && PairOk(h[i], next, floor, commits) && PairOk(next, h[i], floor, commits)
    {
      assert Below(h[i], last);
      assert PairOk(h[i], last, floor, commits) && PairOk(last, h[i], floor, commits);
    }
  }

  lemma RemoveEvidenceKeeps(d: Disk, faults: Faults, floor: nat, commits: seq<Pair>)
    requires DiskOk(d.history, floor, commits)
    ensures var d' := RemoveEvidence(d, faults).0;
            DiskOk(d'.history, floor, commits) && d'.Visible().manifest == d.Visible().manifest
  {
    hide DiskOk, WriteAtomic;
    OtherFileKeeps(d, d.Visible().(observation := None), faults(1), floor, commits);
    var d1 := RemoveDurable(d, d.Visible().(observation := None), faults(1)).0;
    OtherFileKeeps(d1, d1.Visible().(reconnect := None), faults(2), floor, commits);
  }

  lemma RemoveHoldingsKeeps(d: Disk, faults: Faults, floor: nat, commits: seq<Pair>)
    requires DiskOk(d.history, floor, commits)
    ensures var d' := RemoveHoldings(d, faults).0;
            DiskOk(d'.history, floor, commits) && d'.Visible().manifest == d.Visible().manifest
  {
    RemoveEvidenceKeeps(d, faults, floor, commits);
    hide DiskOk, WriteAtomic, RemoveEvidence;
    var d1 := RemoveEvidence(d, faults).0;
    OtherFileKeeps(d1, d1.Visible().(receipt := None), faults(3), floor, commits);
    var d2 := RemoveDurable(d1, d1.Visible().(receipt := None), faults(3)).0;
    OtherFileKeeps(d2, d2.Visible().(secret := None), faults(4), floor, commits);
  }

  lemma FinishLogoutKeeps(d: Disk, m: Manifest, i: Intent, r: Request, committedAt: nat, faults: Faults, floor: nat,
                          commits: seq<Pair>)
    requires DiskOk(d.history, floor, commits)
    requires d.Visible().manifest == Some(m) && m.revision <= i.nextRevision
    ensures DiskOk(FinishLogout(d, m, i, r, committedAt, faults).0.history, floor, commits)
  {
    hide PairOk, RemoveHoldings;
    RemoveHoldingsKeeps(d, faults, floor, commits);
    var (d1, failed) := RemoveHoldings(d, faults);
    if failed.None? && committedAt >= i.requestedAt {
      var next := LoggedOutManifest(m, i, committedAt);
      LogoutManifestFits(d1, next, floor, commits);
      WriteKeeps(d1, d1.Visible().(manifest := Some(next)), faults(5), floor, commits);
      var d2 := WriteAtomic(d1, d1.Visible().(manifest := Some(next)), faults(5)).0;
      OtherFileKeeps(d2, d2.Visible().(intent := None), faults(6), floor, commits);
    }
  }

  lemma LogoutKeeps(d: Disk, r: Request, requestedAt: nat, committedAt: nat, faults: Faults, floor: nat,
                    commits: seq<Pair>)
    requires DiskOk(d.history, floor, commits)
    ensures DiskOk(Logout(d, r, requestedAt, committedAt, faults).0.history, floor, commits)
  {
    hide PairOk, FinishLogout, LoadConsistent;
    if LogoutRefusal(d, r).None? {
      var f := d.Visible();
      var m := f.manifest.value;
      OtherFileKeeps(d, f.(intent := None), faults(6), floor, commits);
      if m.revision == r.expectedRevision && m.revision != MAX_UINT64 {
        if f.intent.Some? {
          if IntentMatches(f.intent.value, m, r) {
            FinishLogoutKeeps(d, m, f.intent.value, r, committedAt, faults, floor, commits);
          }
        } else {
          var i := NewIntent(m, r, requestedAt);
          OtherFileKeeps(d, f.(intent := Some(i)), faults(0), floor, commits);
          var d1 := WriteAtomic(d, f.(intent := Some(i)), faults(0)).0;
          if faults(0).Done? {
            FinishLogoutKeeps(d1, m, i, r, committedAt, faults, floor, commits);
          }
        }
      }
    }
  }

  /** Observations, reconnect checkpoints and receipts change neither manifest nor
      secret, whatever happens to their one file action. */
  lemma SideFilesKeep(d: Disk, call: Call, faults: Faults, floor: nat, commits: seq<Pair>)
    requires DiskOk(d.history, floor, commits)
    requires !call.InitializeCall? && !call.UpdateCall? && !call.LogoutCall?
    ensures DiskOk(DiskAfter(d, call, faults).history, floor, commits)
  {
    hide PairOk, LoadConsistent, ReceiptValid, ReceiptReadable;
    var f := d.Visible();
    match call {
      case ObserveCall(o) => OtherFileKeeps(d, f.(observation := Some(o)), faults(0), floor, commits);
      case RetireObservationCall(_) => OtherFileKeeps(d, f.(observation := None), faults(0), floor, commits);
      case ReconnectCall(_, c) => OtherFileKeeps(d, f.(reconnect := Some(c)), faults(0), floor, commits);
      case RetireReconnectCall(_) => OtherFileKeeps(d, f.(reconnect := None), faults(0), floor, commits);
      case SealCall(x) => OtherFileKeeps(d, f.(receipt := Some(x)), faults(0), floor, commits);
      case AdvanceCall(_, x) => OtherFileKeeps(d, f.(receipt := Some(x)), faults(0), floor, commits);
      case RetireCall(_) => OtherFileKeeps(d, f.(receipt := None), faults(0), floor, commits);
      case _ =>
    }
  }

  lemma InitializeKeeps(w: World, m: Manifest, s: Secret, faults: Faults)
    requires Inv(w) && BeginsCommit(w.disk, InitializeCall(m, s))
    ensures DiskOk(Initialize(w.disk, m, s, faults).0.history, Floor(w.served), w.commits + [Pair(m, s)])
  {
    var d, floor := w.disk, Floor(w.served);
    var last := d.history[|d.history| - 1];
    assert PairOk(last, last, floor, w.commits);
    MoreCommits(d.history, floor, w.commits, Pair(m, s));
    CommitKeeps(d, m, s, faults(0), faults(1), floor, w.commits + [Pair(m, s)]);
  }

  lemma DoKeeps(w: World, call: Call, faults: Faults)
    requires Inv(w)
    ensures Inv(Do(w, call, faults))
  {
    hide PairOk, Initialize, Update, Logout, UpdateRefusal;
    match call {
      case InitializeCall(m, s) =>
        if BeginsCommit(w.disk, call) {
          InitializeKeeps(w, m, s, faults);
        } else {
          assert Initialize(w.disk, m, s, faults).0 == w.disk by { RefusedInitialize(w.disk, m, s, faults); }
        }
      case UpdateCall(expected, m, s) =>
        if BeginsCommit(w.disk, call) {
          UpdateKeeps(w, expected, m, s, faults);
        } else {
          assert Update(w.disk, expected, m, s, faults).0 == w.disk by {
            RefusedUpdate(w.disk, expected, m, s, faults);
          }
        }
      case LogoutCall(r, requestedAt, committedAt) =>
        LogoutKeeps(w.disk, r, requestedAt, committedAt, faults, Floor(w.served), w.commits);
      case LoadCall =>
        if Serves(w.disk, call) {
          ServeKeeps(w);
        }
      case LoadSecretCall =>
        if Serves(w.disk, call) {
          ServeKeeps(w);
        }
      case _ => SideFilesKeep(w.disk, call, faults, Floor(w.served), w.commits);
    }
  }

  lemma RefusedInitialize(d: Disk, m: Manifest, s: Secret, faults: Faults)
    requires !BeginsCommit(d, InitializeCall(m, s))
    ensures Initialize(d, m, s, faults).0 == d
  {
  }

  lemma RefusedUpdate(d: Disk, expected: nat, m: Manifest, s: Secret, faults: Faults)
    requires UpdateRefusal(d, expected, m, s).Some?
    ensures Update(d, expected, m, s, faults).0 == d
  {
  }

  lemma CrashKeeps(w: World, f: Files, temp: bool)
    requires Inv(w) && Mixture(w.disk.history, f)
    ensures Inv(w.(disk := Disk([f], temp)))
  {
    var h, floor := w.disk.history, Floor(w.served);
    var i :| 0 <= i < |h| && h[i].manifest == f.manifest;
    var j :| 0 <= j < |h| && h[j].secret == f.secret;
    assert PairOk(h[i], h[j], floor, w.commits) && PairOk(h[i], h[i], floor, w.commits);
    assert PairOk(f, f, floor, w.commits);
  }

  lemma {:induction false} StepsKeep(w: World, events: seq<Event>)
    requires Inv(w) && Legal(w, events)
    ensures Inv(Steps(w, events))
    decreases |events|
  {
    if events != [] {
      StepsKeep(w, events[..|events| - 1]);
      var before := Steps(w, events[..|events| - 1]);
      match events[|events| - 1] {
        case Op(call, faults) => DoKeeps(before, call, faults);
        case Crash(f, temp) => CrashKeeps(before, f, temp);
      }
    }
  }

  /** Over every run, with faults and reordering crashes anywhere: an active load, or
      a load of the secret, only reads a manifest and a secret of one commit. */
  lemma ServedPairsAreCommits(events: seq<Event>, k: nat)
    requires Legal(START, events) && k < |Steps(START, events).served|
    ensures Steps(START, events).served[k] in Steps(START, events).commits
  {
    StepsKeep(START, events);
  }

  /** ... and the revisions of successive active loads never fall. */
  lemma ServedRevisionsNeverFall(events: seq<Event>, i: nat, j: nat)
    requires Legal(START, events) && i < j < |Steps(START, events).served|
    ensures var served := Steps(START, events).served;
            served[i].manifest.revision <= served[j].manifest.revision
  {
    StepsKeep(START, events);
  }
}
