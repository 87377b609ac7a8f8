/** Sealed receipts over every run of the local store, and the store's receipt file
    as the compare-and-swap journal that the inline protocol relies on. */
module LocalReceipts {
  import opened Base
  import opened InlineCheckpoint
  import opened LocalRecords
  import opened LocalStore
  import opened LocalRuns
  import Journals = InlineJournal

  /** `y` is `x` or, for inline receipts, a later state of the same plan. */
  predicate Continues(y: Receipt, x: Receipt) {
    || y == x
    || (&& x.payload.Inline? && y.payload.Inline? && SameScope(x, y)
        && y.payload.checkpoint.plan == x.payload.checkpoint.plan
        && x.payload.checkpoint.progress.revision < y.payload.checkpoint.progress.revision)
  }

  predicate Holds(f: Files, m: Manifest, s: Secret, x: Receipt) {
    && f.manifest == Some(m) && f.secret == Some(s)
    && f.receipt.Some? && Continues(f.receipt.value, x)
  }

  /** The receipt is sealed: no crash, not even a reordering one, can lose it. */
  ghost predicate Sealed(h: seq<Files>, m: Manifest, s: Secret, x: Receipt) {
    h != [] && forall i | 0 <= i < |h| :: Holds(h[i], m, s, x)
  }

  /** The only events that may take a sealed receipt away: a logout, or a retirement
      that names exactly the visible record, with its acknowledgement recorded if it
      is an inline one. */
  predicate MayRemove(d: Disk, e: Event) {
    e.Op? && match e.call
             case LogoutCall(_, _, _) => true
             case RetireCall(expected) => d.Visible().receipt.Some? && MayRetire(d.Visible().receipt.value, expected)
             case _ => false
  }

  lemma WriteKeepsSealed(d: Disk, next: Files, fault: Fault, m: Manifest, s: Secret, x: Receipt)
    requires Sealed(d.history, m, s, x) && Holds(next, m, s, x)
    ensures Sealed(WriteAtomic(d, next, fault).0.history, m, s, x)
    ensures Sealed(RemoveDurable(d, next, fault).0.history, m, s, x)
  {
  }

  lemma AdvanceKeepsSealed(d: Disk, before: Receipt, after: Receipt, fault: Fault, m: Manifest, s: Secret, x: Receipt)
    requires Sealed(d.history, m, s, x)
    ensures Sealed(AdvanceReceipt(d, before, after, fault).disk.history, m, s, x)
  {
  }

  /** While a receipt file exists no initialization and no update commits or even
      begins, and a seal never overwrites it. */
  lemma ReceiptBlocksCommits(d: Disk, call: Call, faults: Faults)
    requires d.Visible().receipt.Some?
    requires call.InitializeCall? || call.UpdateCall? || call.SealCall?
    ensures !BeginsCommit(d, call) && DiskAfter(d, call, faults) == d
  {
  }

  lemma OpKeepsSealed(d: Disk, call: Call, faults: Faults, m: Manifest, s: Secret, x: Receipt)
    requires Sealed(d.history, m, s, x) && !MayRemove(d, Op(call, faults))
    ensures Sealed(DiskAfter(d, call, faults).history, m, s, x)
  {
    var f := d.Visible();
    assert Holds(f, m, s, x);
    hide LoadConsistent, ReceiptValid, ReceiptReadable, Sealed, WriteAtomic;
    match call {
      case InitializeCall(_, _) => ReceiptBlocksCommits(d, call, faults);
      case UpdateCall(_, _, _) => ReceiptBlocksCommits(d, call, faults);
      case SealCall(_) => ReceiptBlocksCommits(d, call, faults);
      case ObserveCall(o) => WriteKeepsSealed(d, f.(observation := Some(o)), faults(0), m, s, x);
      case RetireObservationCall(_) => WriteKeepsSealed(d, f.(observation := None), faults(0), m, s, x);
      case ReconnectCall(_, c) => WriteKeepsSealed(d, f.(reconnect := Some(c)), faults(0), m, s, x);
      case RetireReconnectCall(_) => WriteKeepsSealed(d, f.(reconnect := None), faults(0), m, s, x);
      case AdvanceCall(before, after) =>
        hide AdvanceReceipt;
        AdvanceKeepsSealed(d, before, after, faults(0), m, s, x);
      case _ =>
    }
  }

  lemma CrashKeepsSealed(h: seq<Files>, f: Files, m: Manifest, s: Secret, x: Receipt)
    requires Sealed(h, m, s, x) && Mixture(h, f)
    ensures Sealed([f], m, s, x)
  {
    var i :| 0 <= i < |h| && h[i].manifest == f.manifest;
    var j :| 0 <= j < |h| && h[j].secret == f.secret;
    var k :| 0 <= k < |h| && h[k].receipt == f.receipt;
    assert Holds(h[i], m, s, x) && Holds(h[j], m, s, x) && Holds(h[k], m, s, x);
  }

  ghost predicate NothingRemoves(w: World, events: seq<Event>)
    decreases |events|
  {
    events == [] ||
    (&& NothingRemoves(w, events[..|events| - 1])
     && !MayRemove(Steps(w, events[..|events| - 1]).disk, events[|events| - 1]))
  }

  /** Over every run of store operations, faults and reordering crashes: a sealed
      receipt stays, under the same manifest and secret and with the same plan, until
      a logout or an exact retirement. */
  lemma {:induction false} SealedUntilRemoved(w: World, events: seq<Event>, m: Manifest, s: Secret, x: Receipt)
    requires Sealed(w.disk.history, m, s, x) && Legal(w, events) && NothingRemoves(w, events)
    ensures Sealed(Steps(w, events).disk.history, m, s, x) && Steps(w, events).commits == w.commits
    decreases |events|
  {
    if events != [] {
      var before := Steps(w, events[..|events| - 1]);
      SealedUntilRemoved(w, events[..|events| - 1], m, s, x);
      assert Holds(before.disk.Visible(), m, s, x);
      match events[|events| - 1] {
        case Crash(f, temp) => CrashKeepsSealed(before.disk.history, f, m, s, x);
        case Op(call, faults) =>
          OpKeepsSealed(before.disk, call, faults, m, s, x);
          if call.InitializeCall? || call.UpdateCall? {
            ReceiptBlocksCommits(before.disk, call, faults);
          }
      }
    }
  }

  // ---------------------------------------------------------------------------
  // Applied advances over every run

  /** No receipt file, or a later state of the same plan. */
  predicate AtLeast(f: Files, c: Checkpoint) {
    f.receipt.Some? ==>
      && f.receipt.value.payload.Inline?
      && f.receipt.value.payload.checkpoint.plan == c.plan
      && c.progress.revision <= f.receipt.value.payload.checkpoint.progress.revision
  }

  ghost predicate AllAtLeast(h: seq<Files>, c: Checkpoint) {
    h != [] && forall i | 0 <= i < |h| :: AtLeast(h[i], c)
  }

  /** The only event that may put another record into the file: a seal that writes. */
  predicate Seals(d: Disk, e: Event) {
    e.Op? && e.call.SealCall? && SealReceipt(d, e.call.receipt, e.faults(0)).0.history != d.history
  }

  ghost predicate NothingSeals(w: World, events: seq<Event>)
    decreases |events|
  {
    events == [] ||
    (&& NothingSeals(w, events[..|events| - 1])
     && !Seals(Steps(w, events[..|events| - 1]).disk, events[|events| - 1]))
  }

  lemma AdvanceStaysAbove(d: Disk, before: Receipt, after: Receipt, fault: Fault, c: Checkpoint)
    requires AllAtLeast(d.history, c)
    ensures AllAtLeast(AdvanceReceipt(d, before, after, fault).disk.history, c)
    ensures AdvanceReceipt(d, before, after, fault).applied ==>
              && after.payload.Inline? && after.payload.checkpoint.plan == c.plan
              && c.progress.revision < after.payload.checkpoint.progress.revision
  {
    assert AtLeast(d.Visible(), c);
  }

  lemma WriteStaysAbove(d: Disk, next: Files, fault: Fault, c: Checkpoint)
    requires AllAtLeast(d.history, c) && (next.receipt == d.Visible().receipt || next.receipt.None?)
    ensures AllAtLeast(WriteAtomic(d, next, fault).0.history, c)
    ensures AllAtLeast(RemoveDurable(d, next, fault).0.history, c)
  {
    assert AtLeast(d.Visible(), c);
  }

  lemma CommitStaysAbove(d: Disk, m: Manifest, s: Secret, fault0: Fault, fault1: Fault, c: Checkpoint)
    requires AllAtLeast(d.history, c)
    ensures AllAtLeast(Commit(d, m, s, fault0, fault1).0.history, c)
  {
    hide AllAtLeast;
    WriteStaysAbove(d, d.Visible().(secret := Some(s)), fault0, c);
    var d1 := WriteAtomic(d, d.Visible().(secret := Some(s)), fault0).0;
    WriteStaysAbove(d1, d1.Visible().(manifest := Some(m)), fault1, c);
  }

  lemma UpdateStaysAbove(d: Disk, expected: nat, m: Manifest, s: Secret, faults: Faults, c: Checkpoint)
    requires AllAtLeast(d.history, c)
    ensures AllAtLeast(Update(d, expected, m, s, faults).0.history, c)
  {
    hide AllAtLeast, UpdateRefusal, Commit, WriteAtomic, RemoveDurable;
    WriteStaysAbove(d, d.Visible().(reconnect := None), faults(0), c);
    var d1 := RemoveDurable(d, d.Visible().(reconnect := None), faults(0)).0;
    WriteStaysAbove(d1, d1.Visible().(observation := None), faults(1), c);
    var d2 := RemoveDurable(d1, d1.Visible().(observation := None), faults(1)).0;
    CommitStaysAbove(d2, m, s, faults(2), faults(3), c);
  }

  lemma RemovalsStayAbove(d: Disk, faults: Faults, c: Checkpoint)
    requires AllAtLeast(d.history, c)
    ensures AllAtLeast(RemoveHoldings(d, faults).0.history, c)
  {
    hide AllAtLeast, WriteAtomic, RemoveDurable;
    WriteStaysAbove(d, d.Visible().(observation := None), faults(1), c);
    var d1 := RemoveDurable(d, d.Visible().(observation := None), faults(1)).0;
    WriteStaysAbove(d1, d1.Visible().(reconnect := None), faults(2), c);
    var d2 := RemoveDurable(d1, d1.Visible().(reconnect := None), faults(2)).0;
    WriteStaysAbove(d2, d2.Visible().(receipt := None), faults(3), c);
    var d3 := RemoveDurable(d2, d2.Visible().(receipt := None), faults(3)).0;
    WriteStaysAbove(d3, d3.Visible().(secret := None), faults(4), c);
    RemovalsInOrder(d, faults);
  }

  /** The removals of a logout end after one of its four steps. */
  lemma RemovalsInOrder(d: Disk, faults: Faults)
    ensures var d1 := RemoveDurable(d, d.Visible().(observation := None), faults(1)).0;
            var d2 := RemoveDurable(d1, d1.Visible().(reconnect := None), faults(2)).0;
            var d3 := RemoveDurable(d2, d2.Visible().(receipt := None), faults(3)).0;
            var d4 := RemoveDurable(d3, d3.Visible().(secret := None), faults(4)).0;
            RemoveHoldings(d, faults).0 in {d1, d2, d3, d4}
  {
    hide RemoveDurable;
  }

  lemma FinishStaysAbove(d: Disk, m: Manifest, i: Intent, r: Request, at: nat, faults: Faults, c: Checkpoint)
    requires AllAtLeast(d.history, c)
    ensures AllAtLeast(FinishLogout(d, m, i, r, at, faults).0.history, c)
  {
    RemovalsStayAbove(d, faults, c);
    hide AllAtLeast, RemoveHoldings, WriteAtomic, RemoveDurable;
    var d1 := RemoveHoldings(d, faults).0;
    var next := d1.Visible().(manifest := Some(LoggedOutManifest(m, i, at)));
    WriteStaysAbove(d1, next, faults(5), c);
    var d2 := WriteAtomic(d1, next, faults(5)).0;
    WriteStaysAbove(d2, d2.Visible().(intent := None), faults(6), c);
  }

  lemma LogoutStaysAbove(d: Disk, r: Request, requestedAt: nat, at: nat, faults: Faults, c: Checkpoint)
    requires AllAtLeast(d.history, c)
    ensures AllAtLeast(Logout(d, r, requestedAt, at, faults).0.history, c)
  {
    hide AllAtLeast, FinishLogout, LoadConsistent, WriteAtomic, RemoveDurable;
    if LogoutRefusal(d, r).None? {
      var f := d.Visible();
      var m := f.manifest.value;
      WriteStaysAbove(d, f.(intent := None), faults(6), c);
      if f.intent.Some? {
        FinishStaysAbove(d, m, f.intent.value, r, at, faults, c);
      } else {
        var i := NewIntent(m, r, requestedAt);
        WriteStaysAbove(d, f.(intent := Some(i)), faults(0), c);
        FinishStaysAbove(WriteAtomic(d, f.(intent := Some(i)), faults(0)).0, m, i, r, at, faults, c);
      }
    }
  }

  lemma OpStaysAbove(d: Disk, call: Call, faults: Faults, c: Checkpoint)
    requires AllAtLeast(d.history, c) && !Seals(d, Op(call, faults))
    ensures AllAtLeast(DiskAfter(d, call, faults).history, c)
  {
    hide AllAtLeast, LoadConsistent, ReceiptValid, ReceiptReadable, WriteAtomic, RemoveDurable, Commit, Update, Logout;
    var f := d.Visible();
    match call {
      case InitializeCall(m, s) => CommitStaysAbove(d, m, s, faults(0), faults(1), c);
      case UpdateCall(expected, m, s) => UpdateStaysAbove(d, expected, m, s, faults, c);
      case LogoutCall(r, requestedAt, at) => LogoutStaysAbove(d, r, requestedAt, at, faults, c);
      case ObserveCall(o) => WriteStaysAbove(d, f.(observation := Some(o)), faults(0), c);
      case RetireObservationCall(_) => WriteStaysAbove(d, f.(observation := None), faults(0), c);
      case ReconnectCall(_, x) => WriteStaysAbove(d, f.(reconnect := Some(x)), faults(0), c);
      case RetireReconnectCall(_) => WriteStaysAbove(d, f.(reconnect := None), faults(0), c);
      case AdvanceCall(before, after) =>
        hide AdvanceReceipt;
        AdvanceStaysAbove(d, before, after, faults(0), c);
      case RetireCall(_) => WriteStaysAbove(d, f.(receipt := None), faults(0), c);
      case _ =>
    }
  }

  lemma {:induction false} RunStaysAbove(w: World, events: seq<Event>, c: Checkpoint)
    requires AllAtLeast(w.disk.history, c) && Legal(w, events) && NothingSeals(w, events)
    ensures AllAtLeast(Steps(w, events).disk.history, c)
    decreases |events|
  {
    if events != [] {
      var before := Steps(w, events[..|events| - 1]);
      RunStaysAbove(w, events[..|events| - 1], c);
      match events[|events| - 1] {
        case Op(call, faults) =>
          hide DiskAfter, AllAtLeast;
            OpStaysAbove(before.disk, call, faults, c);
        case Crash(f, _) => CrashStaysAbove(before.disk.history, f, c);
      }
    }
  }

  lemma CrashStaysAbove(h: seq<Files>, f: Files, c: Checkpoint)
    requires AllAtLeast(h, c) && Mixture(h, f)
    ensures AllAtLeast([f], c)
  {
    var k :| 0 <= k < |h| && h[k].receipt == f.receipt;
    assert AtLeast(h[k], c);
  }

  /** Over every run of the whole store, with any other operations, faults, logouts and
      reordering crashes in between: two advances that were reported as applied, with no
      seal written between them, belong to one plan, and the second has the higher
      revision. So one seal's lifetime applies every revision at most once. */
  lemma AppliedAdvancesRise(w: World, first: Call, faults: Faults, events: seq<Event>, second: Call, fault: Fault)
    requires first.AdvanceCall? && AdvanceReceipt(w.disk, first.before, first.after, faults(0)).applied
    requires var w1 := Do(w, first, faults);
             && Legal(w1, events) && NothingSeals(w1, events) && second.AdvanceCall?
             && AdvanceReceipt(Steps(w1, events).disk, second.before, second.after, fault).applied
    ensures first.after.payload.Inline? && second.after.payload.Inline?
    ensures var a, b := first.after.payload.checkpoint, second.after.payload.checkpoint;
            a.plan == b.plan && a.progress.revision < b.progress.revision
  {
    var w1 := Do(w, first, faults);
    AppliedIsAlone(w.disk, first.before, first.after, faults(0));
    hide Steps, Legal, NothingSeals, AdvanceReceipt;
    var c := first.after.payload.checkpoint;
    RunStaysAbove(w1, events, c);
    AdvanceStaysAbove(Steps(w1, events).disk, second.before, second.after, fault, c);
  }

  lemma AppliedIsAlone(d: Disk, before: Receipt, after: Receipt, fault: Fault)
    requires AdvanceReceipt(d, before, after, fault).applied
    ensures after.payload.Inline?
    ensures AllAtLeast(AdvanceReceipt(d, before, after, fault).disk.history, after.payload.checkpoint)
  {
  }

  /** A seal that wrote its record is sealed at once; a repeat that found its record
      on disk wrote nothing and is sealed exactly when that record already was. */
  lemma SealOutcome(d: Disk, x: Receipt, fault: Fault, m: Manifest, s: Secret)
    requires d.history != [] && SealReceipt(d, x, fault).1.None?
    requires d.Visible().manifest == Some(m) && d.Visible().secret == Some(s)
    ensures var d' := SealReceipt(d, x, fault).0;
            && d'.Visible().receipt == Some(x)
            && (d.Visible().receipt.None? ==> d'.Durable() && Sealed(d'.history, m, s, x))
            && (d.Visible().receipt.Some? ==> d' == d)
  {
  }

  /** A retirement removes the receipt from the visible directory exactly when the
      store is consistent, the record is readable and names the expected payload and
      connection, an inline record has its acknowledgement, and the unlink happened. */
  lemma RetiresExactly(d: Disk, expected: Receipt, fault: Fault)
    requires d.history != [] && d.Visible().receipt.Some?
    ensures RetireReceipt(d, expected, fault).0.Visible().receipt.None? <==>
            && LoadConsistent(d).Loaded?
            && ReceiptValid(expected, LoadConsistent(d).manifest)
            && ReceiptReadable(d.Visible().receipt.value, LoadConsistent(d).manifest)
            && MayRetire(d.Visible().receipt.value, expected)
            && !fault.Untouched?
  {
  }

  // ---------------------------------------------------------------------------
  // The receipt file refines the inline journal

  function RecordOf(x: Option<Receipt>): Option<Checkpoint> {
    if x.Some? && x.value.payload.Inline? then Some(x.value.payload.checkpoint) else None
  }

  /** The journal shows, version by version, the inline records of the directory. */
  ghost predicate Shows(h: seq<Files>, j: Journals.Journal) {
    && |h| == |j.versions| && h != []
    && forall i | 0 <= i < |h| :: j.versions[i].record == RecordOf(h[i].receipt)
  }

  function IoOf(fault: Fault): Journals.Io {
    match fault
    case Done => Journals.Synced
    case Unsynced => Journals.SyncFailed
    case Untouched(_) => Journals.Untouched
  }

  /** The receipt of one inline attempt under the manifest. */
  function Envelope(m: Manifest, c: Checkpoint): Receipt {
    Receipt(m.revision, c.plan.authorization.scope, Inline(c), true)
  }

  predicate InScope(m: Manifest, c: Checkpoint) {
    && Valid(c)
    && c.plan.authorization.scope.tenant == m.installation.tenant
    && c.plan.authorization.scope.owner == m.installation.owner
    && c.plan.authorization.scope.worker == m.installation.worker
    && c.plan.authorization.scope.enrollmentGeneration == m.enrollment
    && c.plan.authorization.scope.connectionGeneration == m.connection
  }

  /** What the consistent store shows: no receipt, or one inline envelope. */
  predicate Ready(d: Disk, m: Manifest) {
    && LoadConsistent(d) == Loaded(m) && m.lifecycle.Active? && ManifestValid(m)
    && (d.Visible().receipt.Some? ==>
          && d.Visible().receipt.value.payload.Inline?
          && InScope(m, d.Visible().receipt.value.payload.checkpoint)
          && d.Visible().receipt.value == Envelope(m, d.Visible().receipt.value.payload.checkpoint))
  }

  lemma WriteShows(d: Disk, next: Files, fault: Fault, j: Journals.Journal, v: Journals.Version)
    requires Shows(d.history, j) && v.record == RecordOf(next.receipt) && next != d.Visible()
    ensures Shows(WriteAtomic(d, next, fault).0.history, j.Write(v, IoOf(fault)))
    ensures Shows(RemoveDurable(d, next, fault).0.history, j.Write(v, IoOf(fault)))
  {
  }

  lemma AdvanceIsValid(after: Checkpoint, before: Checkpoint)
    ensures AdvanceFrom(after, before) ==> Valid(after) && Valid(before) && after.plan == before.plan
  {
  }

  /** The store's advance is the journal's advance: same winner, same failure, and
      the same contents that a crash may bring back. */
  lemma AdvanceRefinesJournal(d: Disk, m: Manifest, j: Journals.Journal, before: Checkpoint, after: Checkpoint,
                              fault: Fault)
    requires Ready(d, m) && Shows(d.history, j) && InScope(m, before) && InScope(m, after)
    ensures var mine := AdvanceReceipt(d, Envelope(m, before), Envelope(m, after), fault);
            var theirs := Journals.Advance(j, before, after, IoOf(fault));
            && mine.applied == theirs.applied
            && mine.error.Some? == theirs.failed
            && Shows(mine.disk.history, theirs.journal)
  {
    hide LoadConsistent, PlanValid, ManifestValid;
    AdvanceIsValid(after, before);
    hide AdvanceFrom, Valid;
    var f := d.Visible();
    assert j.Visible() == RecordOf(f.receipt);
    if AdvanceFrom(after, before) && f.receipt.Some? && f.receipt.value.payload.checkpoint == before &&
       after != before {
      WriteShows(d, f.(receipt := Some(Envelope(m, after))), fault, j, j.Last().(record := Some(after)));
    }
  }

  lemma SealRefinesJournal(d: Disk, m: Manifest, j: Journals.Journal, c: Checkpoint, fault: Fault)
    requires Ready(d, m) && Shows(d.history, j) && InScope(m, c) && c.progress.revision == 1
    ensures var (d', failed) := SealReceipt(d, Envelope(m, c), fault);
            var theirs := Journals.Seal(j, c, IoOf(fault));
            failed.Some? == theirs.failed && Shows(d'.history, theirs.journal)
  {
    hide LoadConsistent, PlanValid, ManifestValid;
    var f := d.Visible();
    assert j.Visible() == RecordOf(f.receipt);
    if f.receipt.None? {
      WriteShows(d, f.(receipt := Some(Envelope(m, c))), fault, j, Journals.Version(j.nextEpoch, Some(c)));
    }
  }

  lemma RetireRefinesJournal(d: Disk, m: Manifest, j: Journals.Journal, c: Checkpoint, fault: Fault)
    requires Ready(d, m) && Shows(d.history, j) && InScope(m, c) && c.progress.terminalAcked
    ensures var (d', failed) := RetireReceipt(d, Envelope(m, c), fault);
            var theirs := Journals.Retire(j, c, IoOf(fault));
            failed.Some? == theirs.failed && Shows(d'.history, theirs.journal)
  {
    hide LoadConsistent, PlanValid, ManifestValid;
    var f := d.Visible();
    assert j.Visible() == RecordOf(f.receipt);
    if f.receipt.Some? && f.receipt.value.payload.checkpoint == c {
      WriteShows(d, f.(receipt := None), fault, j, j.Last().(record := None));
    }
  }
}
