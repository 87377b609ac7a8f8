/** The shape of every reachable history of the installation directory.

    Every operation changes manifest, secret and intent only by a few kinds of edits.
    A property of histories that these edits keep is kept by every operation. */
module LocalShape {
  import opened Base
  import opened LocalRecords
  import opened LocalStore
  import opened LocalRuns

  predicate Consistent(f: Files) {
    && f.manifest.Some? && f.manifest.value.lifecycle.Active? && f.intent.None?
    && f.secret.Some? && SecretValid(f.secret.value, f.manifest.value)
  }

  predicate SameCore(f: Files, next: Files) {
    next.manifest == f.manifest && next.secret == f.secret && next.intent == f.intent
  }

  /** The secret of the next commit. */
  predicate SecretEdit(f: Files, next: Files) {
    && next.manifest == f.manifest && next.intent == f.intent && f.intent.None? && next.secret.Some?
    && if f.manifest.None? then next.secret.value.revision == 1
       else Consistent(f) && next.secret.value.revision == f.manifest.value.revision + 1
  }

  /** The manifest of a commit whose secret is durable. */
  ghost predicate ManifestEdit(h: seq<Files>, next: Files)
    requires h != []
  {
    var f := h[|h| - 1];
    && next.secret == f.secret && next.intent == f.intent && f.intent.None? && Consistent(next)
    && (forall i | 0 <= i < |h| :: h[i].secret == f.secret)
    && if f.manifest.None? then next.manifest.value.revision == 1
       else f.manifest.value.lifecycle.Active? && next.manifest.value.revision == f.manifest.value.revision + 1
  }

  predicate IntentEdit(f: Files, next: Files) {
    && Consistent(f) && next.manifest == f.manifest && next.secret == f.secret
    && next.intent.Some? && next.intent.value.expectedRevision == f.manifest.value.revision
  }

  /** A manifest that an intent is about to log out. */
  predicate Leaving(f: Files) {
    && f.manifest.Some? && f.manifest.value.lifecycle.Active?
    && f.intent.Some? && f.intent.value.expectedRevision == f.manifest.value.revision
  }

  predicate DropSecretEdit(f: Files, next: Files) {
    Leaving(f) && next.manifest == f.manifest && next.intent == f.intent && next.secret.None?
  }

  predicate LogoutEdit(f: Files, next: Files) {
    && Leaving(f) && f.secret.None? && next.secret.None? && next.intent == f.intent
    && next.manifest.Some? && next.manifest.value.lifecycle.LoggedOut?
    && next.manifest.value.revision == f.manifest.value.revision + 1
  }

  predicate DropIntentEdit(f: Files, next: Files) {
    && f.manifest.Some? && f.manifest.value.lifecycle.LoggedOut?
    && next.manifest == f.manifest && next.secret == f.secret && next.intent.None?
  }

  ghost predicate Edit(h: seq<Files>, next: Files)
    requires h != []
  {
    var f := h[|h| - 1];
    || SameCore(f, next) || SecretEdit(f, next) || ManifestEdit(h, next) || IntentEdit(f, next)
    || DropSecretEdit(f, next) || LogoutEdit(f, next) || DropIntentEdit(f, next)
  }

  type Property = seq<Files> -> bool

  /** The edits keep the property, whether their sync succeeds or not. */
  ghost predicate Closed(p: Property) {
    forall h: seq<Files>, next: Files | h != [] && p(h) && Edit(h, next) :: p(h + [next]) && p([next])
  }

  ghost predicate Has(p: Property, d: Disk) {
    d.history != [] && p(d.history)
  }

  lemma ActionKeeps(p: Property, d: Disk, next: Files, fault: Fault)
    requires Closed(p) && Has(p, d) && Edit(d.history, next)
    ensures Has(p, WriteAtomic(d, next, fault).0)
    ensures Has(p, RemoveDurable(d, next, fault).0)
  {
    hide Edit;
  }

  lemma SideActionKeeps(p: Property, d: Disk, next: Files, fault: Fault)
    requires Closed(p) && Has(p, d) && SameCore(d.Visible(), next)
    ensures Has(p, WriteAtomic(d, next, fault).0)
    ensures Has(p, RemoveDurable(d, next, fault).0)
    ensures SameCore(d.Visible(), RemoveDurable(d, next, fault).0.Visible())
  {
    ActionKeeps(p, d, next, fault);
  }

  /** Both halves of a commit are edits, because the second follows a durable first. */
  lemma CommitKeepsShape(p: Property, d: Disk, m: Manifest, s: Secret, fault0: Fault, fault1: Fault)
    requires Closed(p) && Has(p, d) && SecretValid(s, m)
    requires SecretEdit(d.Visible(), d.Visible().(secret := Some(s)))
    ensures Has(p, Commit(d, m, s, fault0, fault1).0)
  {
    var next := d.Visible().(secret := Some(s));
    ActionKeeps(p, d, next, fault0);
    var d1 := WriteAtomic(d, next, fault0).0;
    if fault0.Done? {
      assert d1.history == [next];
      assert ManifestEdit(d1.history, next.(manifest := Some(m)));
      ActionKeeps(p, d1, next.(manifest := Some(m)), fault1);
    }
  }

  lemma UpdateKeepsShape(p: Property, d: Disk, expected: nat, m: Manifest, s: Secret, faults: Faults)
    requires Closed(p) && Has(p, d)
    ensures Has(p, Update(d, expected, m, s, faults).0)
  {
    if UpdateRefusal(d, expected, m, s).Some? {
      RefusedUpdate(d, expected, m, s, faults);
    } else {
      hide Closed, Has, Commit;
      SideActionKeeps(p, d, d.Visible().(reconnect := None), faults(0));
      var (d1, failed1) := RemoveDurable(d, d.Visible().(reconnect := None), faults(0));
      SideActionKeeps(p, d1, d1.Visible().(observation := None), faults(1));
      var (d2, failed2) := RemoveDurable(d1, d1.Visible().(observation := None), faults(1));
      CommitKeepsShape(p, d2, m, s, faults(2), faults(3));
    }
  }

  lemma RemoveHoldingsKeepsShape(p: Property, d: Disk, faults: Faults)
    requires Closed(p) && Has(p, d) && Leaving(d.Visible())
    ensures var (d', failed) := RemoveHoldings(d, faults);
            && Has(p, d') && (failed.None? ==> d'.Visible().secret.None?)
            && d'.Visible().manifest == d.Visible().manifest && d'.Visible().intent == d.Visible().intent
  {
    hide Closed, Has, WriteAtomic;
    SideActionKeeps(p, d, d.Visible().(observation := None), faults(1));
    var d1 := RemoveDurable(d, d.Visible().(observation := None), faults(1)).0;
    SideActionKeeps(p, d1, d1.Visible().(reconnect := None), faults(2));
    var d2 := RemoveEvidence(d, faults).0;
    assert Has(p, d2) && SameCore(d.Visible(), d2.Visible());
    hide RemoveEvidence;
    SideActionKeeps(p, d2, d2.Visible().(receipt := None), faults(3));
    var d3 := RemoveDurable(d2, d2.Visible().(receipt := None), faults(3)).0;
    DropSecretKeepsShape(p, d3, faults(4));
  }

  lemma DropSecretKeepsShape(p: Property, d: Disk, fault: Fault)
    requires Closed(p) && Has(p, d) && Leaving(d.Visible())
    ensures Has(p, RemoveDurable(d, d.Visible().(secret := None), fault).0)
  {
    assert DropSecretEdit(d.Visible(), d.Visible().(secret := None));
    ActionKeeps(p, d, d.Visible().(secret := None), fault);
  }

  lemma FinishLogoutKeepsShape(p: Property, d: Disk, m: Manifest, i: Intent, r: Request, committedAt: nat,
                               faults: Faults)
    requires Closed(p) && Has(p, d) && Leaving(d.Visible())
    requires d.Visible().manifest == Some(m) && d.Visible().intent == Some(i) && i.nextRevision == m.revision + 1
    ensures Has(p, FinishLogout(d, m, i, r, committedAt, faults).0)
  {
    RemoveHoldingsKeepsShape(p, d, faults);
    hide Closed, Has, RemoveHoldings;
      var (d1, failed) := RemoveHoldings(d, faults);
    if failed.None? && i.requestedAt <= committedAt {
      var next := d1.Visible().(manifest := Some(LoggedOutManifest(m, i, committedAt)));
      LogoutEditKeeps(p, d1, next, faults(5));
      var d2 := WriteAtomic(d1, next, faults(5)).0;
      if faults(5).Done? {
        DropIntentKeeps(p, d2, faults(6));
      }
    }
  }

  lemma LogoutEditKeeps(p: Property, d: Disk, next: Files, fault: Fault)
    requires Closed(p) && Has(p, d) && LogoutEdit(d.Visible(), next)
    ensures Has(p, WriteAtomic(d, next, fault).0)
  {
    ActionKeeps(p, d, next, fault);
  }

  lemma DropIntentKeeps(p: Property, d: Disk, fault: Fault)
    requires Closed(p) && Has(p, d) && d.Visible().manifest.Some? && d.Visible().manifest.value.lifecycle.LoggedOut?
    ensures Has(p, RemoveDurable(d, d.Visible().(intent := None), fault).0)
  {
    assert DropIntentEdit(d.Visible(), d.Visible().(intent := None));
    ActionKeeps(p, d, d.Visible().(intent := None), fault);
  }

  lemma IntentKeeps(p: Property, d: Disk, i: Intent, fault: Fault)
    requires Closed(p) && Has(p, d) && Consistent(d.Visible())
    requires i.expectedRevision == d.Visible().manifest.value.revision
    ensures Has(p, WriteAtomic(d, d.Visible().(intent := Some(i)), fault).0)
  {
    assert IntentEdit(d.Visible(), d.Visible().(intent := Some(i)));
    ActionKeeps(p, d, d.Visible().(intent := Some(i)), fault);
  }

  lemma LoadedIsConsistent(d: Disk)
    ensures LoadConsistent(d).Loaded? && LoadConsistent(d).manifest.lifecycle.Active? ==>
              Consistent(d.Visible()) && d.Visible().manifest == Some(LoadConsistent(d).manifest)
  {
  }

  lemma LogoutKeepsShape(p: Property, d: Disk, r: Request, requestedAt: nat, committedAt: nat, faults: Faults)
    requires Closed(p) && Has(p, d)
    ensures Has(p, Logout(d, r, requestedAt, committedAt, faults).0)
  {
    LoadedIsConsistent(d);
    hide Closed, Has, FinishLogout, RemoveDurable;
    if LogoutRefusal(d, r).None? {
      var f := d.Visible();
      var m := f.manifest.value;
      if m.lifecycle.LoggedOut? {
        DropIntentKeeps(p, d, faults(6));
      } else if m.revision == r.expectedRevision && m.revision != MAX_UINT64 {
        if f.intent.Some? {
          if IntentMatches(f.intent.value, m, r) {
            FinishLogoutKeepsShape(p, d, m, f.intent.value, r, committedAt, faults);
          }
        } else if LoadConsistent(d).Loaded? {
          var i := NewIntent(m, r, requestedAt);
          IntentKeeps(p, d, i, faults(0));
          if faults(0).Done? {
            FinishLogoutKeepsShape(p, WriteAtomic(d, f.(intent := Some(i)), faults(0)).0, m, i, r, committedAt, faults);
          }
        }
      }
    }
  }

  lemma InitializeKeepsShape(p: Property, d: Disk, m: Manifest, s: Secret, faults: Faults)
    requires Closed(p) && Has(p, d)
    ensures Has(p, Initialize(d, m, s, faults).0)
  {
    if BeginsCommit(d, InitializeCall(m, s)) {
      CommitKeepsShape(p, d, m, s, faults(0), faults(1));
    } else {
      RefusedInitialize(d, m, s, faults);
    }
  }

  /** Every operation, with any faults, keeps what the edits keep. */
  lemma OpKeepsShape(p: Property, d: Disk, call: Call, faults: Faults)
    requires Closed(p) && Has(p, d)
    ensures Has(p, DiskAfter(d, call, faults))
  {
    hide Closed, Has, LoadConsistent, ReceiptValid, ReceiptReadable, Initialize, Update, Logout;
    var f := d.Visible();
    match call {
      case InitializeCall(m, s) => InitializeKeepsShape(p, d, m, s, faults);
      case UpdateCall(expected, m, s) => UpdateKeepsShape(p, d, expected, m, s, faults);
      case LogoutCall(q, requestedAt, committedAt) => LogoutKeepsShape(p, d, q, requestedAt, committedAt, faults);
      case ObserveCall(o) => SideActionKeeps(p, d, f.(observation := Some(o)), faults(0));
      case RetireObservationCall(_) => SideActionKeeps(p, d, f.(observation := None), faults(0));
      case ReconnectCall(_, c) => SideActionKeeps(p, d, f.(reconnect := Some(c)), faults(0));
      case RetireReconnectCall(_) => SideActionKeeps(p, d, f.(reconnect := None), faults(0));
      case SealCall(x) => SideActionKeeps(p, d, f.(receipt := Some(x)), faults(0));
      case AdvanceCall(_, x) => SideActionKeeps(p, d, f.(receipt := Some(x)), faults(0));
      case RetireCall(_) => SideActionKeeps(p, d, f.(receipt := None), faults(0));
      case LoadCall =>
      case LoadSecretCall =>
    }
  }

  /** A crash may take the manifest, the secret and the rest from three contents. */
  lemma MixtureOfThree(h: seq<Files>, i: nat, j: nat, k: nat, f: Files)
    requires i < |h| && j < |h| && k < |h|
    requires f == h[k].(manifest := h[i].manifest, secret := h[j].secret)
    ensures Mixture(h, f)
  {
  }

  /** The contents from which a crash takes manifest, secret and intent. */
  lemma MixtureParts(h: seq<Files>, f: Files) returns (i: nat, j: nat, k: nat)
    requires Mixture(h, f)
    ensures i < |h| && j < |h| && k < |h|
    ensures h[i].manifest == f.manifest && h[j].secret == f.secret && h[k].intent == f.intent
  {
    i :| 0 <= i < |h| && h[i].manifest == f.manifest;
    j :| 0 <= j < |h| && h[j].secret == f.secret;
    k :| 0 <= k < |h| && h[k].intent == f.intent;
  }

  /** A crash keeps the property too. */
  ghost predicate CrashClosed(p: Property) {
    forall h: seq<Files>, f: Files | h != [] && p(h) && Mixture(h, f) :: p([f])
  }

  lemma {:induction false} StepsKeepShape(p: Property, w: World, events: seq<Event>)
    requires Closed(p) && CrashClosed(p) && Has(p, w.disk) && Legal(w, events)
    ensures Has(p, Steps(w, events).disk)
    decreases |events|
  {
    if events != [] {
      var before := Steps(w, events[..|events| - 1]);
      StepsKeepShape(p, w, events[..|events| - 1]);
      match events[|events| - 1] {
        case Op(call, faults) => OpKeepsShape(p, before.disk, call, faults);
        case Crash(f, temp) => assert p([f]);
      }
    }
  }
}
