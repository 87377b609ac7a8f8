/** One update in detail: where a fault or a crash may leave it. */
module LocalUpdates {
  import opened Base
  import opened LocalRecords
  import opened LocalStore
  import opened LocalRuns
  import opened LocalShape
  import opened LocalDurable

  predicate Loads(f: Files) {
    LoadConsistent(Disk([f], false)).Loaded?
  }

  /** A content whose manifest is one of the history's or the new one, and whose secret is
      the old or the new one. */
  ghost predicate OneOf(f: Files, h: seq<Files>, m: Manifest, s: Secret)
    requires h != []
  {
    && f.intent.None?
    && (f.manifest == Some(m) || exists i | 0 <= i < |h| :: h[i].manifest == f.manifest)
    && (f.secret == h[|h| - 1].secret || f.secret == Some(s))
  }

  ghost predicate AllOneOf(h': seq<Files>, h: seq<Files>, m: Manifest, s: Secret)
    requires h != []
  {
    h' != [] && forall i | 0 <= i < |h'| :: OneOf(h'[i], h, m, s)
  }

  /** In every reachable state, whatever an update's four file actions do and whatever a
      crash then leaves, even a reordering one: the directory loads only with the old pair
      or with the new pair; a half-done update does not load at all. */
  lemma HalfDoneUpdateFailsClosed(d: Disk, expected: nat, m: Manifest, s: Secret, faults: Faults, f: Files)
    requires d.history != [] && RunOk(d.history) && UpdateRefusal(d, expected, m, s).None?
    requires Mixture(Update(d, expected, m, s, faults).0.history, f)
    ensures OneOf(f, d.history, m, s)
    ensures var was := d.Visible();
            Loads(f) ==> (f.manifest == was.manifest && f.secret == was.secret) ||
                         (f.manifest == Some(m) && f.secret == Some(s))
  {
    UpdateHistory(d, expected, m, s, faults);
    hide Update, UpdateRefusal, RunOk, Mixture, Consistent, SecretValid, Loads;
    MixtureIsOneOf(Update(d, expected, m, s, faults).0.history, f, d.history, m, s);
    hide OneOf, AllOneOf;
    OnlyTwoPairsLoad(d, f, m, s);
  }

  lemma MixtureIsOneOf(h': seq<Files>, f: Files, h: seq<Files>, m: Manifest, s: Secret)
    requires h != [] && AllOneOf(h', h, m, s) && Mixture(h', f)
    ensures OneOf(f, h, m, s)
  {
    hide Mixture;
    var i, j, k := MixtureParts(h', f);
    assert OneOf(h'[i], h, m, s) && OneOf(h'[j], h, m, s) && OneOf(h'[k], h, m, s);
  }

  lemma OnlyTwoPairsLoad(d: Disk, f: Files, m: Manifest, s: Secret)
    requires d.history != [] && RunOk(d.history) && Consistent(d.Visible()) && SecretValid(s, m)
    requires m.revision == d.Visible().manifest.value.revision + 1 && OneOf(f, d.history, m, s)
    ensures var was := d.Visible();
            Loads(f) ==> (f.manifest == was.manifest && f.secret == was.secret) ||
                         (f.manifest == Some(m) && f.secret == Some(s))
  {
    OldHistory(d);
    hide RunOk;
    if Loads(f) {
      LoadsAPair(f);
    }
    hide Loads;
    if f.manifest != Some(m) {
      var n :| 0 <= n < |d.history| && d.history[n].manifest == f.manifest;
    }
  }

  lemma LoadsAPair(f: Files)
    requires Loads(f)
    ensures f.manifest.Some?
    ensures f.manifest.value.lifecycle.Active? ==>
              f.secret.Some? && f.secret.value.revision == f.manifest.value.revision
  {
  }

  lemma UpdateHistory(d: Disk, expected: nat, m: Manifest, s: Secret, faults: Faults)
    requires d.history != [] && RunOk(d.history) && UpdateRefusal(d, expected, m, s).None?
    ensures Consistent(d.Visible()) && SecretValid(s, m)
    ensures m.revision == d.Visible().manifest.value.revision + 1
    ensures AllOneOf(Update(d, expected, m, s, faults).0.history, d.history, m, s)
  {
    var h := d.history;
    OldHistory(d);
    hide RunOk;
    assert AllOneOf(h, h, m, s);
    WriteStays(d, d.Visible().(reconnect := None), faults(0), h, m, s);
    var (d1, failed1) := RemoveDurable(d, d.Visible().(reconnect := None), faults(0));
    hide AllOneOf, OneOf;
    SideFileIsOneOf(d1, d1.Visible().(observation := None), h, m, s);
    WriteStays(d1, d1.Visible().(observation := None), faults(1), h, m, s);
    var (d2, failed2) := RemoveDurable(d1, d1.Visible().(observation := None), faults(1));
    if failed1.None? && failed2.None? {
      CommitStays(d2, faults(2), faults(3), h, m, s);
    }
  }

  lemma SideFileIsOneOf(d: Disk, next: Files, h: seq<Files>, m: Manifest, s: Secret)
    requires h != [] && AllOneOf(d.history, h, m, s) && SameCore(d.Visible(), next)
    ensures OneOf(next, h, m, s)
  {
    assert OneOf(d.Visible(), h, m, s);
  }

  lemma CommitStays(d: Disk, fault0: Fault, fault1: Fault, h: seq<Files>, m: Manifest, s: Secret)
    requires h != [] && AllOneOf(d.history, h, m, s)
    ensures AllOneOf(Commit(d, m, s, fault0, fault1).0.history, h, m, s)
  {
    assert OneOf(d.Visible(), h, m, s);
    WriteStays(d, d.Visible().(secret := Some(s)), fault0, h, m, s);
    var d1 := WriteAtomic(d, d.Visible().(secret := Some(s)), fault0).0;
    WriteStays(d1, d1.Visible().(manifest := Some(m)), fault1, h, m, s);
  }

  lemma WriteStays(d: Disk, next: Files, fault: Fault, h: seq<Files>, m: Manifest, s: Secret)
    requires h != [] && AllOneOf(d.history, h, m, s) && OneOf(next, h, m, s)
    ensures AllOneOf(WriteAtomic(d, next, fault).0.history, h, m, s)
    ensures AllOneOf(RemoveDurable(d, next, fault).0.history, h, m, s)
  {
    hide OneOf;
  }

  // ---------------------------------------------------------------------------
  // A half-done commit is never repaired

  /** A commit that stopped half-way: no intent, a manifest that is missing or active, and
      not the secret that belongs to it. */
  predicate HalfDone(f: Files) {
    && f.intent.None?
    && match f.manifest
       case None => f.secret.Some?
       case Some(m) => m.lifecycle.Active? && (f.secret.Some? ==> !SecretValid(f.secret.value, m))
  }

  /** Every call with every fault leaves it as it is. */
  lemma HalfDoneIsStuck(w: World, call: Call, faults: Faults)
    requires HalfDone(w.disk.Visible())
    ensures Do(w, call, faults) == w && LoadConsistent(w.disk).NotLoaded?
  {
    assert LoadConsistent(w.disk).NotLoaded? && !LoadSecret(w.disk).SecretLoaded?;
    hide LoadConsistent, LoadSecret, SecretValid;
    match call {
      case UpdateCall(expected, m, s) => RefusedUpdate(w.disk, expected, m, s, faults);
      case _ =>
    }
  }

  /** The manifest of one content and the secret of another are a pair, or both absent. */
  ghost predicate LeadsBack(f: Files, g: Files) {
    ValidPair(f, g) || (f.manifest.None? && g.secret.None?)
  }

  /** The unsynced contents hold neither a manifest with its own secret nor the directory
      before its first secret. */
  ghost predicate NoWayBack(h: seq<Files>) {
    forall i, j | 0 <= i < |h| && 0 <= j < |h| :: !LeadsBack(h[i], h[j])
  }

  /** What the shape of a reachable history says beside a half-done commit. */
  ghost predicate NoLogout(h: seq<Files>) {
    forall i | 0 <= i < |h| :: h[i].intent.None? && (h[i].manifest.Some? ==> h[i].manifest.value.lifecycle.Active?)
  }

  lemma HalfDoneHistory(d: Disk)
    requires d.history != [] && RunOk(d.history) && HalfDone(d.Visible())
    ensures NoLogout(d.history)
  {
    forall i | 0 <= i < |d.history|
      ensures Leads(d.history[i], d.Visible())
    {
      assert Leads(d.history[i], d.history[|d.history| - 1]);
    }
  }

  lemma MixtureIsHalfDone(h: seq<Files>, f: Files)
    requires NoLogout(h) && NoWayBack(h) && Mixture(h, f)
    ensures HalfDone(f)
  {
    hide Mixture, SecretValid;
    var i, j, k := MixtureParts(h, f);
    assert !LeadsBack(h[i], h[j]);
  }

  lemma HalfDoneIsNoWayBack(f: Files)
    requires HalfDone(f)
    ensures NoLogout([f]) && NoWayBack([f])
  {
    hide SecretValid;
  }

  ghost predicate Lost(w: World, was: World) {
    && w.disk.history != [] && NoLogout(w.disk.history) && NoWayBack(w.disk.history) && HalfDone(w.disk.Visible())
    && w.served == was.served && w.commits == was.commits
  }

  lemma {:induction false} LostStays(w: World, more: seq<Event>)
    requires Lost(w, w) && Legal(w, more)
    ensures Lost(Steps(w, more), w)
    decreases |more|
  {
    if more != [] {
      var before := Steps(w, more[..|more| - 1]);
      LostStays(w, more[..|more| - 1]);
      match more[|more| - 1] {
        case Op(call, faults) => HalfDoneIsStuck(before, call, faults);
        case Crash(f, _) =>
          MixtureIsHalfDone(before.disk.history, f);
          hide HalfDone;
          HalfDoneIsNoWayBack(f);
      }
    }
  }

  lemma WayBack(h: seq<Files>) returns (f: Files)
    requires !NoWayBack(h)
    ensures Mixture(h, f) && !HalfDone(f)
  {
    hide Mixture, SecretValid;
    var i, j :| 0 <= i < |h| && 0 <= j < |h| && LeadsBack(h[i], h[j]);
    f := h[i].(secret := h[j].secret);
    MixtureOfThree(h, i, j, i, f);
  }

  /** Over every continuation the directory stays half-done. */
  ghost predicate NeverRepaired(w: World) {
    forall more | Legal(w, more) :: HalfDone(Steps(w, more).disk.Visible())
  }

  lemma NeverRepairedExactly(w: World)
    requires w.disk.history != [] && NoLogout(w.disk.history) && HalfDone(w.disk.Visible())
    ensures NeverRepaired(w) <==> NoWayBack(w.disk.history)
  {
    hide HalfDone, NoLogout, NoWayBack, Mixture, Steps, Legal;
    if NoWayBack(w.disk.history) {
      forall more | Legal(w, more)
        ensures HalfDone(Steps(w, more).disk.Visible())
      {
        LostStays(w, more);
      }
    } else {
      var f := WayBack(w.disk.history);
      CrashRun(w, f);
      assert !HalfDone(Steps(w, [Crash(f, false)]).disk.Visible());
    }
  }

  /** In every state of every run that shows a half-done commit: over every continuation,
      with any calls, faults and crashes, the directory stays half-done if and only if no
      unsynced content leads back, and then nothing is served or committed any more. */
  lemma HalfDoneStaysExactly(events: seq<Event>, more: seq<Event>)
    requires Legal(START, events) && HalfDone(Steps(START, events).disk.Visible())
    ensures var w := Steps(START, events);
            && (NeverRepaired(w) <==> NoWayBack(w.disk.history))
            && (NoWayBack(w.disk.history) && Legal(w, more) ==>
                  Steps(w, more).served == w.served && Steps(w, more).commits == w.commits)
  {
    var w := Steps(START, events);
    ReachableIsOk(events);
    HalfDoneHistory(w.disk);
    hide RunOk, HalfDone, NoLogout, NoWayBack, NeverRepaired, Steps, Legal;
    NeverRepairedExactly(w);
    if NoWayBack(w.disk.history) && Legal(w, more) {
      LostStays(w, more);
    }
  }

  // ---------------------------------------------------------------------------
  // What a reported success means

  /** A successful update is durable and loads the new manifest; a key or a connection
      secret changed exactly when its generation did. */
  lemma UpdateCommits(d: Disk, expected: nat, m: Manifest, s: Secret, faults: Faults)
    requires Update(d, expected, m, s, faults).1.None?
    ensures var d' := Update(d, expected, m, s, faults).0;
            d'.Durable() && LoadConsistent(d') == Loaded(m) && LoadSecret(d') == SecretLoaded(s)
    ensures LoadConsistent(d).Loaded? && m.revision == LoadConsistent(d).manifest.revision + 1
    ensures d.Visible().receipt.None?
    ensures var current, was := LoadConsistent(d).manifest, d.Visible().secret;
            && SameInstallation(current, m) && current.updatedAt < m.updatedAt && was.Some?
            && (m.enrollment == current.enrollment <==> s.identityKey == was.value.identityKey)
            && (m.connection == current.connection <==> s.connectionSecret == was.value.connectionSecret)
  {
  }

  /** So is a successful first initialization. */
  lemma InitializeCommits(d: Disk, m: Manifest, s: Secret, faults: Faults)
    requires Initialize(d, m, s, faults).1.None?
    ensures var d' := Initialize(d, m, s, faults).0;
            d'.Durable() && LoadConsistent(d') == Loaded(m) && LoadSecret(d') == SecretLoaded(s)
  {
  }

  /** A successful observation is durable, keeps the installation loadable, continues the
      revisions and lets no counter fall. */
  lemma ObservationCommits(d: Disk, o: Observation, fault: Fault)
    requires PersistObservation(d, o, fault).1.None?
    ensures var d' := PersistObservation(d, o, fault).0;
            && d'.Durable() && d'.Visible() == d.Visible().(observation := Some(o))
            && LoadConsistent(d).Loaded? && LoadConsistent(d') == LoadConsistent(d)
    ensures match d.Visible().observation
            case None => o.revision == 1
            case Some(p) =>
              && o.revision == p.revision + 1 && p.observedAt <= o.observedAt
              && p.accepted <= o.accepted && p.completed <= o.completed && p.failed <= o.failed
  {
  }

  /** So is a successful reconnect checkpoint, which replaces exactly the expected one. */
  lemma ReconnectCommits(d: Disk, expected: nat, c: Reconnect, fault: Fault)
    requires PersistReconnect(d, expected, c, fault).1.None?
    ensures var d' := PersistReconnect(d, expected, c, fault).0;
            && d'.Durable() && d'.Visible() == d.Visible().(reconnect := Some(c))
            && LoadConsistent(d).Loaded? && LoadConsistent(d') == LoadConsistent(d)
    ensures c.revision == expected + 1
    ensures match d.Visible().reconnect
            case None => expected == 0
            case Some(p) => p.revision == expected
  {
  }

  /** Retiring an observation or a reconnect checkpoint removes only the expected one and
      keeps the installation loadable. */
  lemma RetirementsCommit(d: Disk, expected: nat, fault: Fault)
    ensures var (d', failed) := RetireObservation(d, expected, fault);
            failed.None? ==>
              && d'.Visible() == d.Visible().(observation := None)
              && LoadConsistent(d).Loaded? && LoadConsistent(d') == LoadConsistent(d)
              && (d.Visible().observation.Some? ==> d.Visible().observation.value.revision == expected)
    ensures var (d', failed) := RetireReconnect(d, expected, fault);
            failed.None? ==>
              && d'.Visible() == d.Visible().(reconnect := None)
              && LoadConsistent(d).Loaded? && LoadConsistent(d') == LoadConsistent(d)
              && (d.Visible().reconnect.Some? ==> d.Visible().reconnect.value.revision == expected)
  {
  }
}
