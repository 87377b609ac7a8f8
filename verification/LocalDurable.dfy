/** When a load can be followed by an older one, exactly. */
module LocalDurable {
  import opened Base
  import opened LocalRecords
  import opened LocalStore
  import opened LocalRuns
  import opened LocalShape

  predicate LoggedOutFiles(f: Files) {
    f.manifest.Some? && f.manifest.value.lifecycle.LoggedOut?
  }

  // ---------------------------------------------------------------------------
  // What every reachable history satisfies

  /** Two contents of one history: manifests of one revision are one manifest, an intent
      names the newest active manifest and its successor, and every secret beside an
      intent belongs to the manifest that the intent names. */
  ghost predicate Matches(f: Files, g: Files) {
    && (f.manifest.Some? && g.manifest.Some? && f.manifest.value.revision == g.manifest.value.revision ==>
          f.manifest == g.manifest)
    && (f.intent.Some? && g.intent.Some? ==> f.intent == g.intent)
    && (IsActive(f.manifest) && g.intent.Some? ==> f.manifest.value.revision <= g.intent.value.expectedRevision)
    && (LoggedOutFiles(f) && g.intent.Some? ==> f.manifest.value.revision == g.intent.value.expectedRevision + 1)
  }

  ghost predicate OwnSecret(f: Files, g: Files, k: Files) {
    IsActive(f.manifest) && g.intent.Some? && k.secret.Some? &&
    f.manifest.value.revision == g.intent.value.expectedRevision ==>
      SecretValid(k.secret.value, f.manifest.value)
  }

  ghost predicate ValidPair(f: Files, g: Files) {
    IsActive(f.manifest) && g.secret.Some? && SecretValid(g.secret.value, f.manifest.value)
  }

  /** One content against the visible one `last`: no manifest above it, a logged-out
      manifest stays, an intent stays until the manifest is logged out, and a consistent
      installation has one secret. */
  ghost predicate Leads(f: Files, last: Files) {
    && Below(f, last)
    && (LoggedOutFiles(f) ==> last.manifest == f.manifest)
    && (f.intent.Some? ==> last.intent.Some? || LoggedOutFiles(last))
    && (Consistent(last) ==> f.secret == last.secret)
  }

  /** A logged-out manifest without its secret leaves every older secret beside the
      manifest it belongs to. */
  ghost predicate SecretsExplained(h: seq<Files>) {
    h != [] && LoggedOutFiles(h[|h| - 1]) && h[|h| - 1].secret.None? ==>
      forall j | 0 <= j < |h| && h[j].secret.Some? ::
        exists i | 0 <= i < |h| :: ValidPair(h[i], h[j]) &&
                                   h[i].manifest.value.revision < h[|h| - 1].manifest.value.revision
  }

  /** A first manifest that is not durable stands beside its own secret. */
  ghost predicate FirstExplained(h: seq<Files>) {
    (exists i | 0 <= i < |h| :: h[i].manifest.None?) && (exists i | 0 <= i < |h| :: h[i].manifest.Some?) ==>
      exists i | 0 <= i < |h| :: ValidPair(h[i], h[i]) && h[i].manifest.value.revision == 1
  }

  ghost predicate Pairwise(h: seq<Files>) {
    && (forall i, j | 0 <= i < |h| && 0 <= j < |h| :: Matches(h[i], h[j]))
    && (forall i, j, k | 0 <= i < |h| && 0 <= j < |h| && 0 <= k < |h| :: OwnSecret(h[i], h[j], h[k]))
    && (h != [] ==> forall i | 0 <= i < |h| :: Leads(h[i], h[|h| - 1]))
  }

  ghost predicate RunOk(h: seq<Files>) {
    Pairwise(h) && SecretsExplained(h) && FirstExplained(h)
  }

  /** The next content against every earlier one. */
  ghost predicate Joins(h: seq<Files>, next: Files) {
    && Matches(next, next) && OwnSecret(next, next, next)
    && (forall i | 0 <= i < |h| :: Matches(h[i], next) && Matches(next, h[i]) && Leads(h[i], next))
    && (forall i, j | 0 <= i < |h| && 0 <= j < |h| ::
          && OwnSecret(next, h[i], h[j]) && OwnSecret(h[i], next, h[j]) && OwnSecret(h[i], h[j], next))
    && (forall i | 0 <= i < |h| ::
          && OwnSecret(next, next, h[i]) && OwnSecret(next, h[i], next) && OwnSecret(h[i], next, next))
  }

  lemma JoinKeeps(h: seq<Files>, next: Files)
    requires h != [] && Pairwise(h) && Joins(h, next)
    ensures Pairwise(h + [next]) && Pairwise([next])
  {
    hide Matches, OwnSecret;
    var h' := h + [next];
    assert Leads(next, next);
    forall i, j, k | 0 <= i < |h'| && 0 <= j < |h'| && 0 <= k < |h'|
      ensures Matches(h'[i], h'[j]) && OwnSecret(h'[i], h'[j], h'[k])
    {
      if i < |h| && j < |h| && k < |h| {
        assert Matches(h[i], h[j]) && OwnSecret(h[i], h[j], h[k]);
      }
    }
  }

  lemma EditJoins(h: seq<Files>, next: Files)
    requires h != [] && Pairwise(h) && Edit(h, next)
    ensures Joins(h, next)
  {
    var f := h[|h| - 1];
    hide SecretValid;
    forall i, j | 0 <= i < |h| && 0 <= j < |h|
      ensures Matches(h[i], next) && Matches(next, h[i]) && Leads(h[i], next)
      ensures OwnSecret(next, h[i], h[j]) && OwnSecret(h[i], next, h[j]) && OwnSecret(h[i], h[j], next)
      ensures OwnSecret(next, next, h[i]) && OwnSecret(next, h[i], next) && OwnSecret(h[i], next, next)
      ensures Matches(next, next) && OwnSecret(next, next, next)
    {
      EditJoinsPair(h, next, i, j);
    }
  }

  lemma EditJoinsPair(h: seq<Files>, next: Files, i: nat, j: nat)
    requires h != [] && Pairwise(h) && Edit(h, next) && i < |h| && j < |h|
    ensures Matches(h[i], next) && Matches(next, h[i]) && Leads(h[i], next)
    ensures OwnSecret(next, h[i], h[j]) && OwnSecret(h[i], next, h[j]) && OwnSecret(h[i], h[j], next)
    ensures OwnSecret(next, next, h[i]) && OwnSecret(next, h[i], next) && OwnSecret(h[i], next, next)
    ensures Matches(next, next) && OwnSecret(next, next, next)
  {
    var n := |h| - 1;
    var f := h[n];
    assert Matches(h[i], f) && Matches(f, h[i]) && Matches(f, f) && Matches(h[i], h[j]) && Matches(h[j], f);
    assert Leads(h[i], f) && Leads(h[j], f) && Leads(f, f);
    assert OwnSecret(f, h[i], h[j]) && OwnSecret(h[i], f, h[j]) && OwnSecret(h[i], h[j], f);
    assert OwnSecret(f, f, h[i]) && OwnSecret(f, h[i], f) && OwnSecret(h[i], f, f) && OwnSecret(f, f, f);
  }

  lemma SecretsStayExplained(h: seq<Files>, next: Files)
    requires h != [] && Pairwise(h) && SecretsExplained(h) && Edit(h, next)
    ensures SecretsExplained(h + [next]) && SecretsExplained([next])
  {
    var n := |h| - 1;
    var f, h' := h[n], h + [next];
    if LoggedOutFiles(next) && next.secret.None? {
      forall j | 0 <= j < |h'| && h'[j].secret.Some?
        ensures exists i | 0 <= i < |h'| :: ValidPair(h'[i], h'[j]) &&
                                            h'[i].manifest.value.revision < next.manifest.value.revision
      {
        assert h'[j] == h[j] && Leads(h[j], f);
        if LogoutEdit(f, next) {
          assert OwnSecret(f, f, h[j]);
          assert h'[n] == f && ValidPair(h'[n], h'[j]);
        } else {
          assert LoggedOutFiles(f) && f.manifest == next.manifest && f.secret.None?;
          var i :| 0 <= i < |h| && ValidPair(h[i], h[j]) && h[i].manifest.value.revision < f.manifest.value.revision;
          assert h'[i] == h[i];
        }
      }
    }
  }

  lemma FirstStaysExplained(h: seq<Files>, next: Files)
    requires h != [] && Pairwise(h) && FirstExplained(h) && Edit(h, next)
    ensures FirstExplained(h + [next]) && FirstExplained([next])
  {
    var n := |h| - 1;
    var f, h' := h[n], h + [next];
    ManifestStays(h, next);
    hide Edit, Pairwise;
    if (exists i | 0 <= i < |h'| :: h'[i].manifest.None?) && next.manifest.Some? {
      var i :| 0 <= i < |h'| && h'[i].manifest.None?;
      assert h'[i] == h[i];
      if f.manifest.Some? {
        var j :| 0 <= j < |h| && ValidPair(h[j], h[j]) && h[j].manifest.value.revision == 1;
        assert h'[j] == h[j];
      } else {
        assert h'[n + 1] == next;
      }
    }
  }

  /** A manifest does not vanish, and the first one appears beside its secret. */
  lemma ManifestStays(h: seq<Files>, next: Files)
    requires h != [] && Pairwise(h) && Edit(h, next)
    ensures var f := h[|h| - 1];
            && (f.manifest.Some? ==> next.manifest.Some?)
            && (f.manifest.None? && next.manifest.Some? ==> ValidPair(next, next) && next.manifest.value.revision == 1)
            && (next.manifest.None? ==> forall i | 0 <= i < |h| :: h[i].manifest.None?)
  {
    forall i | 0 <= i < |h|
      ensures h[i].manifest.Some? ==> h[|h| - 1].manifest.Some?
    {
      assert Leads(h[i], h[|h| - 1]);
    }
  }

  lemma RunOkIsClosed()
    ensures Closed(h => RunOk(h)) && CrashClosed(h => RunOk(h))
  {
    forall h: seq<Files>, next: Files | h != [] && RunOk(h) && Edit(h, next)
      ensures RunOk(h + [next]) && RunOk([next])
    {
      hide Edit, Pairwise, SecretsExplained, FirstExplained;
      EditJoins(h, next);
      JoinKeeps(h, next);
      SecretsStayExplained(h, next);
      FirstStaysExplained(h, next);
    }
    forall h: seq<Files>, f: Files | h != [] && RunOk(h) && Mixture(h, f)
      ensures RunOk([f])
    {
      MixtureIsOk(h, f);
    }
  }

  lemma MixtureIsOk(h: seq<Files>, f: Files)
    requires h != [] && Pairwise(h) && Mixture(h, f)
    ensures RunOk([f])
  {
    hide SecretValid, Mixture;
    var i, j, k := MixtureParts(h, f);
    assert Matches(h[i], h[k]) && OwnSecret(h[i], h[k], h[j]);
    SingleIsOk(f);
  }

  lemma SingleIsOk(f: Files)
    requires Matches(f, f) && OwnSecret(f, f, f)
    ensures RunOk([f])
  {
  }

  /** Every history of every run has this shape. */
  lemma ReachableIsOk(events: seq<Event>)
    requires Legal(START, events)
    ensures Steps(START, events).disk.history != [] && RunOk(Steps(START, events).disk.history)
  {
    RunOkIsClosed();
    assert RunOk([NO_FILES]);
    StepsKeepShape(h => RunOk(h), START, events);
  }

  /** Beside a consistent installation: no intent, one secret, no newer and no logged-out
      manifest, and no other manifest of the visible revision. */
  lemma OldHistory(d: Disk)
    requires d.history != [] && RunOk(d.history) && Consistent(d.Visible())
    ensures var h, last := d.history, d.Visible();
            forall i | 0 <= i < |h| ::
              && h[i].intent.None? && h[i].secret == last.secret
              && (h[i].manifest.Some? ==>
                    && h[i].manifest.value.lifecycle.Active?
                    && h[i].manifest.value.revision <= last.manifest.value.revision
                    && (h[i].manifest.value.revision == last.manifest.value.revision ==>
                          h[i].manifest == last.manifest))
  {
    var h, last := d.history, d.Visible();
    forall i | 0 <= i < |h|
      ensures Leads(h[i], last) && Matches(h[i], last)
    {
      assert Leads(h[i], h[|h| - 1]) && Matches(h[i], h[|h| - 1]);
    }
  }

  // ---------------------------------------------------------------------------
  // A floor under every later load

  /** One content never leads to a load below `r`, beside the intents of another. */
  ghost predicate AtLeast(f: Files, g: Files, r: nat) {
    && (f.manifest.None? ==> r <= 1)
    && (f.manifest.Some? && f.manifest.value.revision < r ==>
          && f.manifest.value.lifecycle.Active?
          && (g.intent.Some? && g.intent.value.expectedRevision == f.manifest.value.revision ==>
                r <= f.manifest.value.revision + 1))
    && (f.secret.Some? ==> r <= f.secret.value.revision)
  }

  ghost predicate AllAtLeast(h: seq<Files>, r: nat) {
    forall i, j | 0 <= i < |h| && 0 <= j < |h| :: AtLeast(h[i], h[j], r)
  }

  lemma FloorIsClosed(r: nat)
    ensures Closed(h => AllAtLeast(h, r)) && CrashClosed(h => AllAtLeast(h, r))
  {
    forall h: seq<Files>, next: Files | h != [] && AllAtLeast(h, r) && Edit(h, next)
      ensures AllAtLeast(h + [next], r) && AllAtLeast([next], r)
    {
      EditStaysAbove(h, next, r);
    }
    forall h: seq<Files>, f: Files | h != [] && AllAtLeast(h, r) && Mixture(h, f)
      ensures AllAtLeast([f], r)
    {
      MixtureStaysAbove(h, f, r);
    }
  }

  lemma EditStaysAbove(h: seq<Files>, next: Files, r: nat)
    requires h != [] && AllAtLeast(h, r) && Edit(h, next)
    ensures AllAtLeast(h + [next], r) && AllAtLeast([next], r)
  {
    var n := |h| - 1;
    var f, h' := h[n], h + [next];
    assert AtLeast(f, f, r);
    forall i, j | 0 <= i < |h'| && 0 <= j < |h'|
      ensures AtLeast(h'[i], h'[j], r)
    {
      var a := if i < |h| then h[i] else f;
      var b := if j < |h| then h[j] else f;
      assert AtLeast(a, b, r) && AtLeast(a, f, r) && AtLeast(f, b, r);
    }
    assert AtLeast(h'[n + 1], h'[n + 1], r);
  }

  lemma MixtureStaysAbove(h: seq<Files>, f: Files, r: nat)
    requires AllAtLeast(h, r) && Mixture(h, f)
    ensures AllAtLeast([f], r)
  {
    var i :| 0 <= i < |h| && h[i].manifest == f.manifest;
    var j :| 0 <= j < |h| && h[j].secret == f.secret;
    var k :| 0 <= k < |h| && h[k].intent == f.intent;
    assert AtLeast(h[i], h[k], r) && AtLeast(h[j], h[k], r);
  }

  lemma FloorHolds(w: World, events: seq<Event>, r: nat)
    requires w.disk.history != [] && AllAtLeast(w.disk.history, r) && Legal(w, events)
    ensures var later := LoadConsistent(Steps(w, events).disk); later.Loaded? ==> r <= later.manifest.revision
  {
    FloorIsClosed(r);
    StepsKeepShape(h => AllAtLeast(h, r), w, events);
    var h := Steps(w, events).disk.history;
    hide Steps;
    assert AtLeast(h[|h| - 1], h[|h| - 1], r);
  }

  /** After any load, active or logged out, from a directory whose manifest, secret and
      intent are durable, reached by a run or not, no later load of any run returns an
      older revision. */
  lemma DurableLoadsNeverFall(w: World, events: seq<Event>)
    requires w.disk.history != [] && LoadConsistent(w.disk).Loaded? && Legal(w, events)
    requires forall i | 0 <= i < |w.disk.history| :: SameCore(w.disk.Visible(), w.disk.history[i])
    ensures var later := LoadConsistent(Steps(w, events).disk);
            later.Loaded? ==> LoadConsistent(w.disk).manifest.revision <= later.manifest.revision
  {
    LoadedShape(w.disk);
    FloorHolds(w, events, LoadConsistent(w.disk).manifest.revision);
  }

  // ---------------------------------------------------------------------------
  // Exactly when a load can be followed by an older one

  /** The unsynced contents hold no older manifest together with a secret of its own. */
  ghost predicate NoOlderPair(h: seq<Files>, r: nat) {
    forall i, j | 0 <= i < |h| && 0 <= j < |h| && ValidPair(h[i], h[j]) :: r <= h[i].manifest.value.revision
  }

  lemma NoOlderPairIsFloor(d: Disk, r: nat)
    requires d.history != [] && RunOk(d.history) && NoOlderPair(d.history, r)
    requires LoadConsistent(d).Loaded? && LoadConsistent(d).manifest.revision == r
    ensures AllAtLeast(d.history, r)
  {
    var h, last := d.history, d.Visible();
    LoadedShape(d);
    FirstIsAbove(h, r);
    SecretsAreAbove(h, r);
    hide LoadConsistent, NoOlderPair, SecretsExplained, FirstExplained;
    forall i, j | 0 <= i < |h| && 0 <= j < |h|
      ensures AtLeast(h[i], h[j], r)
    {
      assert Matches(last, h[j]) && Leads(h[i], last) && Leads(h[j], last);
    }
  }

  /** What a load shows: a consistent pair, or a logged-out manifest alone. */
  lemma LoadedShape(d: Disk)
    requires d.history != [] && LoadConsistent(d).Loaded?
    ensures var f := d.history[|d.history| - 1];
            && f == d.Visible() && f.manifest == Some(LoadConsistent(d).manifest) && f.intent.None?
            && (LoggedOutFiles(f) ==> f.secret.None? && f.observation.None? && f.reconnect.None?)
            && (!LoggedOutFiles(f) ==> Consistent(f))
  {
  }

  lemma FirstIsAbove(h: seq<Files>, r: nat)
    requires h != [] && h[|h| - 1].manifest.Some? && FirstExplained(h) && NoOlderPair(h, r)
    ensures forall i | 0 <= i < |h| :: h[i].manifest.None? ==> r <= 1
  {
    hide SecretValid;
    if i :| 0 <= i < |h| && h[i].manifest.None? {
      var k :| 0 <= k < |h| && ValidPair(h[k], h[k]) && h[k].manifest.value.revision == 1;
    }
  }

  lemma SecretsAreAbove(h: seq<Files>, r: nat)
    requires h != [] && SecretsExplained(h) && NoOlderPair(h, r) && Pairwise(h)
    requires var f := h[|h| - 1];
             && f.manifest.Some? && f.manifest.value.revision == r
             && (LoggedOutFiles(f) ==> f.secret.None?) && (!LoggedOutFiles(f) ==> Consistent(f))
    ensures forall i | 0 <= i < |h| && h[i].secret.Some? :: r <= h[i].secret.value.revision
  {
    forall i | 0 <= i < |h| && h[i].secret.Some?
      ensures r <= h[i].secret.value.revision
    {
      assert Leads(h[i], h[|h| - 1]);
    }
  }

  /** A consistent installation has no older pair. */
  lemma ActiveHasNoOlderPair(h: seq<Files>)
    requires h != [] && Pairwise(h) && Consistent(h[|h| - 1])
    ensures NoOlderPair(h, h[|h| - 1].manifest.value.revision)
  {
    forall i, j | 0 <= i < |h| && 0 <= j < |h| && ValidPair(h[i], h[j])
      ensures h[|h| - 1].manifest.value.revision <= h[i].manifest.value.revision
    {
      assert Leads(h[j], h[|h| - 1]);
    }
  }

  /** The crash that brings an older pair back. */
  lemma OlderPairLoads(d: Disk, r: nat) returns (f: Files)
    requires d.history != [] && RunOk(d.history) && !NoOlderPair(d.history, r)
    requires LoadConsistent(d).Loaded? && LoadConsistent(d).manifest.revision == r
    ensures Mixture(d.history, f) && !LoadsAbove(Disk([f], false), r)
  {
    hide LoadConsistent, Mixture, SecretsExplained, FirstExplained, Pairwise, ValidPair;
    var h := d.history;
    LoadedShape(d);
    var i, j := OlderPair(h, r);
    hide NoOlderPair;
    f := h[|h| - 1].(manifest := h[i].manifest, secret := h[j].secret);
    MixtureOfThree(h, i, j, |h| - 1, f);
    ValidTogether(h[i], h[j], f);
    OlderLoads(f);
  }

  lemma ValidTogether(f: Files, g: Files, k: Files)
    requires ValidPair(f, g) && k.manifest == f.manifest && k.secret == g.secret
    ensures ValidPair(k, k) && k.manifest.Some?
  {
  }

  /** An older pair stands beside a logged-out manifest only. */
  lemma OlderPair(h: seq<Files>, r: nat) returns (i: nat, j: nat)
    requires h != [] && Pairwise(h) && !NoOlderPair(h, r)
    requires h[|h| - 1].manifest.Some? && h[|h| - 1].manifest.value.revision == r
    ensures i < |h| && j < |h| && ValidPair(h[i], h[j])
    ensures h[i].manifest.Some? && h[i].manifest.value.revision < r && !Consistent(h[|h| - 1])
  {
    hide Pairwise, SecretValid;
    if Consistent(h[|h| - 1]) {
      ActiveHasNoOlderPair(h);
    }
    i, j :| 0 <= i < |h| && 0 <= j < |h| && ValidPair(h[i], h[j]) && h[i].manifest.value.revision < r;
  }

  lemma OlderLoads(f: Files)
    requires ValidPair(f, f) && f.intent.None? && f.observation.None? && f.reconnect.None?
    ensures LoadConsistent(Disk([f], false)) == Loaded(f.manifest.value)
  {
  }

  lemma NeverOlderExactly(w: World, r: nat)
    requires w.disk.history != [] && RunOk(w.disk.history)
    requires LoadConsistent(w.disk).Loaded? && LoadConsistent(w.disk).manifest.revision == r
    ensures NeverOlder(w, r) <==> NoOlderPair(w.disk.history, r)
  {
    hide RunOk, LoadConsistent, Mixture, Steps, Legal;
    if NoOlderPair(w.disk.history, r) {
      NoOlderPairIsFloor(w.disk, r);
      forall more | Legal(w, more)
        ensures LoadsAbove(Steps(w, more).disk, r)
      {
        FloorHolds(w, more, r);
      }
    } else {
      var f := OlderPairLoads(w.disk, r);
      CrashRun(w, f);
      assert !LoadsAbove(Steps(w, [Crash(f, false)]).disk, r);
    }
  }

  /** In every state of every run in which a load succeeds: no later load of any
      continuation, with any faults and even reordering crashes, is older, if and only if
      the unsynced contents hold no older manifest together with a secret of its own. */
  lemma LoadsNeverFallExactly(events: seq<Event>)
    requires Legal(START, events) && LoadConsistent(Steps(START, events).disk).Loaded?
    ensures var w := Steps(START, events);
            var r := LoadConsistent(w.disk).manifest.revision;
            NeverOlder(w, r) <==> NoOlderPair(w.disk.history, r)
  {
    hide RunOk, NeverOlder, NoOlderPair, Steps, Legal, LoadConsistent;
    var w := Steps(START, events);
    ReachableIsOk(events);
    NeverOlderExactly(w, LoadConsistent(w.disk).manifest.revision);
  }

  predicate LoadsAbove(d: Disk, r: nat) {
    LoadConsistent(d).Loaded? ==> r <= LoadConsistent(d).manifest.revision
  }

  ghost predicate NeverOlder(w: World, r: nat) {
    forall more | Legal(w, more) :: LoadsAbove(Steps(w, more).disk, r)
  }

  lemma CrashRun(w: World, f: Files)
    requires Mixture(w.disk.history, f)
    ensures Legal(w, [Crash(f, false)]) && Steps(w, [Crash(f, false)]).disk == Disk([f], false)
  {
    var more := [Crash(f, false)];
    assert more[..0] == [];
    assert Steps(w, []) == w && Legal(w, []);
  }

  /** Active loads satisfy the condition always, so they never fall. */
  lemma ActiveLoadsNeverFall(events: seq<Event>)
    requires Legal(START, events)
    requires var loaded := LoadConsistent(Steps(START, events).disk);
             loaded.Loaded? && loaded.manifest.lifecycle.Active?
    ensures var w := Steps(START, events);
            NeverOlder(w, LoadConsistent(w.disk).manifest.revision)
  {
    hide NeverOlder, NoOlderPair, Steps, Legal, LoadConsistent, SecretsExplained, FirstExplained;
    var w := Steps(START, events);
    LoadsNeverFallExactly(events);
    ReachableIsOk(events);
    LoadedIsConsistent(w.disk);
    hide Pairwise, Consistent;
    ActiveHasNoOlderPair(w.disk.history);
  }
}
