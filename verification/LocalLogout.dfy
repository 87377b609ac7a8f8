/** Logout over every run: once its intent is durable nothing else succeeds, and its
    result is fixed. */
module LocalLogout {
  import opened Base
  import opened LocalRecords
  import opened LocalStore
  import opened LocalRuns

  // ---------------------------------------------------------------------------
  // The stages of one logout of manifest `m` by request `r`

  predicate Empty(f: Files) {
    f.secret.None? && f.observation.None? && f.reconnect.None? && f.receipt.None?
  }

  /** The manifest that a logout of `m` by `r` leaves, at some commit time. */
  predicate LogoutOf(next: Manifest, m: Manifest, r: Request) {
    && ManifestValid(next)
    && next.lifecycle.LoggedOut?
    && next.lifecycle.logout.requestId == r.requestId
    && next == m.(revision := Succ(r.expectedRevision), updatedAt := next.updatedAt, lifecycle := next.lifecycle)
  }

  predicate IntentOf(i: Option<Intent>, m: Manifest, r: Request) {
    i.Some? && IntentValid(i.value) && IntentMatches(i.value, m, r) && m.createdAt <= i.value.requestedAt
  }

  /** The intent is written; the manifest is still active. */
  predicate Underway(f: Files, m: Manifest, r: Request) {
    f.manifest == Some(m) && IntentOf(f.intent, m, r) && (f.secret.Some? ==> SecretValid(f.secret.value, m))
  }

  /** The manifest is logged out; the intent may still be there. */
  predicate Closing(f: Files, m: Manifest, r: Request) {
    && f.manifest.Some? && LogoutOf(f.manifest.value, m, r) && Empty(f)
    && (f.intent.Some? ==> IntentOf(f.intent, m, r))
  }

  predicate Pending(f: Files, m: Manifest, r: Request) {
    Underway(f, m, r) || Closing(f, m, r)
  }

  /** What the request must be for the manifest it logs out. */
  predicate Suits(m: Manifest, r: Request) {
    && ManifestValid(m) && m.lifecycle.Active?
    && r.expectedRevision == m.revision && m.revision != MAX_UINT64
    && RequestIdValid(r.requestId)
  }

  ghost predicate AllPending(h: seq<Files>, m: Manifest, r: Request) {
    h != [] && forall i | 0 <= i < |h| :: Pending(h[i], m, r)
  }

  /** A directory from which the request has not started. */
  predicate Fresh(f: Files, m: Manifest) {
    f.manifest == Some(m) && f.intent.None? && LoadConsistent(Disk([f], false)) == Loaded(m)
  }

  predicate Resumable(f: Files, m: Manifest, r: Request) {
    Fresh(f, m) || Pending(f, m, r)
  }

  ghost predicate AllResumable(h: seq<Files>, m: Manifest, r: Request) {
    h != [] && forall i | 0 <= i < |h| :: Resumable(h[i], m, r)
  }

  /** What attempts of the request do to the contents `h`: they add pending ones only. */
  ghost predicate Grows(h: seq<Files>, h': seq<Files>, m: Manifest, r: Request) {
    h' != [] && forall i | 0 <= i < |h'| :: h'[i] in h || Pending(h'[i], m, r)
  }

  lemma WriteGrows(h: seq<Files>, d: Disk, next: Files, fault: Fault, m: Manifest, r: Request)
    requires Grows(h, d.history, m, r) && Pending(next, m, r)
    ensures Grows(h, WriteAtomic(d, next, fault).0.history, m, r)
    ensures Grows(h, RemoveDurable(d, next, fault).0.history, m, r)
  {
    hide Pending;
  }

  /** Exactly the clock decides whether the manifest that a logout writes, without
      validating it again, can be read back. */
  lemma WrittenManifestIsReadable(m: Manifest, r: Request, i: Intent, committedAt: nat)
    requires Suits(m, r) && IntentValid(i) && IntentMatches(i, m, r) && i.requestedAt <= committedAt
    ensures ManifestValid(LoggedOutManifest(m, i, committedAt)) <==> m.createdAt <= committedAt
    ensures m.createdAt <= committedAt ==> LogoutOf(LoggedOutManifest(m, i, committedAt), m, r)
  {
  }

  // ---------------------------------------------------------------------------
  // While a logout is pending nothing else succeeds

  /** No read, no update and no other write succeeds or changes a file, except that a
      finished logout can be loaded. */
  lemma PendingExcludesOthers(w: World, call: Call, faults: Faults, m: Manifest, r: Request)
    requires Pending(w.disk.Visible(), m, r) && Suits(m, r) && !call.LogoutCall?
    ensures Do(w, call, faults) == w
    ensures LoadConsistent(w.disk).Loaded? ==> Closing(w.disk.Visible(), m, r) && w.disk.Visible().intent.None?
  {
    hide ObservationValid, ReconnectValid, ReceiptReadable;
    NotActive(w.disk, m, r);
    hide LoadConsistent;
    match call {
      case UpdateCall(expected, next, s) => RefusedUpdate(w.disk, expected, next, s, faults);
      case _ =>
    }
    SideCallsNeedActive(w.disk, call, faults);
  }

  lemma NotActive(d: Disk, m: Manifest, r: Request)
    requires Pending(d.Visible(), m, r)
    ensures d.Visible().manifest.Some?
    ensures LoadConsistent(d).Loaded? ==>
              && LoadConsistent(d).manifest.lifecycle.LoggedOut? && d.Visible().secret.None?
              && Closing(d.Visible(), m, r) && d.Visible().intent.None?
              && Empty(d.Visible())
    ensures !LoadSecret(d).SecretLoaded?
  {
  }

  lemma SideCallsNeedActive(d: Disk, call: Call, faults: Faults)
    requires d.Visible().manifest.Some? && !call.LogoutCall?
    requires LoadConsistent(d).Loaded? ==> LoadConsistent(d).manifest.lifecycle.LoggedOut? && Empty(d.Visible())
    ensures DiskAfter(d, call, faults) == d
  {
    hide LoadConsistent;
  }

  /** A different request is refused without touching a file. */
  lemma OtherRequestRefused(d: Disk, other: Request, requestedAt: nat, committedAt: nat, faults: Faults,
                            m: Manifest, r: Request)
    requires Pending(d.Visible(), m, r) && Suits(m, r) && other != r
    ensures Logout(d, other, requestedAt, committedAt, faults).0 == d
    ensures Logout(d, other, requestedAt, committedAt, faults).1.LogoutFailed?
  {
  }

  // ---------------------------------------------------------------------------
  // The same request keeps the logout pending, whatever its file actions do

  lemma RemoveHoldingsGrows(h: seq<Files>, d: Disk, faults: Faults, m: Manifest, r: Request)
    requires Grows(h, d.history, m, r) && Underway(d.Visible(), m, r)
    ensures var (d', failed) := RemoveHoldings(d, faults);
            && Grows(h, d'.history, m, r) && Underway(d'.Visible(), m, r)
            && (failed.None? ==> Empty(d'.Visible()))
            && d'.Visible().intent == d.Visible().intent
  {
    RemoveEvidenceGrows(h, d, faults, m, r);
    hide RemoveEvidence, Grows, WriteAtomic, SecretValid, IntentOf;
    var d1 := RemoveEvidence(d, faults).0;
    WriteGrows(h, d1, d1.Visible().(receipt := None), faults(3), m, r);
    var d2 := RemoveDurable(d1, d1.Visible().(receipt := None), faults(3)).0;
    WriteGrows(h, d2, d2.Visible().(secret := None), faults(4), m, r);
  }

  lemma RemoveEvidenceGrows(h: seq<Files>, d: Disk, faults: Faults, m: Manifest, r: Request)
    requires Grows(h, d.history, m, r) && Underway(d.Visible(), m, r)
    ensures var (d', failed) := RemoveEvidence(d, faults);
            && Grows(h, d'.history, m, r) && Underway(d'.Visible(), m, r)
            && (failed.None? ==> d'.Visible().observation.None? && d'.Visible().reconnect.None?)
            && d'.Visible().intent == d.Visible().intent
  {
    hide Grows, WriteAtomic, SecretValid, IntentOf;
    WriteGrows(h, d, d.Visible().(observation := None), faults(1), m, r);
    var d1 := RemoveDurable(d, d.Visible().(observation := None), faults(1)).0;
    WriteGrows(h, d1, d1.Visible().(reconnect := None), faults(2), m, r);
  }

  lemma FinishGrows(h: seq<Files>, d: Disk, m: Manifest, r: Request, committedAt: nat, faults: Faults)
    requires Grows(h, d.history, m, r) && Underway(d.Visible(), m, r) && Suits(m, r)
    ensures var (d', reply) := FinishLogout(d, m, d.Visible().intent.value, r, committedAt, faults);
            && Grows(h, d'.history, m, r)
            && (reply.LogoutDone? ==> reply == LogoutDone(Succ(r.expectedRevision), r.requestId) && d'.Durable())
  {
    var i := d.Visible().intent.value;
    RemoveHoldingsGrows(h, d, faults, m, r);
    hide RemoveHoldings, Grows;
      var (d1, failed) := RemoveHoldings(d, faults);
    if failed.None? && i.requestedAt <= committedAt {
      var next := LoggedOutManifest(m, i, committedAt);
      WrittenManifestIsReadable(m, r, i, committedAt);
      hide SecretValid, ManifestValid, IntentOf;
      WriteGrows(h, d1, d1.Visible().(manifest := Some(next)), faults(5), m, r);
      var d2 := WriteAtomic(d1, d1.Visible().(manifest := Some(next)), faults(5)).0;
      if faults(5).Done? {
        WriteGrows(h, d2, d2.Visible().(intent := None), faults(6), m, r);
      }
    }
  }

  /** Any attempt of the request, from an untouched or pending directory and with any
      faults, adds only pending contents, and every success returns the same result. */
  lemma AttemptGrows(d: Disk, requestedAt: nat, committedAt: nat, faults: Faults, m: Manifest, r: Request)
    requires d.history != [] && Resumable(d.Visible(), m, r) && Suits(m, r)
    requires Fresh(d.Visible(), m) ==> m.createdAt <= requestedAt
    ensures var (d', reply) := Logout(d, r, requestedAt, committedAt, faults);
            && Grows(d.history, d'.history, m, r)
            && (reply.LogoutDone? ==> reply == LogoutDone(Succ(r.expectedRevision), r.requestId))
  {
    var f, h := d.Visible(), d.history;
    assert Grows(h, h, m, r);
    if LogoutRefusal(d, r).None? {
      if Underway(f, m, r) {
        FinishGrows(h, d, m, r, committedAt, faults);
        hide FinishLogout, LoadConsistent;
      } else if Closing(f, m, r) {
        WriteGrows(h, d, f.(intent := None), faults(6), m, r);
      } else {
        StartGrows(d, requestedAt, committedAt, faults, m, r);
      }
    }
  }

  lemma StartGrows(d: Disk, requestedAt: nat, committedAt: nat, faults: Faults, m: Manifest, r: Request)
    requires d.history != [] && Fresh(d.Visible(), m) && Suits(m, r) && m.createdAt <= requestedAt
    requires LogoutRefusal(d, r).None?
    ensures var (d', reply) := Logout(d, r, requestedAt, committedAt, faults);
            && Grows(d.history, d'.history, m, r)
            && (reply.LogoutDone? ==> reply == LogoutDone(Succ(r.expectedRevision), r.requestId))
  {
    var f, h := d.Visible(), d.history;
    var begun := f.(intent := Some(NewIntent(m, r, requestedAt)));
    assert Grows(h, h, m, r) && Underway(begun, m, r);
    WriteGrows(h, d, begun, faults(0), m, r);
    if faults(0).Done? {
      FinishGrows(h, WriteAtomic(d, begun, faults(0)).0, m, r, committedAt, faults);
    }
    hide FinishLogout, Grows;
  }

  /** Any attempt of the same request, with any faults and any clock, keeps every
      content that an ordered crash may leave pending, and every success returns
      the same result. */
  lemma SameRequestKeepsPending(d: Disk, requestedAt: nat, committedAt: nat, faults: Faults, m: Manifest, r: Request)
    requires AllPending(d.history, m, r) && Suits(m, r)
    ensures var (d', reply) := Logout(d, r, requestedAt, committedAt, faults);
            && AllPending(d'.history, m, r)
            && (reply.LogoutDone? ==> reply == LogoutDone(Succ(r.expectedRevision), r.requestId))
  {
    assert Pending(d.Visible(), m, r);
    PendingIsNotFresh(d.Visible(), m, r);
    hide Pending, Logout, Suits, Fresh;
    AttemptGrows(d, requestedAt, committedAt, faults, m, r);
  }

  lemma PendingIsNotFresh(f: Files, m: Manifest, r: Request)
    requires Pending(f, m, r) && Suits(m, r)
    ensures !Fresh(f, m)
  {
  }

  /** An ordered crash keeps a pending logout pending. */
  lemma CrashKeepsPending(d: Disk, f: Files, m: Manifest, r: Request)
    requires AllPending(d.history, m, r) && Prefix(d.history, f)
    ensures AllPending([f], m, r)
  {
  }

  /** The unsynced contents cannot be split: an active manifest never meets a content
      without the intent, nor a logged-out manifest one with a holding. */
  ghost predicate NoSplit(h: seq<Files>, m: Manifest) {
    && ((exists i | 0 <= i < |h| :: h[i].manifest == Some(m)) ==> forall i | 0 <= i < |h| :: h[i].intent.Some?)
    && ((exists i | 0 <= i < |h| :: h[i].manifest != Some(m)) ==> forall i | 0 <= i < |h| :: Empty(h[i]))
  }

  /** Manifest, intent and secret of any crash content of untouched and pending ones. */
  lemma MixedParts(h: seq<Files>, f: Files, m: Manifest, r: Request)
    requires AllResumable(h, m, r) && Mixture(h, f)
    ensures f.manifest == Some(m) || (f.manifest.Some? && LogoutOf(f.manifest.value, m, r))
    ensures f.intent.Some? ==> IntentOf(f.intent, m, r)
    ensures f.secret.Some? ==> SecretValid(f.secret.value, m)
  {
    hide LogoutOf, IntentOf, SecretValid;
    var i :| 0 <= i < |h| && h[i].manifest == f.manifest;
    var j :| 0 <= j < |h| && h[j].secret == f.secret;
    var k :| 0 <= k < |h| && h[k].intent == f.intent;
    assert Resumable(h[i], m, r) && Resumable(h[j], m, r) && Resumable(h[k], m, r);
  }

  lemma UnsplitStaysPending(h: seq<Files>, f: Files, m: Manifest, r: Request)
    requires AllPending(h, m, r) && NoSplit(h, m) && Mixture(h, f)
    ensures Pending(f, m, r)
  {
    MixedParts(h, f, m, r);
    hide LogoutOf, IntentOf, SecretValid;
    var i :| 0 <= i < |h| && h[i].manifest == f.manifest;
    var j :| 0 <= j < |h| && h[j].intent == f.intent;
    if f.manifest == Some(m) {
      assert h[i].manifest == Some(m) && h[j].intent.Some?;
    } else {
      assert h[i].manifest != Some(m);
      EmptyMixture(h, f);
    }
  }

  lemma EmptyMixture(h: seq<Files>, f: Files)
    requires Mixture(h, f) && forall i | 0 <= i < |h| :: Empty(h[i])
    ensures Empty(f)
  {
  }

  /** Each file is one of two contents. */
  lemma MixtureOfTwo(h: seq<Files>, i: nat, j: nat, f: Files)
    requires i < |h| && j < |h|
    requires f.manifest == h[i].manifest || f.manifest == h[j].manifest
    requires f.secret == h[i].secret || f.secret == h[j].secret
    requires f.intent == h[i].intent || f.intent == h[j].intent
    requires f.observation == h[i].observation || f.observation == h[j].observation
    requires f.reconnect == h[i].reconnect || f.reconnect == h[j].reconnect
    requires f.receipt == h[i].receipt || f.receipt == h[j].receipt
    ensures Mixture(h, f)
  {
  }

  lemma UnstartedIsNotPending(f: Files, m: Manifest, r: Request)
    requires f.manifest == Some(m) && f.intent.None? && Suits(m, r)
    ensures !Pending(f, m, r)
  {
    hide SecretValid, IntentValid, IntentMatches;
  }

  lemma HoldingIsNotPending(f: Files, m: Manifest, r: Request)
    requires f.manifest != Some(m) && !Empty(f)
    ensures !Pending(f, m, r)
  {
    hide SecretValid, IntentValid, IntentMatches;
  }

  /** The crash content that shows a split: the manifest of one content, everything else
      of another. */
  lemma SplitIsNotPending(h: seq<Files>, m: Manifest, r: Request) returns (f: Files)
    requires AllPending(h, m, r) && Suits(m, r) && !NoSplit(h, m)
    ensures Mixture(h, f) && !Pending(f, m, r)
  {
    hide AllPending, Suits, Mixture, Pending;
    if (exists i | 0 <= i < |h| :: h[i].manifest == Some(m)) && exists i | 0 <= i < |h| :: h[i].intent.None? {
      var i :| 0 <= i < |h| && h[i].manifest == Some(m);
      var j :| 0 <= j < |h| && h[j].intent.None?;
      f := h[j].(manifest := Some(m));
      MixtureOfTwo(h, i, j, f);
      UnstartedIsNotPending(f, m, r);
    } else {
      var i :| 0 <= i < |h| && h[i].manifest != Some(m);
      var j :| 0 <= j < |h| && !Empty(h[j]);
      f := h[j].(manifest := h[i].manifest);
      MixtureOfTwo(h, i, j, f);
      HoldingIsNotPending(f, m, r);
    }
  }

  /** Every crash, reordering or not, leaves a pending logout pending if and only if the
      contents since the last successful sync cannot be split. */
  lemma CrashKeepsPendingExactly(h: seq<Files>, m: Manifest, r: Request)
    requires AllPending(h, m, r) && Suits(m, r)
    ensures (forall f | Mixture(h, f) :: Pending(f, m, r)) <==> NoSplit(h, m)
  {
    hide Pending, Mixture;
    if NoSplit(h, m) {
      forall f | Mixture(h, f)
        ensures Pending(f, m, r)
      {
        UnsplitStaysPending(h, f, m, r);
      }
    } else {
      var f := SplitIsNotPending(h, m, r);
    }
  }

  /** Every crash of the run is ordered or strikes contents that cannot be split. */
  ghost predicate Unsplit(w: World, events: seq<Event>, m: Manifest)
    decreases |events|
  {
    events == [] ||
    (&& Unsplit(w, events[..|events| - 1], m)
     && var h := Steps(w, events[..|events| - 1]).disk.history;
     events[|events| - 1].Crash? ==> Prefix(h, events[|events| - 1].files) || NoSplit(h, m))
  }

  /** Once the intent is durable: over every run of any operations, any faults and any
      crashes that are ordered or strike contents that cannot be split, the logout stays
      pending, no pair is served and no commit begins. */
  lemma {:induction false} DurableIntentIsFinal(w: World, events: seq<Event>, m: Manifest, r: Request)
    requires AllPending(w.disk.history, m, r) && Suits(m, r) && Legal(w, events) && Unsplit(w, events, m)
    ensures var end := Steps(w, events);
            AllPending(end.disk.history, m, r) && end.served == w.served && end.commits == w.commits
    decreases |events|
  {
    if events != [] {
      var before := Steps(w, events[..|events| - 1]);
      DurableIntentIsFinal(w, events[..|events| - 1], m, r);
      match events[|events| - 1] {
        case Crash(f, temp) =>
          if Prefix(before.disk.history, f) {
            CrashKeepsPending(before.disk, f, m, r);
          } else {
            UnsplitStaysPending(before.disk.history, f, m, r);
          }
        case Op(call, faults) => OpKeepsPending(before, call, faults, m, r);
      }
    }
  }

  lemma OpKeepsPending(w: World, call: Call, faults: Faults, m: Manifest, r: Request)
    requires AllPending(w.disk.history, m, r) && Suits(m, r)
    ensures var w' := Do(w, call, faults);
            AllPending(w'.disk.history, m, r) && w'.served == w.served && w'.commits == w.commits
  {
    assert Pending(w.disk.Visible(), m, r);
    hide Pending, Suits, Logout;
    if call.LogoutCall? {
      if call.request == r {
        SameRequestKeepsPending(w.disk, call.requestedAt, call.committedAt, faults, m, r);
      } else {
        OtherRequestRefused(w.disk, call.request, call.requestedAt, call.committedAt, faults, m, r);
      }
    } else {
      PendingExcludesOthers(w, call, faults, m, r);
    }
  }
}
