/** An interrupted logout is finished by running it again: exactly when, over every run
    of attempts and crashes. */
module LocalResume {
  import opened Base
  import opened LocalRecords
  import opened LocalStore
  import opened LocalRuns
  import opened LocalShape
  import opened LocalDurable
  import opened LocalLogout

  // ---------------------------------------------------------------------------
  // Attempts and crashes in any order

  /** An attempt of the request with a clock that is not before the creation time, or a
      crash. */
  predicate Retry(e: Event, m: Manifest, r: Request) {
    e.Crash? || (e.call.LogoutCall? && e.call.request == r && m.createdAt <= e.call.requestedAt)
  }

  /** The file holds no more than an untouched installation may. */
  predicate Whole(f: Files, m: Manifest) {
    && f.secret.Some?
    && (f.observation.Some? ==> ObservationValid(f.observation.value, m))
    && (f.reconnect.Some? ==> ReconnectValid(f.reconnect.value, m))
  }

  /** The contents cannot be torn apart: if the active manifest may show without an
      intent, every content is whole, and if a logged-out one may show, all are empty. */
  ghost predicate Untorn(h: seq<Files>, m: Manifest) {
    && ((exists i | 0 <= i < |h| :: h[i].manifest == Some(m)) && (exists i | 0 <= i < |h| :: h[i].intent.None?) ==>
          forall i | 0 <= i < |h| :: Whole(h[i], m))
    && ((exists i | 0 <= i < |h| :: h[i].manifest != Some(m)) ==> forall i | 0 <= i < |h| :: Empty(h[i]))
  }

  lemma UntornStaysResumable(h: seq<Files>, f: Files, m: Manifest, r: Request)
    requires AllResumable(h, m, r) && Suits(m, r) && Untorn(h, m) && Mixture(h, f)
    ensures Resumable(f, m, r)
  {
    MixedParts(h, f, m, r);
    hide LogoutOf, IntentOf, SecretValid, AllResumable;
    var i :| 0 <= i < |h| && h[i].manifest == f.manifest;
    var j :| 0 <= j < |h| && h[j].intent == f.intent;
    if f.manifest != Some(m) {
      assert h[i].manifest != Some(m);
      EmptyMixture(h, f);
    } else if f.intent.None? {
      assert h[i].manifest == Some(m) && h[j].intent.None?;
      WholeMixture(h, f, m);
    }
  }

  lemma WholeMixture(h: seq<Files>, f: Files, m: Manifest)
    requires Mixture(h, f) && forall i | 0 <= i < |h| :: Whole(h[i], m)
    ensures Whole(f, m)
  {
    hide ObservationValid, ReconnectValid;
  }

  /** The crash content that shows the tear. */
  lemma TornIsNotResumable(h: seq<Files>, m: Manifest, r: Request) returns (f: Files)
    requires Suits(m, r) && !Untorn(h, m)
    ensures Mixture(h, f) && !Resumable(f, m, r)
  {
    hide Suits, Mixture, Resumable, ObservationValid, ReconnectValid;
    if (exists i | 0 <= i < |h| :: h[i].manifest != Some(m)) && exists k | 0 <= k < |h| :: !Empty(h[k]) {
      var i :| 0 <= i < |h| && h[i].manifest != Some(m);
      var k :| 0 <= k < |h| && !Empty(h[k]);
      f := h[k].(manifest := h[i].manifest);
      MixtureOfTwo(h, i, k, f);
      LeftoverIsNotResumable(f, m, r);
    } else {
      var i :| 0 <= i < |h| && h[i].manifest == Some(m);
      var j :| 0 <= j < |h| && h[j].intent.None?;
      var k :| 0 <= k < |h| && !Whole(h[k], m);
      f := h[k].(manifest := Some(m), intent := None);
      MixtureOfParts(h, i, j, k, f);
      BrokenIsNotResumable(f, m, r);
    }
  }

  /** A crash may take manifest, intent and the rest from three contents. */
  lemma MixtureOfParts(h: seq<Files>, i: nat, j: nat, k: nat, f: Files)
    requires i < |h| && j < |h| && k < |h|
    requires f == h[k].(manifest := h[i].manifest, intent := h[j].intent)
    ensures Mixture(h, f)
  {
  }

  lemma BrokenIsNotResumable(f: Files, m: Manifest, r: Request)
    requires Suits(m, r) && f.manifest == Some(m) && f.intent.None? && !Whole(f, m)
    ensures !Resumable(f, m, r)
  {
    UnstartedIsNotPending(f, m, r);
  }

  lemma LeftoverIsNotResumable(f: Files, m: Manifest, r: Request)
    requires f.manifest != Some(m) && !Empty(f)
    ensures !Resumable(f, m, r)
  {
    HoldingIsNotPending(f, m, r);
  }

  /** Every crash, reordering or not, leaves an untouched or pending directory so if and
      only if the contents since the last successful sync cannot be torn apart. */
  lemma CrashKeepsResumableExactly(h: seq<Files>, m: Manifest, r: Request)
    requires AllResumable(h, m, r) && Suits(m, r)
    ensures (forall f | Mixture(h, f) :: Resumable(f, m, r)) <==> Untorn(h, m)
  {
    hide Resumable, Mixture;
    if Untorn(h, m) {
      forall f | Mixture(h, f)
        ensures Resumable(f, m, r)
      {
        UntornStaysResumable(h, f, m, r);
      }
    } else {
      var f := TornIsNotResumable(h, m, r);
    }
  }

  /** Attempts and crashes, where each crash is ordered or strikes contents that cannot be
      torn apart. */
  ghost predicate Retries(w: World, events: seq<Event>, m: Manifest, r: Request)
    decreases |events|
  {
    events == [] ||
    (&& Retries(w, events[..|events| - 1], m, r)
     && Retry(events[|events| - 1], m, r)
     && var h := Steps(w, events[..|events| - 1]).disk.history;
     events[|events| - 1].Crash? ==> Prefix(h, events[|events| - 1].files) || Untorn(h, m))
  }

  lemma AttemptKeepsResumable(d: Disk, requestedAt: nat, committedAt: nat, faults: Faults, m: Manifest, r: Request)
    requires AllResumable(d.history, m, r) && Suits(m, r) && m.createdAt <= requestedAt
    ensures AllResumable(Logout(d, r, requestedAt, committedAt, faults).0.history, m, r)
  {
    assert Resumable(d.Visible(), m, r);
    hide Logout, Fresh, Pending, Suits;
    AttemptGrows(d, requestedAt, committedAt, faults, m, r);
  }

  lemma CrashKeepsResumable(h: seq<Files>, f: Files, m: Manifest, r: Request)
    requires AllResumable(h, m, r) && Suits(m, r) && Mixture(h, f) && (Prefix(h, f) || Untorn(h, m))
    ensures AllResumable([f], m, r)
  {
    hide Resumable, Suits, Mixture, Untorn;
    if Untorn(h, m) {
      UntornStaysResumable(h, f, m, r);
    }
  }

  lemma RetryKeepsResumable(w: World, e: Event, m: Manifest, r: Request)
    requires AllResumable(w.disk.history, m, r) && Suits(m, r) && Possible(w, e) && Retry(e, m, r)
    requires e.Crash? ==> Prefix(w.disk.history, e.files) || Untorn(w.disk.history, m)
    ensures AllResumable(Step(w, e).disk.history, m, r)
  {
    hide AllResumable, Suits, Mixture, Untorn, Prefix, Logout;
    match e {
      case Crash(f, _) => CrashKeepsResumable(w.disk.history, f, m, r);
      case Op(call, faults) => AttemptKeepsResumable(w.disk, call.requestedAt, call.committedAt, faults, m, r);
    }
  }

  /** Any attempts of the request and any such crashes, in any order and with any faults,
      leave only contents that are untouched or pending. */
  lemma {:induction false} RetriesAreResumable(w: World, events: seq<Event>, m: Manifest, r: Request)
    requires AllResumable(w.disk.history, m, r) && Suits(m, r)
    requires Legal(w, events) && Retries(w, events, m, r)
    ensures AllResumable(Steps(w, events).disk.history, m, r)
    decreases |events|
  {
    if events != [] {
      var n := |events| - 1;
      RetriesAreResumable(w, events[..n], m, r);
      hide AllResumable, Suits, Possible, Retry, Untorn, Prefix, Step;
      RetryKeepsResumable(Steps(w, events[..n]), events[n], m, r);
    }
  }

  ghost predicate NoFaults(faults: Faults) {
    forall k :: faults(k) == Done
  }

  /** Without further faults, without a leftover temporary file and with a clock that
      has not gone back, the request then succeeds: the manifest is logged out, every
      holding and the intent are gone. */
  lemma LogoutFinishes(d: Disk, requestedAt: nat, committedAt: nat, faults: Faults, m: Manifest, r: Request)
    requires !d.temp && Resumable(d.Visible(), m, r) && Suits(m, r) && NoFaults(faults)
    requires m.createdAt <= requestedAt <= committedAt
    requires d.Visible().intent.Some? ==> d.Visible().intent.value.requestedAt <= committedAt
    ensures var (d', reply) := Logout(d, r, requestedAt, committedAt, faults);
            && reply == LogoutDone(Succ(r.expectedRevision), r.requestId)
            && Closing(d'.Visible(), m, r) && d'.Visible().intent.None? && !d'.temp
  {
    var f := d.Visible();
    if Underway(f, m, r) {
      FinishSucceeds(d, m, r, committedAt, faults);
      hide FinishLogout, LoadConsistent;
    } else if Fresh(f, m) {
      var i := NewIntent(m, r, requestedAt);
      var d1 := WriteAtomic(d, f.(intent := Some(i)), faults(0)).0;
      FinishSucceeds(d1, m, r, committedAt, faults);
      hide FinishLogout;
    } else {
      hide LoadConsistent, FinishLogout;
    }
  }

  lemma FinishSucceeds(d: Disk, m: Manifest, r: Request, committedAt: nat, faults: Faults)
    requires Underway(d.Visible(), m, r) && Suits(m, r) && NoFaults(faults)
    requires d.Visible().intent.value.requestedAt <= committedAt
    ensures var (d', reply) := FinishLogout(d, m, d.Visible().intent.value, r, committedAt, faults);
            && reply == LogoutDone(Succ(r.expectedRevision), r.requestId)
            && Closing(d'.Visible(), m, r) && d'.Visible().intent.None? && d'.temp == d.temp
  {
    HoldingsGo(d, faults);
    hide RemoveHoldings;
    WrittenManifestIsReadable(m, r, d.Visible().intent.value, committedAt);
  }

  lemma HoldingsGo(d: Disk, faults: Faults)
    requires NoFaults(faults)
    ensures var (d', failed) := RemoveHoldings(d, faults);
            && failed.None? && d'.temp == d.temp
            && d'.Visible() == Files(d.Visible().manifest, None, d.Visible().intent, None, None, None)
  {
  }

  // ---------------------------------------------------------------------------
  // Exactly when a logout that starts can always be finished

  ghost predicate AllFresh(h: seq<Files>, m: Manifest) {
    h != [] && forall i | 0 <= i < |h| :: Fresh(h[i], m)
  }

  /** The request, run again without faults and with a clock that has not gone back, logs
      the installation out, unless a temporary file was left. */
  ghost predicate Finishes(d: Disk, m: Manifest, r: Request) {
    forall now, faults | Repeats(d, now, faults, m) :: !d.temp ==> Ends(Logout(d, r, now, now, faults), m, r)
  }

  ghost predicate Repeats(d: Disk, now: nat, faults: Faults, m: Manifest) {
    && NoFaults(faults) && m.createdAt <= now
    && (d.Visible().intent.Some? ==> d.Visible().intent.value.requestedAt <= now)
  }

  predicate Ends(outcome: (Disk, LogoutReply), m: Manifest, r: Request) {
    && outcome.1.LogoutDone?
    && Closing(outcome.0.Visible(), m, r) && outcome.0.Visible().intent.None?
  }

  /** Whatever attempts and crashes come, the request can then be finished. */
  ghost predicate AlwaysFinishes(w: World, m: Manifest, r: Request) {
    forall more | Legal(w, more) && Retries(w, more, m, r) :: Finishes(Steps(w, more).disk, m, r)
  }

  lemma ResumableFinishes(d: Disk, m: Manifest, r: Request)
    requires Resumable(d.Visible(), m, r) && Suits(m, r)
    ensures Finishes(d, m, r)
  {
    hide Resumable, Suits, Closing, Logout, NoFaults;
    forall now, faults | Repeats(d, now, faults, m)
      ensures !d.temp ==> Ends(Logout(d, r, now, now, faults), m, r)
    {
      if !d.temp {
        LogoutFinishes(d, now, now, faults, m, r);
      }
    }
  }

  lemma ResumableAlwaysFinishes(w: World, m: Manifest, r: Request)
    requires AllResumable(w.disk.history, m, r) && Suits(m, r)
    ensures AlwaysFinishes(w, m, r)
  {
    hide Resumable, Suits, Finishes, Legal, Retries, Steps;
    forall more | Legal(w, more) && Retries(w, more, m, r)
      ensures Finishes(Steps(w, more).disk, m, r)
    {
      RetriesAreResumable(w, more, m, r);
      var d := Steps(w, more).disk;
      assert Resumable(d.Visible(), m, r);
      ResumableFinishes(d, m, r);
    }
  }

  /** The request could start or go on from this directory. */
  predicate Open(f: Files, m: Manifest, r: Request) {
    Fresh(f, m) || Underway(f, m, r)
  }

  /** Every content of a reachable history is resumable or refuses the request. */
  lemma OtherContentRefuses(d: Disk, k: nat, now: nat, faults: Faults, m: Manifest, r: Request)
    requires k < |d.history| && RunOk(d.history) && Open(d.Visible(), m, r) && Suits(m, r)
    requires !Resumable(d.history[k], m, r)
    ensures Logout(Disk([d.history[k]], false), r, now, now, faults).1.LogoutFailed?
  {
    var f := d.history[k];
    if Fresh(d.Visible(), m) {
      FreshIsConsistent(d.Visible(), m, r);
      OldHistory(d);
    } else {
      LeavingHistory(d, k, m, r);
    }
    hide RunOk, Consistent, Underway;
    OtherIsRefused(f, now, faults, m, r);
  }

  lemma FreshIsConsistent(f: Files, m: Manifest, r: Request)
    requires Fresh(f, m) && Suits(m, r)
    ensures Consistent(f)
  {
  }

  /** Beside the intent: no newer and no logged-out manifest, no other of the same
      revision, no other intent and no other secret under it. */
  lemma LeavingHistory(d: Disk, k: nat, m: Manifest, r: Request)
    requires k < |d.history| && RunOk(d.history) && Underway(d.Visible(), m, r) && Suits(m, r)
    ensures var f := d.history[k];
            && (f.manifest.Some? ==>
                  && f.manifest.value.lifecycle.Active?
                  && (f.manifest.value.revision == m.revision ==> f.manifest == Some(m)))
            && (f.manifest == Some(m) && f.intent.Some? ==> Underway(f, m, r))
  {
    var f, last := d.history[k], d.Visible();
    assert Leads(f, d.history[|d.history| - 1]) && Matches(f, last) && Matches(last, f);
    assert OwnSecret(last, last, f);
    hide RunOk;
  }

  lemma OtherIsRefused(f: Files, now: nat, faults: Faults, m: Manifest, r: Request)
    requires !Resumable(f, m, r) && Suits(m, r)
    requires f.manifest.Some? ==>
               && f.manifest.value.lifecycle.Active?
               && (f.manifest.value.revision == m.revision ==> f.manifest == Some(m))
    requires f.manifest == Some(m) ==> f.intent.None?
    ensures Logout(Disk([f], false), r, now, now, faults).1.LogoutFailed?
  {
    hide FinishLogout, Pending;
  }

  /** One failed attempt and an ordered crash leave any content of the history. */
  lemma AttemptThenCrash(w: World, k: nat, m: Manifest, r: Request) returns (more: seq<Event>)
    requires k < |w.disk.history|
    ensures Legal(w, more) && Retries(w, more, m, r) && Steps(w, more).disk == Disk([w.disk.history[k]], false)
  {
    var none: Faults := n => Untouched(false);
    var attempt := Op(LogoutCall(r, m.createdAt, m.createdAt), none);
    var crash := Crash(w.disk.history[k], false);
    more := [attempt, crash];
    assert more[..1] == [attempt] && [attempt][..0] == [];
    assert Steps(w, []) == w;
    FailedAttempt(w.disk, m.createdAt, none, r);
    assert Steps(w, [attempt]).disk == w.disk;
    WholeContent(w.disk.history, k);
    hide Mixture, Logout, Untorn;
    assert Retries(w, [], m, r) && Retries(w, [attempt], m, r);
    assert Legal(w, []) && Legal(w, [attempt]);
  }

  /** An attempt of which no file action happens changes nothing. */
  lemma FailedAttempt(d: Disk, now: nat, faults: Faults, r: Request)
    requires forall n :: faults(n) == Untouched(false)
    ensures Logout(d, r, now, now, faults).0 == d
  {
    assert RemoveHoldings(d, faults).0 == d;
    hide RemoveHoldings, LoadConsistent;
  }

  lemma WholeContent(h: seq<Files>, k: nat)
    requires k < |h|
    ensures Prefix(h, h[k]) && Mixture(h, h[k])
  {
  }

  lemma NeverFinishes(d: Disk, k: nat, m: Manifest, r: Request)
    requires k < |d.history| && RunOk(d.history) && Open(d.Visible(), m, r) && Suits(m, r)
    requires !Resumable(d.history[k], m, r)
    ensures !Finishes(Disk([d.history[k]], false), m, r)
  {
    var f := d.history[k];
    var all: Faults := n => Done;
    var now := m.createdAt + if f.intent.Some? then f.intent.value.requestedAt else 0;
    hide RunOk, Open, Suits, Resumable, Logout;
    assert Repeats(Disk([f], false), now, all, m);
    OtherContentRefuses(d, k, now, all, m, r);
  }

  /** Beside an untouched installation a content is resumable only if it is untouched. */
  lemma FreshHistory(d: Disk, m: Manifest, r: Request)
    requires d.history != [] && RunOk(d.history) && Fresh(d.Visible(), m) && Suits(m, r)
    ensures AllResumable(d.history, m, r) <==> AllFresh(d.history, m)
  {
    FreshIsConsistent(d.Visible(), m, r);
    OldHistory(d);
    hide RunOk, Consistent;
    forall i | 0 <= i < |d.history|
      ensures !Pending(d.history[i], m, r)
    {
    }
    hide Fresh, Pending;
  }

  /** In every state of every run, with faults and reordering crashes anywhere, from which
      the request could start or go on: whatever attempts and crashes follow, the request
      can be finished, if and only if every unsynced content is untouched or pending, and
      if it has not started, if and only if every one is untouched. */
  lemma LogoutFinishesExactly(events: seq<Event>, m: Manifest, r: Request)
    requires Legal(START, events) && Suits(m, r) && Open(Steps(START, events).disk.Visible(), m, r)
    ensures var w := Steps(START, events);
            && (AlwaysFinishes(w, m, r) <==> AllResumable(w.disk.history, m, r))
            && (Fresh(w.disk.Visible(), m) ==> (AlwaysFinishes(w, m, r) <==> AllFresh(w.disk.history, m)))
  {
    var w := Steps(START, events);
    ReachableIsOk(events);
    hide Steps, Legal, RunOk, Open, Suits, Finishes, Logout, Resumable;
    if AllResumable(w.disk.history, m, r) {
      ResumableAlwaysFinishes(w, m, r);
    } else {
      var k :| 0 <= k < |w.disk.history| && !Resumable(w.disk.history[k], m, r);
      var more := AttemptThenCrash(w, k, m, r);
      NeverFinishes(w.disk, k, m, r);
    }
    if Fresh(w.disk.Visible(), m) {
      FreshHistory(w.disk, m, r);
    }
  }

  /** So it fails: an update whose manifest write was not synced loads, the new
      installation is logged out, no directory sync of that succeeds, and an ordered crash
      leaves the old manifest beside the new secret, for which every attempt is refused. */
  lemma UnsyncedUpdateStopsLogout(f: Files, m: Manifest, next: Manifest, s: Secret, r: Request, now: nat)
    returns (d: Disk, left: Files)
    requires Fresh(f, m) && Bare(f) && UpdateRefusal(Disk([f], false), m.revision, next, s).None?
    requires Suits(next, r) && next.createdAt <= now
    ensures var faults: Faults := n => if n == 3 then Unsynced else Done;
            d == Update(Disk([f], false), m.revision, next, s, faults).0
    ensures LoadConsistent(d) == Loaded(next) && Fresh(d.Visible(), next) && !AllFresh(d.history, next)
    ensures Prefix(Logout(d, r, now, now, n => Unsynced).0.history, left) && !Resumable(left, next, r)
    ensures forall later, faults :: Logout(Disk([left], false), r, later, later, faults).1.LogoutFailed?
  {
    left := f.(secret := Some(s));
    var last := left.(manifest := Some(next));
    var faults: Faults := n => if n == 3 then Unsynced else Done;
    d := Update(Disk([f], false), m.revision, next, s, faults).0;
    assert f.(reconnect := None) == f && f.(observation := None) == f;
    assert d == Disk([left, last], false);
    assert !Fresh(d.history[0], next);
    UnsyncedStart(d, now, next, r);
    forall later, faults
      ensures Logout(Disk([left], false), r, later, later, faults).1.LogoutFailed?
    {
      OtherIsRefused(left, later, faults, next, r);
    }
  }

  lemma UnsyncedStart(d: Disk, now: nat, m: Manifest, r: Request)
    requires d.history != [] && Fresh(d.Visible(), m) && Suits(m, r)
    ensures d.history <= Logout(d, r, now, now, n => Unsynced).0.history
  {
  }

  // ---------------------------------------------------------------------------
  // A crash after every attempt

  /** One attempt and the crash after it. */
  datatype Attempt = Attempt(requestedAt: nat, committedAt: nat, faults: Faults, left: Files, temp: bool)

  ghost predicate CrashedAttempts(d: Disk, r: Request, attempts: seq<Attempt>, m: Manifest, end: Disk)
    decreases |attempts|
  {
    if attempts == [] then end == d
    else
      var a := attempts[0];
      && m.createdAt <= a.requestedAt
      && Mixture(Logout(d, r, a.requestedAt, a.committedAt, a.faults).0.history, a.left)
      && CrashedAttempts(Disk([a.left], a.temp), r, attempts[1..], m, end)
  }

  lemma FreshStartIsWhole(d: Disk, begun: Files, m: Manifest, r: Request)
    requires AllFresh(d.history, m) && Suits(m, r) && begun == d.Visible().(intent := begun.intent)
    ensures Untorn(d.history, m) && Untorn(d.history + [begun], m)
  {
    var h := d.history + [begun];
    forall i | 0 <= i < |h|
      ensures Whole(h[i], m) && h[i].manifest == Some(m)
    {
      assert Fresh(if i < |d.history| then d.history[i] else d.Visible(), m);
    }
    hide Whole;
    assert forall i | 0 <= i < |d.history| :: d.history[i] == h[i];
  }

  /** A crash after one attempt from an untouched directory, synced or not, or from a
      durable pending one: even a reordering crash leaves it so. */
  lemma AttemptLeavesResumable(d: Disk, r: Request, a: Attempt, m: Manifest)
    requires Started(d, m, r) && Suits(m, r) && m.createdAt <= a.requestedAt
    requires Mixture(Logout(d, r, a.requestedAt, a.committedAt, a.faults).0.history, a.left)
    ensures Resumable(a.left, m, r)
  {
    var d' := Logout(d, r, a.requestedAt, a.committedAt, a.faults).0;
    StartedIsResumable(d, m, r);
    AttemptKeepsResumable(d, a.requestedAt, a.committedAt, a.faults, m, r);
    if d.Durable() {
      AttemptIsTidy(d, r, a.requestedAt, a.committedAt, a.faults);
      TidyIsResumable(d', a.left, m, r);
    } else {
      FirstAttempt(d, r, a.requestedAt, a.committedAt, a.faults, m);
      var begun := d.Visible().(intent := Some(NewIntent(m, r, a.requestedAt)));
      FreshStartIsWhole(d, begun, m, r);
      hide Logout, Suits, Mixture, Tidy, AllFresh, Untorn, AllResumable, Resumable;
      if Tidy(d') {
        TidyIsResumable(d', a.left, m, r);
      } else {
        UntornStaysResumable(d'.history, a.left, m, r);
      }
    }
  }

  lemma TidyIsResumable(d: Disk, f: Files, m: Manifest, r: Request)
    requires Tidy(d) && AllResumable(d.history, m, r) && Mixture(d.history, f)
    ensures Resumable(f, m, r)
  {
    hide Resumable, Mixture, Tidy;
    TidyCrashIsOrdered(d, f);
  }

  /** A first attempt writes nothing, or the intent unsynced, or goes on from a durable
      intent. */
  lemma FirstAttempt(d: Disk, r: Request, requestedAt: nat, committedAt: nat, faults: Faults, m: Manifest)
    requires d.history != [] && Fresh(d.Visible(), m)
    ensures var begun := d.Visible().(intent := Some(NewIntent(m, r, requestedAt)));
            var d' := Logout(d, r, requestedAt, committedAt, faults).0;
            d'.history == d.history || d'.history == d.history + [begun] || Tidy(d')
  {
    var i := NewIntent(m, r, requestedAt);
    var d1 := WriteAtomic(d, d.Visible().(intent := Some(i)), faults(0)).0;
    if faults(0).Done? {
      FinishIsTidy(d1, m, i, r, committedAt, faults);
    }
    hide FinishLogout, LoadConsistent, Tidy;
  }

  /** Untouched in every content, or durable and pending. */
  ghost predicate Started(d: Disk, m: Manifest, r: Request) {
    AllFresh(d.history, m) || (d.Durable() && Resumable(d.Visible(), m, r))
  }

  lemma StartedIsResumable(d: Disk, m: Manifest, r: Request)
    requires Started(d, m, r)
    ensures AllResumable(d.history, m, r)
  {
    hide Fresh, Pending;
  }

  /** Any number of attempts, each cut short after any file step by a crash, even a
      reordering one, leaves a directory that is untouched or pending. */
  lemma {:induction false} CrashedAttemptsAreResumable(d: Disk, r: Request, attempts: seq<Attempt>,
                                                       m: Manifest, end: Disk)
    requires Started(d, m, r) && Suits(m, r) && CrashedAttempts(d, r, attempts, m, end)
    ensures Started(end, m, r)
    decreases |attempts|
  {
    if attempts != [] {
      var a := attempts[0];
      AttemptLeavesResumable(d, r, a, m);
      hide Logout, Resumable, Mixture, Suits, AllFresh;
      CrashedAttemptsAreResumable(Disk([a.left], a.temp), r, attempts[1..], m, end);
    }
  }

  /** The two contents differ in at most one file. */
  predicate OneFile(f: Files, g: Files) {
    || g == f.(manifest := g.manifest) || g == f.(secret := g.secret) || g == f.(intent := g.intent)
    || g == f.(observation := g.observation) || g == f.(reconnect := g.reconnect) || g == f.(receipt := g.receipt)
  }

  /** At most the last file action is not durable. */
  predicate Tidy(d: Disk) {
    d.Durable() || (|d.history| == 2 && OneFile(d.history[0], d.history[1]))
  }

  /** Then even a reordering crash leaves one of the contents as a whole. */
  lemma TidyCrashIsOrdered(d: Disk, f: Files)
    requires Tidy(d) && Mixture(d.history, f)
    ensures Prefix(d.history, f)
  {
    if d.Durable() {
      assert d.history[0] == f;
    } else {
      assert f == d.history[0] || f == d.history[1];
    }
  }

  /** One file action from a durable directory. */
  lemma ActionIsTidy(d: Disk, next: Files, fault: Fault)
    requires d.Durable() && OneFile(d.Visible(), next)
    ensures var (d', failed) := WriteAtomic(d, next, fault); Tidy(d') && (failed.None? ==> d'.Durable())
    ensures var (d', failed) := RemoveDurable(d, next, fault); Tidy(d') && (failed.None? ==> d'.Durable())
  {
  }

  lemma RemoveHoldingsIsTidy(d: Disk, faults: Faults)
    requires d.Durable()
    ensures var (d', failed) := RemoveHoldings(d, faults); Tidy(d') && (failed.None? ==> d'.Durable())
  {
    hide WriteAtomic, RemoveDurable, Tidy;
    ActionIsTidy(d, d.Visible().(observation := None), faults(1));
    var (d1, failed1) := RemoveDurable(d, d.Visible().(observation := None), faults(1));
    if failed1.None? {
      ActionIsTidy(d1, d1.Visible().(reconnect := None), faults(2));
      var (d2, failed2) := RemoveDurable(d1, d1.Visible().(reconnect := None), faults(2));
      if failed2.None? {
        ActionIsTidy(d2, d2.Visible().(receipt := None), faults(3));
        var (d3, failed3) := RemoveDurable(d2, d2.Visible().(receipt := None), faults(3));
        if failed3.None? {
          ActionIsTidy(d3, d3.Visible().(secret := None), faults(4));
        }
      }
    }
  }

  lemma FinishIsTidy(d: Disk, m: Manifest, i: Intent, r: Request, committedAt: nat, faults: Faults)
    requires d.Durable()
    ensures Tidy(FinishLogout(d, m, i, r, committedAt, faults).0)
  {
    RemoveHoldingsIsTidy(d, faults);
    hide RemoveHoldings;
    var (d1, failed) := RemoveHoldings(d, faults);
    if failed.None? {
      var next := LoggedOutManifest(m, i, committedAt);
      ActionIsTidy(d1, d1.Visible().(manifest := Some(next)), faults(5));
      var (d2, failed2) := WriteAtomic(d1, d1.Visible().(manifest := Some(next)), faults(5));
      if failed2.None? {
        ActionIsTidy(d2, d2.Visible().(intent := None), faults(6));
      }
    }
  }

  /** An attempt stops at its first action that is not durable. */
  lemma AttemptIsTidy(d: Disk, r: Request, requestedAt: nat, committedAt: nat, faults: Faults)
    requires d.Durable()
    ensures Tidy(Logout(d, r, requestedAt, committedAt, faults).0)
  {
    hide FinishLogout, LoadConsistent;
    if LogoutRefusal(d, r).None? {
      var f := d.Visible();
      var m := f.manifest.value;
      ActionIsTidy(d, f.(intent := None), faults(6));
      if f.intent.Some? {
        FinishIsTidy(d, m, f.intent.value, r, committedAt, faults);
      } else {
        var i := NewIntent(m, r, requestedAt);
        ActionIsTidy(d, f.(intent := Some(i)), faults(0));
        if faults(0).Done? {
          FinishIsTidy(WriteAtomic(d, f.(intent := Some(i)), faults(0)).0, m, i, r, committedAt, faults);
        }
      }
    }
  }

  // ---------------------------------------------------------------------------
  // When a reported logout is durable, and what reordering crashes may do

  predicate Finished(f: Files) {
    f.manifest.Some? && f.manifest.value.lifecycle.LoggedOut? && f.intent.None?
  }

  /** A success is durable exactly when it did not merely repeat a logout that is
      visible but not yet durable: a repeat syncs nothing. */
  lemma ReportedLogoutIsDurableExactly(d: Disk, r: Request, requestedAt: nat, committedAt: nat, faults: Faults)
    requires d.history != [] && Logout(d, r, requestedAt, committedAt, faults).1.LogoutDone?
    ensures Logout(d, r, requestedAt, committedAt, faults).0.Durable() <==> (Finished(d.Visible()) ==> d.Durable())
  {
    hide RemoveHoldings;
  }

  /** The contents that repeated attempts leave one after the other while directory syncs
      fail: untouched, intent, no secret, logged out, no intent. */
  function Stages(f: Files, m: Manifest, r: Request, now: nat): seq<Files> {
    var i := NewIntent(m, r, now);
    var lo := LoggedOutManifest(m, i, now);
    [f, f.(intent := Some(i)), f.(intent := Some(i), secret := None),
     Files(Some(lo), None, Some(i), None, None, f.receipt), Files(Some(lo), None, None, None, None, f.receipt)]
  }

  /** An installation that holds nothing but its manifest and its secret. */
  predicate Bare(f: Files) {
    f.observation.None? && f.reconnect.None? && f.receipt.None?
  }

  lemma StagesArePending(f: Files, m: Manifest, r: Request, now: nat)
    requires Fresh(f, m) && Bare(f) && Suits(m, r) && m.createdAt <= now
    ensures AllPending(Stages(f, m, r, now)[1..], m, r)
    ensures LoadConsistent(Disk([Stages(f, m, r, now)[4]], false)) ==
            Loaded(LoggedOutManifest(m, NewIntent(m, r, now), now))
  {
    WrittenManifestIsReadable(m, r, NewIntent(m, r, now), now);
  }

  /** Each attempt whose directory syncs fail takes the next stage. */
  lemma UnsyncedAttempt(h: seq<Files>, f: Files, m: Manifest, r: Request, now: nat, k: nat)
    requires Fresh(f, m) && Bare(f) && Suits(m, r) && m.createdAt <= now && k < 4
    requires h != [] && h[|h| - 1] == Stages(f, m, r, now)[k]
    ensures Logout(Disk(h, false), r, now, now, n => Unsynced).0 == Disk(h + [Stages(f, m, r, now)[k + 1]], false)
  {
    WrittenManifestIsReadable(m, r, NewIntent(m, r, now), now);
  }

  /** Five attempts whose directory syncs all fail end in a reported success, after which
      the logged-out manifest loads, and which an ordered crash takes back entirely. */
  lemma UnsyncedLogoutCanBeUndone(f: Files, m: Manifest, r: Request, now: nat) returns (d: Disk)
    requires Fresh(f, m) && Bare(f) && Suits(m, r) && m.createdAt <= now
    ensures d == Disk(Stages(f, m, r, now), false)
    ensures Logout(d, r, now, now, n => Unsynced) == (d, LogoutDone(Succ(r.expectedRevision), r.requestId))
    ensures LoadConsistent(d) == Loaded(LoggedOutManifest(m, NewIntent(m, r, now), now))
    ensures Prefix(d.history, f) && LoadConsistent(Disk([f], false)) == Loaded(m)
  {
    var s := Stages(f, m, r, now);
    UnsyncedAttempt(s[..1], f, m, r, now, 0);
    UnsyncedAttempt(s[..2], f, m, r, now, 1);
    UnsyncedAttempt(s[..3], f, m, r, now, 2);
    UnsyncedAttempt(s[..4], f, m, r, now, 3);
    assert s[..1] + [s[1]] == s[..2] && s[..2] + [s[2]] == s[..3] && s[..3] + [s[3]] == s[..4] && s[..4] + [s[4]] == s;
    d := Disk(s, false);
    StagesArePending(f, m, r, now);
    assert d.history[0] == f;
    WrittenManifestIsReadable(m, r, NewIntent(m, r, now), now);
  }

  /** A durable intent does not survive three failed syncs and a reordering crash: the
      contents since the intent was synced are all pending, yet together they hold the
      whole untouched installation, which loads and serves its secret again. */
  lemma ReorderedCrashRevives(f: Files, m: Manifest, r: Request, now: nat) returns (d: Disk)
    requires Fresh(f, m) && Bare(f) && Suits(m, r) && m.createdAt <= now
    ensures d.history == Stages(f, m, r, now)[1..]
    ensures AllPending(d.history, m, r) && !NoSplit(d.history, m)
    ensures Mixture(d.history, f) && !Pending(f, m, r)
    ensures LoadConsistent(Disk([f], false)) == Loaded(m) && LoadSecret(Disk([f], false)).SecretLoaded?
  {
    StagesArePending(f, m, r, now);
    d := Disk(Stages(f, m, r, now)[1..], false);
    StagesMix(f, m, r, now, f);
    hide Stages, AllPending, Mixture, NoSplit;
  }

  /** The stages after the intent mix to the active manifest without the intent, with or
      without its secret. */
  lemma StagesMix(f: Files, m: Manifest, r: Request, now: nat, left: Files)
    requires f.manifest == Some(m) && f.intent.None? && Bare(f) && m.lifecycle.Active?
    requires left == f || left == f.(secret := None)
    ensures var h := Stages(f, m, r, now)[1..]; Mixture(h, left) && !NoSplit(h, m) && !Prefix(h, left)
  {
    var s := Stages(f, m, r, now);
    var h := s[1..];
    assert h[0] == s[1] && h[1] == s[2] && h[2] == s[3] && h[3] == s[4];
    MixtureOfTwo(h, 0, 3, left);
    assert h[0].manifest == Some(m) && h[3].intent.None?;
    hide Mixture;
    forall k | 0 <= k < |h|
      ensures h[k] != left
    {
      assert h[k] == s[k + 1];
    }
  }

  /** Those contents are reached: one attempt makes the intent durable, three more fail
      to sync. */
  lemma RevivableIsReached(f: Files, m: Manifest, r: Request, now: nat)
    requires Fresh(f, m) && Bare(f) && Suits(m, r) && m.createdAt <= now
    ensures var s := Stages(f, m, r, now);
            var first: Faults := n => if n == 0 then Done else Unsynced;
            && Logout(Disk([f], false), r, now, now, first).0 == Disk(s[1..3], false)
            && Logout(Disk(s[1..3], false), r, now, now, n => Unsynced).0 == Disk(s[1..4], false)
            && Logout(Disk(s[1..4], false), r, now, now, n => Unsynced).0 == Disk(s[1..], false)
  {
    var s := Stages(f, m, r, now);
    UnsyncedAttempt(s[1..3], f, m, r, now, 2);
    UnsyncedAttempt(s[1..4], f, m, r, now, 3);
    assert s[1..3] + [s[3]] == s[1..4] && s[1..4] + [s[4]] == s[1..];
    assert s[1..3] == [s[1]] + [s[2]];
  }

  /** What a directory must show for the same request to be answered as done. */
  predicate Answerable(f: Files, m: Manifest) {
    if f.manifest == Some(m) then f.intent.Some? || LoadConsistent(Disk([f], false)).Loaded?
    else f.secret.None? && f.observation.None? && f.reconnect.None?
  }

  /** What it must show for the request to finish: a logged-out directory may not hold a
      receipt either, because a repeated logout does not look at it. */
  predicate Finishable(f: Files, m: Manifest) {
    Answerable(f, m) && (f.manifest != Some(m) ==> f.receipt.None?)
  }

  /** A file system that reorders unsynced directory changes may leave a logout, with its
      intent durable or not, in a state that the same request cannot finish, with every
      holding and the intent gone; this is exactly when. */
  lemma ReorderedCrashFinishesExactly(h: seq<Files>, f: Files, now: nat, faults: Faults, m: Manifest, r: Request)
    requires AllResumable(h, m, r) && Suits(m, r) && Mixture(h, f) && NoFaults(faults)
    requires m.createdAt <= now
    requires f.intent.Some? ==> f.intent.value.requestedAt <= now
    ensures var (d', reply) := Logout(Disk([f], false), r, now, now, faults);
            (reply.LogoutDone? && Closing(d'.Visible(), m, r) && d'.Visible().intent.None?) <==> Finishable(f, m)
  {
    ReorderedCrashAnswersExactly(h, f, now, faults, m, r);
    MixedParts(h, f, m, r);
    var d := Disk([f], false);
    if Answerable(f, m) {
      if f.manifest == Some(m) {
        LogoutFinishes(d, now, now, faults, m, r);
      } else {
        hide FinishLogout;
      }
    }
  }

  /** When the same request is answered as done after such a crash. */
  lemma ReorderedCrashAnswersExactly(h: seq<Files>, f: Files, now: nat, faults: Faults, m: Manifest, r: Request)
    requires AllResumable(h, m, r) && Suits(m, r) && Mixture(h, f) && NoFaults(faults)
    requires m.createdAt <= now
    requires f.intent.Some? ==> f.intent.value.requestedAt <= now
    ensures Logout(Disk([f], false), r, now, now, faults).1.LogoutDone? <==> Answerable(f, m)
  {
    MixedParts(h, f, m, r);
    var d := Disk([f], false);
    if f.manifest == Some(m) && Answerable(f, m) {
      LogoutFinishes(d, now, now, faults, m, r);
    }
    hide FinishLogout;
  }

  /** The content that loses the unsynced manifest but keeps the removals is stuck. */
  lemma ReorderedCrashStrands(f: Files, m: Manifest, r: Request, now: nat) returns (d: Disk, left: Files)
    requires Fresh(f, m) && Bare(f) && Suits(m, r) && m.createdAt <= now
    ensures AllPending(d.history, m, r) && d.history == Stages(f, m, r, now)[1..]
    ensures Mixture(d.history, left) && !Prefix(d.history, left) && !Answerable(left, m)
  {
    d := ReorderedCrashRevives(f, m, r, now);
    left := f.(secret := None);
    StagesMix(f, m, r, now, left);
    hide Stages, AllPending, Mixture, Prefix, NoSplit, Pending;
  }

  /** The contents that repeated attempts leave since the intent became durable, for an
      installation with a receipt: intent, no receipt, no secret, logged out. */
  function ReceiptStages(f: Files, m: Manifest, r: Request, now: nat): seq<Files> {
    var i := NewIntent(m, r, now);
    var begun := f.(intent := Some(i));
    [begun, begun.(receipt := None), begun.(receipt := None, secret := None),
     begun.(receipt := None, secret := None, manifest := Some(LoggedOutManifest(m, i, now)))]
  }

  /** A logout can be answered as done with a receipt still on disk: the crash keeps the
      unsynced logged-out manifest and the removal of the secret, but not the removal of
      the receipt, and the repeated request does not look at the receipt file. */
  lemma ReceiptCanSurviveLogout(f: Files, x: Receipt, m: Manifest, r: Request, now: nat, faults: Faults)
    returns (h: seq<Files>, left: Files)
    requires Fresh(f, m) && Suits(m, r) && m.createdAt <= now && NoFaults(faults)
    requires f.receipt == Some(x) && f.observation.None? && f.reconnect.None?
    ensures h == ReceiptStages(f, m, r, now)
    ensures AllPending(h, m, r) && Mixture(h, left) && Answerable(left, m) && !Finishable(left, m)
    ensures var (d', reply) := Logout(Disk([left], false), r, now, now, faults);
            reply.LogoutDone? && d'.Visible().receipt == Some(x)
  {
    WrittenManifestIsReadable(m, r, NewIntent(m, r, now), now);
    h := ReceiptStages(f, m, r, now);
    left := h[3].(receipt := Some(x));
    MixtureOfTwo(h, 0, 3, left);
  }

  /** Those contents are reached: one attempt makes the intent durable, and each of three
      removals and writes after it fails to sync. */
  lemma SurvivalIsReached(f: Files, m: Manifest, r: Request, now: nat)
    requires Fresh(f, m) && Suits(m, r) && m.createdAt <= now
    requires f.receipt.Some? && f.observation.None? && f.reconnect.None?
    ensures var h := ReceiptStages(f, m, r, now);
            var first: Faults := n => if n == 0 then Done else Unsynced;
            && Logout(Disk([f], false), r, now, now, first).0 == Disk(h[..2], false)
            && Logout(Disk(h[..2], false), r, now, now, n => Unsynced).0 == Disk(h[..3], false)
            && Logout(Disk(h[..3], false), r, now, now, n => Unsynced).0 == Disk(h, false)
  {
    var h := ReceiptStages(f, m, r, now);
    assert h[..2] == [h[0]] + [h[1]] && h[..2] + [h[2]] == h[..3] && h[..3] + [h[3]] == h;
  }
}
