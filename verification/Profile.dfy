/** An activation profile pinned at one manifest, against the manifests that later
    committed updates produce. */
module Profile {
  import opened LocalRecords
  import opened LocalStore
  import opened LocalRuns

  /** `launch` stands for the digest of the OCI and harness configuration; `wellFormed`
      for the version, mode, worker revision and capability checks. */
  datatype Profile = Profile(
    manifestRevision: nat,
    connection: nat,
    enrollment: nat,
    installation: Installation,
    launch: string,
    wellFormed: bool)

  predicate MatchesManifest(p: Profile, m: Manifest) {
    && p.manifestRevision <= m.revision
    && p.connection <= m.connection
    && m.revision - p.manifestRevision == m.connection - p.connection
    && m.launch == p.launch
    && p.wellFormed
    && m.lifecycle.Active?
    && m.installation == p.installation
    && m.enrollment == p.enrollment
  }

  predicate PinnedAt(p: Profile, m: Manifest) {
    p.wellFormed && p == Profile(m.revision, m.connection, m.enrollment, m.installation, m.launch, true)
  }

  /** What every committed update does to the manifest. */
  predicate Succeeds(next: Manifest, current: Manifest) {
    && next.revision == current.revision + 1
    && SameInstallation(current, next)
    && next.lifecycle.Active?
    && SameOrNext(current.enrollment, next.enrollment)
    && SameOrNext(current.connection, next.connection)
  }

  /** Every update of the local store that begins to write, reported as successful or not,
      is such a step from the manifest that the store loads. */
  lemma UpdatesSucceed(d: Disk, expected: nat, m: Manifest, s: Secret, faults: Faults)
    requires Update(d, expected, m, s, faults).1.None? || UpdateRefusal(d, expected, m, s).None?
    ensures LoadConsistent(d).Loaded? && Succeeds(m, LoadConsistent(d).manifest)
  {
  }

  ghost predicate Chain(ms: seq<Manifest>) {
    ms != [] && forall i | 0 <= i < |ms| - 1 :: Succeeds(ms[i + 1], ms[i])
  }

  /** Every step raised the connection generation and left the enrollment alone. */
  ghost predicate OnlyReconnects(ms: seq<Manifest>) {
    forall i | 0 <= i < |ms| - 1 ::
      ms[i + 1].connection == ms[i].connection + 1 && ms[i + 1].enrollment == ms[i].enrollment
  }

  lemma {:induction false} ChainBounds(ms: seq<Manifest>)
    requires Chain(ms)
    ensures var first, last, n := ms[0], ms[|ms| - 1], |ms| - 1;
            && last.revision == first.revision + n
            && first.connection <= last.connection <= first.connection + n
            && first.enrollment <= last.enrollment
            && last.installation == first.installation
            && (last.connection == first.connection + n && last.enrollment == first.enrollment <==> OnlyReconnects(ms))
    decreases |ms|
  {
    if |ms| > 1 {
      var before := ms[..|ms| - 1];
      ChainBounds(before);
      assert OnlyReconnects(ms) <==>
             && OnlyReconnects(before)
             && ms[|ms| - 1].connection == before[|before| - 1].connection + 1
             && ms[|ms| - 1].enrollment == before[|before| - 1].enrollment by {
        var n := |ms| - 2;
        if OnlyReconnects(ms) {
          assert ms[n + 1].connection == ms[n].connection + 1;
        }
      }
    }
  }

  /** A profile pinned at the first manifest of a chain of committed updates accepts the
      last one exactly when every update in between was a reconnection, and the launch
      configuration is the pinned one. */
  lemma AcceptsExactlyReconnections(p: Profile, ms: seq<Manifest>)
    requires Chain(ms) && PinnedAt(p, ms[0]) && ms[0].lifecycle.Active?
    ensures MatchesManifest(p, ms[|ms| - 1]) <==> OnlyReconnects(ms) && ms[|ms| - 1].launch == ms[0].launch
  {
    ChainBounds(ms);
    if |ms| > 1 {
      var n := |ms| - 2;
      assert Succeeds(ms[n + 1], ms[n]);
    }
  }

  // ---------------------------------------------------------------------------
  // The commits of the local store form such chains

  /** The commit starts an installation or succeeds an earlier commit. */
  ghost predicate Rooted(commits: seq<Pair>, k: nat)
    requires k < |commits|
  {
    || commits[k].manifest.revision == 1
    || exists j | 0 <= j < k :: Succeeds(commits[k].manifest, commits[j].manifest)
  }

  ghost predicate AllRooted(commits: seq<Pair>) {
    forall k: nat | k < |commits| :: commits[k].manifest.lifecycle.Active? && Rooted(commits, k)
  }

  lemma CommitIsRooted(w: World, call: Call, faults: Faults)
    requires Inv(w) && AllRooted(w.commits)
    ensures AllRooted(Do(w, call, faults).commits)
  {
    hide Inv, DiskAfter, Serves;
    if BeginsCommit(w.disk, call) {
      var commits := w.commits + [Pair(call.manifest, call.secret)];
      var n := |w.commits|;
      if call.UpdateCall? {
        UpdatesSucceed(w.disk, call.expected, call.manifest, call.secret, faults);
        ConsistentPair(w);
        var j :| 0 <= j < n && w.commits[j] == Pair(w.disk.Visible().manifest.value, w.disk.Visible().secret.value);
        assert Succeeds(commits[n].manifest, commits[j].manifest);
      }
      forall k: nat | k < |commits|
        ensures commits[k].manifest.lifecycle.Active? && Rooted(commits, k)
      {
        if k < n {
          assert Rooted(w.commits, k) && commits[k] == w.commits[k];
          if commits[k].manifest.revision != 1 {
            var j :| 0 <= j < k && Succeeds(w.commits[k].manifest, w.commits[j].manifest);
            assert Succeeds(commits[k].manifest, commits[j].manifest);
          }
        }
      }
    }
  }

  /** Over every run of the store, with faults and reordering crashes anywhere, every
      commit that began starts an installation or succeeds an earlier commit. */
  lemma {:induction false} CommitsAreRooted(events: seq<Event>)
    requires Legal(START, events)
    ensures AllRooted(Steps(START, events).commits)
    decreases |events|
  {
    if events != [] {
      var before := Steps(START, events[..|events| - 1]);
      CommitsAreRooted(events[..|events| - 1]);
      StepsKeep(START, events[..|events| - 1]);
      hide Inv, AllRooted;
      match events[|events| - 1] {
        case Op(call, faults) =>
          hide Do;
          CommitIsRooted(before, call, faults);
        case Crash(_, _) =>
      }
    }
  }

  /** So every commit ends a chain of commits from the start of its installation, to which
      the pinned profile's condition applies. */
  lemma {:induction false} CommitEndsChain(commits: seq<Pair>, k: nat) returns (ms: seq<Manifest>)
    requires AllRooted(commits) && k < |commits|
    ensures Chain(ms) && ms[0].revision == 1 && ms[|ms| - 1] == commits[k].manifest
    ensures forall i | 0 <= i < |ms| :: exists j | 0 <= j <= k :: commits[j].manifest == ms[i]
    decreases k
  {
    hide Succeeds;
    assert Rooted(commits, k);
    if commits[k].manifest.revision == 1 {
      ms := [commits[k].manifest];
    } else {
      var j :| 0 <= j < k && Succeeds(commits[k].manifest, commits[j].manifest);
      var before := CommitEndsChain(commits, j);
      ms := before + [commits[k].manifest];
      forall i | 0 <= i < |ms| - 1
        ensures Succeeds(ms[i + 1], ms[i])
      {
        if i < |before| - 1 {
          assert Succeeds(before[i + 1], before[i]);
        }
      }
      forall i | 0 <= i < |ms|
        ensures exists n | 0 <= n <= k :: commits[n].manifest == ms[i]
      {
        if i < |before| {
          var n :| 0 <= n <= j && commits[n].manifest == before[i];
          assert commits[n].manifest == ms[i];
        }
      }
    }
  }
}
