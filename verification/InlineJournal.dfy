/** The durable receipt file as a compare-and-swap journal, with ambiguous
    directory syncs and crashes.

    A file whose directory sync failed may show either content after a crash, so
    the journal keeps every content that a crash could still bring back. */
module InlineJournal {
  import opened Base
  import opened InlineCheckpoint

  /** What the file system and the session made of one operation.
      `Refused` fails before the file is looked at, `Untouched` before the rename,
      `SyncFailed` after the rename, `LockLost` after a durable rename. */
  datatype Io = Refused | Untouched | SyncFailed | LockLost | Synced

  /** One content of the receipt file; `epoch` counts the seals that created it. */
  datatype Version = Version(epoch: nat, record: Option<Checkpoint>)

  datatype Journal = Journal(versions: seq<Version>, nextEpoch: nat) {
    function Last(): Version
      requires versions != []
    {
      versions[|versions| - 1]
    }

    function Visible(): Option<Checkpoint> {
      if versions == [] then None else Last().record
    }

    /** A rename shows at once; only a successful sync forgets older contents. */
    function Write(v: Version, io: Io): Journal {
      match io
      case Refused | Untouched => this
      case SyncFailed => this.(versions := versions + [v])
      case LockLost | Synced => this.(versions := [v])
    }
  }

  const EMPTY: Journal := Journal([Version(0, None)], 1)

  datatype Reply = Reply(journal: Journal, applied: bool, failed: bool)

  /** Seal an initial record. An identical record is accepted without a write, a
      different one is never overwritten. */
  function Seal(j: Journal, c: Checkpoint, io: Io): Reply {
    if !Valid(c) || c.progress.revision != 1 || io.Refused? then Reply(j, false, true)
    else match j.Visible()
         case Some(prior) => Reply(j, false, prior != c || io.LockLost?)
         case None =>
           var v := Version(j.nextEpoch, Some(c));
           Reply(j.Write(v, io).(nextEpoch := j.nextEpoch + 1), io.Synced?, !io.Synced?)
  }

  /** Compare-and-swap from `expected` to `next`. Only a newly committed transition
      is `applied`; an exact retry is observed without being applied. */
  function Advance(j: Journal, expected: Checkpoint, next: Checkpoint, io: Io): Reply {
    if !AdvanceFrom(next, expected) || io.Refused? then Reply(j, false, true)
    else match j.Visible()
         case None => Reply(j, false, true)
         case Some(prior) =>
           if prior == next then Reply(j, false, io.LockLost?)
           else if prior != expected then Reply(j, false, true)
           else Reply(j.Write(j.Last().(record := Some(next)), io), io.Synced?, !io.Synced?)
  }

  /** Remove an exactly matching record whose acknowledgement was recorded. */
  function Retire(j: Journal, c: Checkpoint, io: Io): Reply {
    if !Valid(c) || !c.progress.terminalAcked || io.Refused? then Reply(j, false, true)
    else if j.Visible() != Some(c) then Reply(j, false, true)
    else Reply(j.Write(j.Last().(record := None), io), false, !io.Synced?)
  }

  /** A crash leaves any content written since the last successful sync. */
  function Crash(j: Journal, pick: nat): Journal {
    if pick < |j.versions| then j.(versions := [j.versions[pick]]) else j
  }

  datatype Event =
    | SealCall(record: Checkpoint, io: Io)
    | AdvanceCall(expected: Checkpoint, next: Checkpoint, io: Io)
    | RetireCall(record: Checkpoint, io: Io)
    | CrashAt(pick: nat)

  /** One `applied` report: the winner of a compare-and-swap and its epoch. */
  datatype Report = Report(epoch: nat, record: Checkpoint)

  datatype Run = Run(journal: Journal, reports: seq<Report>)

  function Step(r: Run, e: Event): Run {
    match e
    case SealCall(c, io) => r.(journal := Seal(r.journal, c, io).journal)
    case AdvanceCall(expected, next, io) =>
      var reply := Advance(r.journal, expected, next, io);
      Run(reply.journal,
          if reply.applied && reply.journal.versions != []
          then r.reports + [Report(reply.journal.Last().epoch, next)] else r.reports)
    case RetireCall(c, io) => r.(journal := Retire(r.journal, c, io).journal)
    case CrashAt(pick) => r.(journal := Crash(r.journal, pick))
  }

  function Steps(r: Run, events: seq<Event>): Run
    decreases |events|
  {
    if events == [] then r
    else Step(Steps(r, events[..|events| - 1]), events[|events| - 1])
  }

  ghost predicate WellFormed(j: Journal) {
    && j.versions != []
    && (forall i | 0 <= i < |j.versions| ::
          && j.versions[i].epoch < j.nextEpoch
          && (j.versions[i].record.Some? ==> Valid(j.versions[i].record.value)))
  }

  ghost predicate Dominates(j: Journal, r: Report) {
    && r.epoch < j.nextEpoch
    && (forall i | 0 <= i < |j.versions| && j.versions[i].epoch == r.epoch && j.versions[i].record.Some? ::
          && j.versions[i].record.value.plan == r.record.plan
          && r.record.progress.revision <= j.versions[i].record.value.progress.revision)
  }

  ghost predicate Distinct(reports: seq<Report>) {
    forall i, j | 0 <= i < j < |reports| && reports[i].epoch == reports[j].epoch ::
      && reports[i].record.plan == reports[j].record.plan
      && reports[i].record.progress.revision < reports[j].record.progress.revision
  }

  ghost predicate Inv(r: Run) {
    && WellFormed(r.journal)
    && (forall i | 0 <= i < |r.reports| :: Dominates(r.journal, r.reports[i]))
    && Distinct(r.reports)
  }

  ghost predicate Fits(r: Run, v: Version) {
    && v.epoch < r.journal.nextEpoch
    && (v.record.Some? ==>
          && Valid(v.record.value)
          && (forall i | 0 <= i < |r.reports| && r.reports[i].epoch == v.epoch ::
                && r.reports[i].record.plan == v.record.value.plan
                && r.reports[i].record.progress.revision <= v.record.value.progress.revision))
  }

  lemma WriteKeepsInv(r: Run, v: Version, io: Io)
    requires Inv(r) && Fits(r, v)
    ensures Inv(r.(journal := r.journal.Write(v, io)))
  {
  }

  lemma AdvanceStrict(next: Checkpoint, expected: Checkpoint)
    requires AdvanceFrom(next, expected) && next != expected
    ensures Valid(next) && next.plan == expected.plan
    ensures next.progress.revision == expected.progress.revision + 1
  {
  }

  lemma AdvanceKeepsInv(r: Run, expected: Checkpoint, next: Checkpoint, io: Io)
    requires Inv(r)
    ensures Inv(Step(r, AdvanceCall(expected, next, io)))
  {
    hide Valid;
    var reply := Advance(r.journal, expected, next, io);
    if reply.journal != r.journal || reply.applied {
      AdvanceStrict(next, expected);
      var v := r.journal.Last().(record := Some(next));
      forall i | 0 <= i < |r.reports| && r.reports[i].epoch == v.epoch
        ensures r.reports[i].record.plan == next.plan
        ensures r.reports[i].record.progress.revision < next.progress.revision
      {
        assert Dominates(r.journal, r.reports[i]);
      }
      WriteKeepsInv(r, v, io);
    }
  }

  lemma StepKeepsInv(r: Run, e: Event)
    requires Inv(r)
    ensures Inv(Step(r, e))
  {
    hide Valid, Advance;
    match e {
      case SealCall(c, io) =>
        if Seal(r.journal, c, io).journal != r.journal {
          var s := r.(journal := r.journal.(nextEpoch := r.journal.nextEpoch + 1));
          forall i | 0 <= i < |r.reports|
            ensures Dominates(s.journal, r.reports[i])
          {
            assert Dominates(r.journal, r.reports[i]);
          }
          WriteKeepsInv(s, Version(r.journal.nextEpoch, Some(c)), io);
        }
      case AdvanceCall(expected, next, io) =>
        AdvanceKeepsInv(r, expected, next, io);
      case RetireCall(c, io) =>
        if Retire(r.journal, c, io).journal != r.journal {
          WriteKeepsInv(r, r.journal.Last().(record := None), io);
        }
      case CrashAt(pick) =>
        forall i | 0 <= i < |r.reports|
          ensures Dominates(Crash(r.journal, pick), r.reports[i])
        {
          assert Dominates(r.journal, r.reports[i]);
        }
    }
  }

  lemma {:induction false} StepsKeepInv(r: Run, events: seq<Event>)
    requires Inv(r)
    ensures Inv(Steps(r, events))
    decreases |events|
  {
    if events != [] {
      StepsKeepInv(r, events[..|events| - 1]);
      StepKeepsInv(Steps(r, events[..|events| - 1]), events[|events| - 1]);
    }
  }

  /** Over every sequence of seals, advances, exact retries, retirements, ambiguous
      writes and crashes: within one seal's lifetime no revision is applied twice,
      applied revisions only rise, and the plan never changes. */
  lemma AppliedOncePerRevision(events: seq<Event>, i: nat, j: nat)
    requires i < j < |Steps(Run(EMPTY, []), events).reports|
    ensures var reports := Steps(Run(EMPTY, []), events).reports;
            reports[i].epoch == reports[j].epoch ==>
              && reports[i].record.plan == reports[j].record.plan
              && reports[i].record.progress.revision < reports[j].record.progress.revision
  {
    StepsKeepInv(Run(EMPTY, []), events);
  }

  /** An applied advance is durable: no later crash can show an older content. */
  lemma AppliedIsDurable(j: Journal, expected: Checkpoint, next: Checkpoint, io: Io, pick: nat)
    requires Advance(j, expected, next, io).applied
    ensures Crash(Advance(j, expected, next, io).journal, pick).Visible() == Some(next)
    ensures AdvanceFrom(next, expected) && next != expected
  {
  }

  /** A refused, lost or ambiguous advance never reports a win, and an exact retry
      of a visible record is not one either. */
  lemma AppliedExactly(j: Journal, expected: Checkpoint, next: Checkpoint, io: Io)
    requires j.versions != []
    ensures Advance(j, expected, next, io).applied <==>
            AdvanceFrom(next, expected) && next != expected && j.Visible() == Some(expected) && io.Synced?
  {
  }
}
