/** The daemon: one run loop, and Drain, Shutdown and CancelActive from anywhere.
    Every function below is one critical section of the daemon's mutex; a machine
    interleaves them in any order that the run loop's program counter allows. */
module Daemon {
  import opened Base
  import opened LocalRecords
  import Store = LocalStore

  /** `cancel` says that the cancel function of the active attempt is installed. */
  datatype State = State(
    phase: DaemonState,
    active: bool,
    identity: Option<Identity>,
    cancel: bool,
    cancelIssued: bool,
    cancelOnInstall: bool,
    accepted: nat,
    completed: nat,
    committed: nat,
    failed: nat,
    lastFailure: string)

  const STOPPED: State := State(DaemonStopped, false, None, false, false, false, 0, 0, 0, 0, "")

  function BeginRun(d: State): (State, bool) {
    if !d.phase.DaemonStopped? then (d, false) else (d.(phase := DaemonRunning), true)
  }

  function FinishRun(d: State): State {
    d.(phase := DaemonStopped, active := false, identity := None, cancel := false,
    cancelIssued := false, cancelOnInstall := false)
  }

  function BeginAttempt(d: State, id: Identity): (State, bool) {
    if !d.phase.DaemonRunning? || d.active then (d, false)
    else (d.(active := true, identity := Some(id), cancelIssued := false, accepted := d.accepted + 1), true)
  }

  /** Install the cancel function; the result says whether it must fire at once. */
  function InstallCancel(d: State): (State, bool) {
    var fire := d.cancelOnInstall && !d.cancelIssued;
    (d.(cancel := true, cancelIssued := d.cancelIssued || fire), fire)
  }

  function UninstallCancel(d: State): State {
    d.(cancel := false)
  }

  datatype CancelReply = Cancelled | AlreadyCancelled | AttemptMissing | AttemptMismatch

  function CancelActive(d: State, id: Identity): (State, CancelReply) {
    if !d.active then (d, AttemptMissing)
    else if d.identity != Some(id) then (d, AttemptMismatch)
    else if d.cancelIssued then (d, AlreadyCancelled)
    else if !d.cancel then (d, AttemptMissing)
    else (d.(cancelIssued := true), Cancelled)
  }

  function FailureAfter(result: RunResult, runFailed: bool, reportFailed: bool): string {
    if reportFailed then "terminal_unconfirmed"
    else if result.failure == "" && runFailed then "invocation_runner_failed"
    else if result.failure == "" && !result.Succeeded(runFailed) then "invocation_process_failed"
    else result.failure
  }

  function FinishAttempt(d: State, result: RunResult, runFailed: bool, reportFailed: bool): State {
    var succeeded := result.Succeeded(runFailed);
    d.(active := false, identity := None, cancel := false, cancelIssued := false,
    completed := d.completed + 1,
    committed := if !reportFailed && succeeded then d.committed + 1 else d.committed,
    failed := if !reportFailed && !succeeded then d.failed + 1 else d.failed,
    lastFailure := FailureAfter(result, runFailed, reportFailed))
  }

  datatype DrainReply = NotRunning | Draining(fires: bool)

  function StartDrain(d: State, cancelActive: bool): (State, DrainReply) {
    if d.phase.DaemonStopped? then (d, NotRunning)
    else
      var fires := cancelActive && d.cancel && !d.cancelIssued;
      (d.(phase := DaemonDraining, cancelOnInstall := d.cancelOnInstall || cancelActive,
       cancelIssued := d.cancelIssued || fires), Draining(fires))
  }

  // ---------------------------------------------------------------------------
  // The interleaving

  /** Where the run loop is. */
  datatype Pc = Out | Looping | Accepted | Running | Reporting | Leaving

  /** What happened; attempts are numbered from zero in the order they begin. */
  datatype Entry =
    | Begun(n: nat)
    | ShutdownHit(n: nat)
    | Fired(n: nat)
    | Uninstalled(n: nat)
    | Finished(n: nat, confirmed: bool, succeeded: bool)
    | DrainStarted
    | RunStopped

  datatype Machine = Machine(state: State, pc: Pc, attempts: nat, trace: seq<Entry>)

  const START: Machine := Machine(STOPPED, Out, 0, [])

  datatype Step =
    | BeginRunStep
    | DrainSeen
    | SourceEnds
    | BeginStep(id: Identity)
    | InstallStep
    | RunnerReturns
    | FinishStep(result: RunResult, runFailed: bool, reportFailed: bool)
    | FinishRunStep
    | DrainStep
    | ShutdownStep
    | CancelStep(id: Identity)

  function Log(m: Machine, e: Entry): Machine {
    m.(trace := m.trace + [e])
  }

  function Current(m: Machine): nat {
    if m.attempts == 0 then 0 else m.attempts - 1
  }

  /** The cancel of the current attempt is issued, if it must; the function itself is
      called after the mutex is released. */
  function Fire(m: Machine, fires: bool): Machine {
    if fires then Log(m, Fired(Current(m))) else m
  }

  /** A shutdown hits an attempt whose cancel function was not yet uninstalled. */
  function Hit(m: Machine): Machine {
    if m.pc.Accepted? || m.pc.Running? then Log(m, ShutdownHit(Current(m))) else m
  }

  function DrainAll(m: Machine, cancelActive: bool): Machine {
    var (d, reply) := StartDrain(m.state, cancelActive);
    match reply
    case NotRunning => m
    case Draining(fires) =>
      var m1 := Log(m.(state := d), DrainStarted);
      Fire(if cancelActive then Hit(m1) else m1, fires)
  }

  function Advance(m: Machine, s: Step): Machine {
    match s
    case BeginRunStep =>
      var (d, ok) := BeginRun(m.state);
      if ok then m.(state := d, pc := Looping) else m
    case DrainSeen => if m.pc.Looping? && m.state.phase.DaemonDraining? then m.(pc := Leaving) else m
    case SourceEnds => if m.pc.Looping? then m.(pc := Leaving) else m
    case BeginStep(id) =>
      if !m.pc.Looping? then m
      else
        var (d, ok) := BeginAttempt(m.state, id);
        if ok then Log(m.(state := d, pc := Accepted, attempts := m.attempts + 1), Begun(m.attempts))
        else m.(pc := Leaving)
    case InstallStep =>
      if !m.pc.Accepted? then m
      else
        var (d, fires) := InstallCancel(m.state);
        Fire(m.(state := d, pc := Running), fires)
    case RunnerReturns =>
      if !m.pc.Running? then m
      else Log(m.(state := UninstallCancel(m.state), pc := Reporting), Uninstalled(Current(m)))
    case FinishStep(result, runFailed, reportFailed) =>
      if !m.pc.Reporting? then m
      else
        Log(m.(state := FinishAttempt(m.state, result, runFailed, reportFailed),
            pc := if runFailed || reportFailed then Leaving else Looping),
            Finished(Current(m), !reportFailed, result.Succeeded(runFailed)))
    case FinishRunStep =>
      if !m.pc.Leaving? then m else Log(m.(state := FinishRun(m.state), pc := Out), RunStopped)
    case DrainStep => DrainAll(m, false)
    case ShutdownStep => DrainAll(m, true)
    case CancelStep(id) =>
      var (d, reply) := CancelActive(m.state, id);
      Fire(m.(state := d), reply.Cancelled?)
  }

  function Steps(m: Machine, steps: seq<Step>): Machine
    decreases |steps|
  {
    if steps == [] then m
    else Advance(Steps(m, steps[..|steps| - 1]), steps[|steps| - 1])
  }

  // ---------------------------------------------------------------------------
  // What every run keeps

  function Fires(t: seq<Entry>, n: nat): nat {
    if t == [] then 0
    else Fires(t[..|t| - 1], n) + if t[|t| - 1] == Fired(n) then 1 else 0
  }

  /** Attempts that began, that finished, that finished with a confirmed success and that
      finished with a confirmed failure. */
  datatype Tally = Tally(begun: nat, finished: nat, succeeded: nat, failed: nat)

  function TallyOf(t: seq<Entry>): Tally {
    if t == [] then Tally(0, 0, 0, 0)
    else
      var before := TallyOf(t[..|t| - 1]);
      match t[|t| - 1]
      case Begun(_) => before.(begun := before.begun + 1)
      case Finished(_, confirmed, succeeded) =>
        before.(finished := before.finished + 1,
        succeeded := if confirmed && succeeded then before.succeeded + 1 else before.succeeded,
        failed := if confirmed && !succeeded then before.failed + 1 else before.failed)
      case _ => before
  }

  /** A drain started and the run has not stopped since. */
  predicate DrainPending(t: seq<Entry>) {
    t != [] && (t[|t| - 1].DrainStarted? || (!t[|t| - 1].RunStopped? && DrainPending(t[..|t| - 1])))
  }

  predicate Has(t: seq<Entry>, e: Entry) {
    e in t
  }

  ghost predicate EntryOk(t: seq<Entry>, e: Entry) {
    match e
    case Begun(n) => !DrainPending(t) && Fires(t, n) == 0
    case ShutdownHit(n) => Has(t, Begun(n)) && !Has(t, Uninstalled(n))
    case Fired(n) => Has(t, Begun(n)) && !Has(t, Uninstalled(n)) && Fires(t, n) == 0
    case Uninstalled(n) => Has(t, ShutdownHit(n)) ==> Fires(t, n) == 1
    case Finished(n, _, _) => Has(t, Uninstalled(n))
    case DrainStarted => true
    case RunStopped => true
  }

  ghost predicate TraceOk(t: seq<Entry>) {
    forall k | 0 <= k < |t| :: EntryOk(t[..k], t[k])
  }

  /** Counters of accepted, completed, committed and failed attempts. */
  predicate CountersOk(d: State) {
    && d.accepted == d.completed + (if d.active then 1 else 0)
    && d.committed + d.failed <= d.completed
  }

  ghost predicate StateOk(m: Machine) {
    var d := m.state;
    && CountersOk(d)
    && (m.pc.Out? <==> d.phase.DaemonStopped?)
    && (d.active <==> m.pc.Accepted? || m.pc.Running? || m.pc.Reporting?)
    && (d.cancel <==> m.pc.Running?)
    && (d.active ==> m.attempts > 0)
    && (d.cancelIssued ==> d.active)
    && (d.cancelOnInstall ==> d.phase.DaemonDraining?)
    && (m.pc.Out? ==> !d.cancelOnInstall)
    && (m.pc.Accepted? ==> !d.cancelIssued)
  }

  /** The trace agrees with the state about the current attempt. */
  ghost predicate HistoryOk(m: Machine) {
    var d, t, n := m.state, m.trace, Current(m);
    && (DrainPending(t) <==> d.phase.DaemonDraining?)
    && TallyOf(t) == Tally(d.accepted, d.completed, d.committed, d.failed)
    && (m.pc.Reporting? ==> Has(t, Uninstalled(n)))
    && (forall k | k >= m.attempts :: Fires(t, k) == 0 && !Has(t, Uninstalled(k)))
    && (forall k | k >= m.attempts :: !Has(t, ShutdownHit(k)))
    && (d.active ==> Has(t, Begun(n)) && Fires(t, n) == (if d.cancelIssued then 1 else 0))
    && (m.pc.Accepted? || m.pc.Running? ==> !Has(t, Uninstalled(n)))
    && (m.pc.Accepted? && Has(t, ShutdownHit(n)) ==> d.cancelOnInstall)
    && (m.pc.Running? && Has(t, ShutdownHit(n)) ==> d.cancelIssued)
  }

  ghost predicate Inv(m: Machine) {
    TraceOk(m.trace) && StateOk(m) && HistoryOk(m)
  }

  lemma Record(t: seq<Entry>, e: Entry)
    requires TraceOk(t) && EntryOk(t, e)
    ensures TraceOk(t + [e])
    ensures forall n :: Fires(t + [e], n) == Fires(t, n) + if e == Fired(n) then 1 else 0
    ensures forall x :: Has(t + [e], x) <==> Has(t, x) || x == e
    ensures DrainPending(t + [e]) <==> e.DrainStarted? || (!e.RunStopped? && DrainPending(t))
    ensures !e.Begun? && !e.Finished? ==> TallyOf(t + [e]) == TallyOf(t)
    ensures e.Begun? ==> TallyOf(t + [e]) == TallyOf(t).(begun := TallyOf(t).begun + 1)
    ensures e.Finished? ==>
              var a, b := TallyOf(t), TallyOf(t + [e]);
              && b.begun == a.begun && b.finished == a.finished + 1
              && b.succeeded == a.succeeded + (if e.confirmed && e.succeeded then 1 else 0)
              && b.failed == a.failed + (if e.confirmed && !e.succeeded then 1 else 0)
  {
    var t' := t + [e];
    assert t'[..|t|] == t;
    forall k | 0 <= k < |t'|
      ensures EntryOk(t'[..k], t'[k])
    {
      assert t'[..k] == if k < |t| then t[..k] else t;
    }
  }

  lemma FireKeeps(m: Machine, d: State)
    requires Inv(m) && m.pc.Running? && !m.state.cancelIssued
    requires d == m.state.(cancelIssued := true)
    ensures Inv(Fire(m.(state := d), true))
  {
    hide Has, Fires, DrainPending, TallyOf, TraceOk;
    Record(m.trace, Fired(Current(m)));
  }

  lemma InstallKeeps(m: Machine)
    requires Inv(m) && m.pc.Accepted?
    ensures Inv(Advance(m, InstallStep))
  {
    hide Has, Fires, DrainPending, TallyOf, TraceOk;
    if InstallCancel(m.state).1 {
      Record(m.trace, Fired(Current(m)));
    }
  }

  lemma BeginKeeps(m: Machine, id: Identity)
    requires Inv(m)
    ensures Inv(Advance(m, BeginStep(id)))
  {
    hide Has, Fires, DrainPending, TallyOf, TraceOk;
    if m.pc.Looping? && BeginAttempt(m.state, id).1 {
      Record(m.trace, Begun(m.attempts));
    }
  }

  lemma UninstallKeeps(m: Machine)
    requires Inv(m)
    ensures Inv(Advance(m, RunnerReturns))
  {
    hide Has, Fires, DrainPending, TallyOf, TraceOk;
    if m.pc.Running? {
      Record(m.trace, Uninstalled(Current(m)));
    }
  }

  lemma FinishKeeps(m: Machine, result: RunResult, runFailed: bool, reportFailed: bool)
    requires Inv(m)
    ensures Inv(Advance(m, FinishStep(result, runFailed, reportFailed)))
  {
    hide Has, Fires, DrainPending, TallyOf, TraceOk;
    if m.pc.Reporting? {
      Record(m.trace, Finished(Current(m), !reportFailed, result.Succeeded(runFailed)));
    }
  }

  lemma FinishRunKeeps(m: Machine)
    requires Inv(m)
    ensures Inv(Advance(m, FinishRunStep))
  {
    hide Has, Fires, DrainPending, TallyOf, TraceOk;
    if m.pc.Leaving? {
      Record(m.trace, RunStopped);
    }
  }

  lemma DrainKeeps(m: Machine)
    requires Inv(m)
    ensures Inv(DrainAll(m, false))
  {
    hide Has, Fires, DrainPending, TallyOf, TraceOk;
    if !m.state.phase.DaemonStopped? {
      Record(m.trace, DrainStarted);
    }
  }

  lemma ShutdownKeeps(m: Machine)
    requires Inv(m)
    ensures Inv(DrainAll(m, true))
  {
    hide Has, Fires, DrainPending, TallyOf, TraceOk;
    if !m.state.phase.DaemonStopped? {
      Record(m.trace, DrainStarted);
      var t1 := m.trace + [DrainStarted];
      if m.pc.Accepted? || m.pc.Running? {
        Record(t1, ShutdownHit(Current(m)));
        if StartDrain(m.state, true).1.fires {
          Record(t1 + [ShutdownHit(Current(m))], Fired(Current(m)));
        }
      }
    }
  }

  lemma AdvanceKeeps(m: Machine, s: Step)
    requires Inv(m)
    ensures Inv(Advance(m, s))
  {
    hide Has, Fires, DrainPending, TallyOf, TraceOk;
    match s {
      case BeginStep(id) => BeginKeeps(m, id);
      case InstallStep => if m.pc.Accepted? { InstallKeeps(m); }
      case RunnerReturns => UninstallKeeps(m);
      case FinishStep(result, runFailed, reportFailed) => FinishKeeps(m, result, runFailed, reportFailed);
      case FinishRunStep => FinishRunKeeps(m);
      case DrainStep => DrainKeeps(m);
      case ShutdownStep => ShutdownKeeps(m);
      case CancelStep(id) =>
        if CancelActive(m.state, id).1.Cancelled? {
          FireKeeps(m, CancelActive(m.state, id).0);
        }
      case _ =>
    }
  }

  lemma {:induction false} StepsKeep(m: Machine, steps: seq<Step>)
    requires Inv(m)
    ensures Inv(Steps(m, steps))
    decreases |steps|
  {
    if steps != [] {
      hide Inv, Advance;
      StepsKeep(m, steps[..|steps| - 1]);
      AdvanceKeeps(Steps(m, steps[..|steps| - 1]), steps[|steps| - 1]);
    }
  }

  // ---------------------------------------------------------------------------
  // Every interleaving

  /** No attempt begins between the start of a drain and the stop of the run. */
  lemma NoAttemptWhileDraining(steps: seq<Step>, k: nat)
    requires k < |Steps(START, steps).trace| && Steps(START, steps).trace[k].Begun?
    ensures !DrainPending(Steps(START, steps).trace[..k])
  {
    StepsKeep(START, steps);
    assert EntryOk(Steps(START, steps).trace[..k], Steps(START, steps).trace[k]);
  }

  lemma {:induction false} FiresAtMostOnce(t: seq<Entry>, n: nat)
    requires TraceOk(t)
    ensures Fires(t, n) <= 1
    decreases |t|
  {
    if t != [] {
      var before := t[..|t| - 1];
      assert TraceOk(before) by {
        forall k | 0 <= k < |before|
          ensures EntryOk(before[..k], before[k])
        {
          assert before[..k] == t[..k];
        }
      }
      FiresAtMostOnce(before, n);
      assert EntryOk(t[..|t| - 1], t[|t| - 1]);
    }
  }

  /** The external cancel of an attempt is issued at most once, however Shutdown and
      CancelActive race. */
  lemma CancelFiresAtMostOnce(steps: seq<Step>, n: nat)
    ensures Fires(Steps(START, steps).trace, n) <= 1
  {
    StepsKeep(START, steps);
    FiresAtMostOnce(Steps(START, steps).trace, n);
  }

  /** If a shutdown hits an attempt before its cancel function is uninstalled, even
      before it is installed, then by the time it is uninstalled it was issued exactly
      once. */
  lemma ShutdownCancelsExactlyOnce(steps: seq<Step>, k: nat)
    requires k < |Steps(START, steps).trace| && Steps(START, steps).trace[k].Uninstalled?
    ensures var t := Steps(START, steps).trace;
            Has(t[..k], ShutdownHit(t[k].n)) ==> Fires(t[..k], t[k].n) == 1
  {
    StepsKeep(START, steps);
    assert EntryOk(Steps(START, steps).trace[..k], Steps(START, steps).trace[k]);
  }

  /** Accepted attempts are completed or active, a completed attempt is committed, failed
      or unconfirmed, and the counters are exactly what happened, over every run and
      every restart of the loop. */
  lemma CountersBalance(steps: seq<Step>)
    ensures CountersOk(Steps(START, steps).state)
    ensures var d := Steps(START, steps).state;
            TallyOf(Steps(START, steps).trace) == Tally(d.accepted, d.completed, d.committed, d.failed)
    ensures Steps(START, steps).state.phase.DaemonStopped? ==> !Steps(START, steps).state.active
  {
    StepsKeep(START, steps);
  }

  /** No counter ever falls. */
  lemma CountersRise(m: Machine, s: Step)
    ensures var a, b := m.state, Advance(m, s).state;
            a.accepted <= b.accepted && a.completed <= b.completed && a.committed <= b.committed && a.failed <= b.failed
  {
  }

  lemma {:induction false} CountersRiseOverRuns(m: Machine, steps: seq<Step>)
    ensures var a, b := m.state, Steps(m, steps).state;
            a.accepted <= b.accepted && a.completed <= b.completed && a.committed <= b.committed && a.failed <= b.failed
    decreases |steps|
  {
    if steps != [] {
      hide Advance;
      CountersRiseOverRuns(m, steps[..|steps| - 1]);
      CountersRise(Steps(m, steps[..|steps| - 1]), steps[|steps| - 1]);
    }
  }

  // ---------------------------------------------------------------------------
  // Observations of the daemon's status

  /** The projection of a status into an observation, or its rejection. */
  function ObserveStatus(d: State, revision: nat, manifestRevision: nat, now: nat): Option<Observation> {
    if d.completed > d.accepted || d.committed > d.completed || d.failed > d.completed - d.committed then None
    else Some(Observation(revision, manifestRevision, d.phase, d.active, d.accepted, d.committed, d.failed, now,
                          d.lastFailure))
  }

  /** Over every run the status is never rejected, and the observation satisfies the
      counter rules and the stopped-is-not-active rule of its validator. */
  lemma StatusIsNeverRejected(steps: seq<Step>, revision: nat, manifestRevision: nat, now: nat)
    ensures var o := ObserveStatus(Steps(START, steps).state, revision, manifestRevision, now);
            && o.Some? && CountersValid(o.value)
            && (o.value.state.DaemonStopped? ==> !o.value.active)
  {
    CountersBalance(steps);
  }

  /** So an observation that follows another one of the same run, with the next
      revision and a failure code the validator accepts, is one the store accepts. */
  lemma LaterObservationsFollow(steps: seq<Step>, more: seq<Step>, m: Manifest, revision: nat, now: nat, later: nat)
    requires var o := ObserveStatus(Steps(START, steps).state, revision, m.revision, now);
             o.Some? && ObservationValid(o.value, m)
    requires revision < MAX_UINT64 && now <= later
    requires var code := Steps(Steps(START, steps), more).state.lastFailure; code == "" || FailureCodeValid(code)
    ensures var o := ObserveStatus(Steps(START, steps).state, revision, m.revision, now);
            var o' := ObserveStatus(Steps(Steps(START, steps), more).state, revision + 1, m.revision, later);
            && o'.Some? && ObservationValid(o'.value, m)
            && Store.Follows(o, o'.value, m)
  {
    CountersRiseOverRuns(Steps(START, steps), more);
    StepsKeep(START, steps);
    StepsKeep(Steps(START, steps), more);
  }

  // ---------------------------------------------------------------------------
  // The daemon as the mutable object it is

  class DaemonObject {
    var phase: DaemonState
    var active: bool
    var identity: Option<Identity>
    var cancel: bool
    var cancelIssued: bool
    var cancelOnInstall: bool
    var accepted: nat
    var completed: nat
    var committed: nat
    var failed: nat
    var lastFailure: string

    constructor ()
      ensures View() == STOPPED
    {
      phase, active, identity, cancel, cancelIssued := DaemonStopped, false, None, false, false;
      cancelOnInstall, accepted, completed, committed, failed, lastFailure := false, 0, 0, 0, 0, "";
    }

    function View(): State
      reads this
    {
      State(phase, active, identity, cancel, cancelIssued, cancelOnInstall,
            accepted, completed, committed, failed, lastFailure)
    }

    method Begin() returns (ok: bool)
      modifies this
      ensures (View(), ok) == BeginRun(old(View()))
    {
      if phase != DaemonStopped {
        return false;
      }
      phase := DaemonRunning;
      return true;
    }

    method Finish()
      modifies this
      ensures View() == FinishRun(old(View()))
    {
      phase, active, identity, cancel := DaemonStopped, false, None, false;
      cancelIssued, cancelOnInstall := false, false;
    }

    method Accept(id: Identity) returns (ok: bool)
      modifies this
      ensures (View(), ok) == BeginAttempt(old(View()), id)
    {
      if phase != DaemonRunning || active {
        return false;
      }
      active, identity, cancelIssued := true, Some(id), false;
      accepted := accepted + 1;
      return true;
    }

    method Install() returns (fires: bool)
      modifies this
      ensures (View(), fires) == InstallCancel(old(View()))
    {
      cancel := true;
      fires := cancelOnInstall && !cancelIssued;
      if fires {
        cancelIssued := true;
      }
    }

    method Uninstall()
      modifies this
      ensures View() == UninstallCancel(old(View()))
    {
      cancel := false;
    }

    method Cancel(id: Identity) returns (reply: CancelReply)
      modifies this
      ensures (View(), reply) == CancelActive(old(View()), id)
    {
      if !active {
        return AttemptMissing;
      }
      if identity != Some(id) {
        return AttemptMismatch;
      }
      if cancelIssued {
        return AlreadyCancelled;
      }
      if !cancel {
        return AttemptMissing;
      }
      cancelIssued := true;
      return Cancelled;
    }

    method Complete(result: RunResult, runFailed: bool, reportFailed: bool)
      modifies this
      ensures View() == FinishAttempt(old(View()), result, runFailed, reportFailed)
    {
      hide FailureAfter, RunResult.Succeeded;
      active, identity, cancel, cancelIssued := false, None, false, false;
      completed := completed + 1;
      var succeeded := result.Succeeded(runFailed);
      if !reportFailed {
        if succeeded {
          committed := committed + 1;
        } else {
          failed := failed + 1;
        }
      }
      var code := LastFailure(result, succeeded, runFailed, reportFailed);
      lastFailure := code;
    }

    static method LastFailure(result: RunResult, succeeded: bool, runFailed: bool, reportFailed: bool)
      returns (code: string)
      requires succeeded == result.Succeeded(runFailed)
      ensures code == FailureAfter(result, runFailed, reportFailed)
    {
      code := result.failure;
      if reportFailed {
        code := "terminal_unconfirmed";
      } else if code == "" && runFailed {
        code := "invocation_runner_failed";
      } else if code == "" && !succeeded {
        code := "invocation_process_failed";
      }
    }

    method Drain(cancelActive: bool) returns (reply: DrainReply)
      modifies this
      ensures (View(), reply) == StartDrain(old(View()), cancelActive)
    {
      if phase == DaemonStopped {
        return NotRunning;
      }
      phase := DaemonDraining;
      if cancelActive {
        cancelOnInstall := true;
      }
      var fires := false;
      if cancelActive && cancel && !cancelIssued {
        cancelIssued := true;
        fires := true;
      }
      return Draining(fires);
    }
  }
}
