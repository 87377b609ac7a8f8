/** The drain gate of request callbacks: begin, finish and close in any order. */
module TriggerDrain {
  /** `closes` counts how often the done channel was closed; a second close would be a
      run-time panic. */
  datatype Gate = Gate(active: int, stopping: bool, cancelled: bool, closes: nat)

  const OPEN: Gate := Gate(0, false, false, 0)

  function Begin(g: Gate): (Gate, bool) {
    if g.stopping || g.cancelled then (g, false) else (g.(active := g.active + 1), true)
  }

  function Finish(g: Gate): Gate {
    var g1 := g.(active := g.active - 1);
    if g1.stopping && g1.active == 0 then g1.(closes := g1.closes + 1) else g1
  }

  function BeginClose(g: Gate): Gate {
    if g.stopping then g
    else g.(stopping := true, closes := if g.active == 0 then g.closes + 1 else g.closes)
  }

  /** A closer returns without an error exactly when the done channel is closed. */
  predicate CloseReturnsNil(g: Gate) {
    g.closes > 0
  }

  // ---------------------------------------------------------------------------
  // The interleaving; each callback may finish once, later calls do nothing

  datatype Machine = Machine(gate: Gate, running: seq<bool>, dependenciesClosed: bool)

  const START: Machine := Machine(OPEN, [], false)

  datatype Step =
    | BeginStep(requestLive: bool)
    | FinishStep(k: nat)
    | ParentCancelled
    | CloseStep
    | CancelStep
    | CloseReturns

  function Advance(m: Machine, s: Step): Machine {
    match s
    case BeginStep(requestLive) =>
      var (g, ok) := Begin(m.gate);
      if requestLive && ok then m.(gate := g, running := m.running + [true]) else m
    case FinishStep(k) =>
      if k < |m.running| && m.running[k] then m.(gate := Finish(m.gate), running := m.running[k := false]) else m
    case ParentCancelled => m.(gate := m.gate.(cancelled := true))
    case CloseStep => m.(gate := BeginClose(m.gate))
    case CancelStep => if m.gate.stopping then m.(gate := m.gate.(cancelled := true)) else m
    case CloseReturns =>
      // The owner closes the dependencies only after a close without an error.
      if m.gate.stopping && CloseReturnsNil(m.gate) then m.(dependenciesClosed := true) else m
  }

  function Steps(m: Machine, steps: seq<Step>): Machine
    decreases |steps|
  {
    if steps == [] then m else Advance(Steps(m, steps[..|steps| - 1]), steps[|steps| - 1])
  }

  function Count(running: seq<bool>): nat {
    if running == [] then 0
    else Count(running[..|running| - 1]) + if running[|running| - 1] then 1 else 0
  }

  lemma {:induction false} CountUpdate(running: seq<bool>, k: nat)
    requires k < |running| && running[k]
    ensures Count(running) > 0 && Count(running[k := false]) == Count(running) - 1
    decreases |running|
  {
    var n := |running| - 1;
    if k < n {
      CountUpdate(running[..n], k);
      assert running[k := false][..n] == running[..n][k := false];
    } else {
      assert running[k := false][..n] == running[..n];
    }
  }

  lemma {:induction false} CountZero(running: seq<bool>, k: nat)
    requires Count(running) == 0 && k < |running|
    ensures !running[k]
    decreases |running|
  {
    if k < |running| - 1 {
      CountZero(running[..|running| - 1], k);
    }
  }

  ghost predicate Inv(m: Machine) {
    && m.gate.active == Count(m.running)
    && m.gate.closes == (if m.gate.stopping && m.gate.active == 0 then 1 else 0)
    && (m.dependenciesClosed ==> m.gate.closes == 1)
  }

  lemma AdvanceKeeps(m: Machine, s: Step)
    requires Inv(m)
    ensures Inv(Advance(m, s))
    ensures m.gate.stopping ==> Advance(m, s).gate.stopping && Advance(m, s).gate.active <= m.gate.active
    ensures m.gate.closes == 1 ==> Advance(m, s).gate.closes == 1
  {
    match s {
      case BeginStep(_) => assert (m.running + [true])[..|m.running|] == m.running;
      case FinishStep(k) =>
        if k < |m.running| && m.running[k] {
          CountUpdate(m.running, k);
        }
      case _ =>
    }
  }

  lemma {:induction false} StepsKeep(m: Machine, steps: seq<Step>)
    requires Inv(m)
    ensures Inv(Steps(m, steps))
    ensures m.gate.stopping ==> Steps(m, steps).gate.stopping && Steps(m, steps).gate.active <= m.gate.active
    ensures m.gate.closes == 1 ==> Steps(m, steps).gate.closes == 1
    decreases |steps|
  {
    if steps != [] {
      StepsKeep(m, steps[..|steps| - 1]);
      AdvanceKeeps(Steps(m, steps[..|steps| - 1]), steps[|steps| - 1]);
    }
  }

  /** The done channel is closed at most once, and exactly when the gate is stopping
      with no callback left. */
  lemma ClosedAtMostOnce(steps: seq<Step>)
    ensures var g := Steps(START, steps).gate;
            g.closes <= 1 && (g.closes == 1 <==> g.stopping && g.active == 0)
  {
    StepsKeep(START, steps);
  }

  /** After stopping begins the number of active callbacks never rises. */
  lemma NeverRisesAfterStopping(steps: seq<Step>, more: seq<Step>)
    requires Steps(START, steps).gate.stopping
    ensures Steps(Steps(START, steps), more).gate.active <= Steps(START, steps).gate.active
  {
    StepsKeep(START, steps);
    StepsKeep(Steps(START, steps), more);
  }

  /** A close without an error means that no callback is running then or ever after. */
  lemma CloseWithoutErrorIsFinal(steps: seq<Step>, more: seq<Step>, k: nat)
    requires CloseReturnsNil(Steps(START, steps).gate)
    requires k < |Steps(Steps(START, steps), more).running|
    ensures !Steps(Steps(START, steps), more).running[k]
  {
    StepsKeep(START, steps);
    StepsKeep(Steps(START, steps), more);
    CountZero(Steps(Steps(START, steps), more).running, k);
  }

  /** So dependencies are never closed under a running callback. */
  lemma DependenciesOutliveCallbacks(steps: seq<Step>, k: nat)
    requires Steps(START, steps).dependenciesClosed && k < |Steps(START, steps).running|
    ensures !Steps(START, steps).running[k]
  {
    StepsKeep(START, steps);
    CountZero(Steps(START, steps).running, k);
  }

  /** Conversely, once the gate is stopping and the last callback has finished, every
      waiting close returns without an error. */
  lemma DrainedCloseSucceeds(steps: seq<Step>)
    requires Steps(START, steps).gate.stopping
    requires forall k | 0 <= k < |Steps(START, steps).running| :: !Steps(START, steps).running[k]
    ensures CloseReturnsNil(Steps(START, steps).gate)
  {
    StepsKeep(START, steps);
    NoneRunning(Steps(START, steps).running);
  }

  lemma {:induction false} NoneRunning(running: seq<bool>)
    requires forall k | 0 <= k < |running| :: !running[k]
    ensures Count(running) == 0
    decreases |running|
  {
    if running != [] {
      NoneRunning(running[..|running| - 1]);
    }
  }

  class DrainObject {
    var active: int
    var stopping: bool
    var cancelled: bool
    var closes: nat

    constructor ()
      ensures View() == OPEN
    {
      active, stopping, cancelled, closes := 0, false, false, 0;
    }

    function View(): Gate
      reads this
    {
      Gate(active, stopping, cancelled, closes)
    }

    method BeginCallback() returns (ok: bool)
      modifies this
      ensures (View(), ok) == Begin(old(View()))
    {
      if stopping || cancelled {
        return false;
      }
      active := active + 1;
      return true;
    }

    method FinishCallback()
      modifies this
      ensures View() == Finish(old(View()))
    {
      active := active - 1;
      if stopping && active == 0 {
        closes := closes + 1;
      }
    }

    method StartClose()
      modifies this
      ensures View() == BeginClose(old(View()))
    {
      if !stopping {
        stopping := true;
        if active == 0 {
          closes := closes + 1;
        }
      }
    }
  }
}
