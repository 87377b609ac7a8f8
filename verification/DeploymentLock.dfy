/** The deployment lock: one row, serializable transactions, and processes that each
    claim once under an owner string of their own. A commit may take effect although
    its process is told that it failed. */
module DeploymentLock {
  import opened Base

  datatype Row = Row(owner: nat, fence: nat, expiresAt: int)

  /** What became of a transaction: committed, committed but reported as failed, or not
      committed at all. */
  datatype Fate = Committed | Unreported | Lost

  predicate MayClaim(row: Option<Row>, owner: nat, now: int) {
    row.None? || row.value.expiresAt <= now || row.value.owner == owner
  }

  function NextFence(row: Option<Row>): nat {
    match row
    case None => 1
    case Some(r) => Succ(r.fence)
  }

  /** The fence that the claim returns, if it returns one. */
  function Claim(row: Option<Row>, owner: nat, now: int, ttl: nat, fate: Fate): (Option<Row>, Option<nat>) {
    if !MayClaim(row, owner, now) || fate.Lost? then (row, None)
    else
      var fence := NextFence(row);
      (Some(Row(owner, fence, now + ttl)), if fate.Committed? then Some(fence) else None)
  }

  predicate VerifyFence(row: Option<Row>, owner: nat, fence: nat) {
    row.Some? && row.value.owner == owner && row.value.fence == fence
  }

  function Renew(row: Option<Row>, owner: nat, fence: nat, now: int, ttl: nat, fate: Fate): (Option<Row>, bool) {
    if !VerifyFence(row, owner, fence) || fate.Lost? then (row, false)
    else (Some(row.value.(expiresAt := now + ttl)), fate.Committed?)
  }

  function Release(row: Option<Row>, owner: nat, fence: nat, fate: Fate): (Option<Row>, bool) {
    if !VerifyFence(row, owner, fence) || fate.Lost? then (row, false)
    else (None, fate.Committed?)
  }

  // ---------------------------------------------------------------------------
  // Any number of processes; process `p` uses owner `p`

  datatype Process = Idle | Failed | Holder(fence: nat)

  datatype Machine = Machine(row: Option<Row>, processes: seq<Process>)

  datatype Step =
    | SpawnStep
    | ClaimStep(p: nat, now: int, ttl: nat, fate: Fate)
    | RenewStep(p: nat, now: int, ttl: nat, fate: Fate)
    | ReleaseStep(p: nat, fate: Fate)

  const START: Machine := Machine(None, [])

  function Advance(m: Machine, s: Step): Machine {
    match s
    case SpawnStep => m.(processes := m.processes + [Idle])
    case ClaimStep(p, now, ttl, fate) =>
      if p >= |m.processes| || !m.processes[p].Idle? then m
      else
        var (row, fence) := Claim(m.row, p, now, ttl, fate);
        Machine(row, m.processes[p := if fence.Some? then Holder(fence.value) else Failed])
    case RenewStep(p, now, ttl, fate) =>
      if p >= |m.processes| || !m.processes[p].Holder? then m
      else m.(row := Renew(m.row, p, m.processes[p].fence, now, ttl, fate).0)
    case ReleaseStep(p, fate) =>
      if p >= |m.processes| || !m.processes[p].Holder? then m
      else m.(row := Release(m.row, p, m.processes[p].fence, fate).0)
  }

  function Steps(m: Machine, steps: seq<Step>): Machine
    decreases |steps|
  {
    if steps == [] then m else Advance(Steps(m, steps[..|steps| - 1]), steps[|steps| - 1])
  }

  /** Process `p` would pass the fence check now. */
  predicate Passes(m: Machine, p: nat) {
    p < |m.processes| && m.processes[p].Holder? && VerifyFence(m.row, p, m.processes[p].fence)
  }

  /** The row, if any, names a process that has claimed. */
  ghost predicate Inv(m: Machine) {
    m.row.Some? ==> m.row.value.owner < |m.processes| && !m.processes[m.row.value.owner].Idle?
                    && (m.processes[m.row.value.owner].Holder? ==>
                          m.processes[m.row.value.owner].fence == m.row.value.fence)
  }

  lemma AdvanceKeeps(m: Machine, s: Step)
    requires Inv(m)
    ensures Inv(Advance(m, s))
  {
  }

  lemma {:induction false} StepsKeep(m: Machine, steps: seq<Step>)
    requires Inv(m)
    ensures Inv(Steps(m, steps))
    decreases |steps|
  {
    if steps != [] {
      StepsKeep(m, steps[..|steps| - 1]);
      AdvanceKeeps(Steps(m, steps[..|steps| - 1]), steps[|steps| - 1]);
    }
  }

  /** At most one process passes the fence check in any state. */
  lemma AtMostOnePasses(m: Machine, p: nat, q: nat)
    requires Passes(m, p) && Passes(m, q)
    ensures p == q
  {
  }

  lemma LoserStaysOut(m: Machine, s: Step, p: nat)
    requires Inv(m) && p < |m.processes| && !m.processes[p].Idle? && !Passes(m, p)
    ensures var m' := Advance(m, s); p < |m'.processes| && !m'.processes[p].Idle? && !Passes(m', p)
  {
  }

  /** A process that was superseded, was released or never learned its fence never
      passes again, over every continuation of every run, although the fence restarts
      at one after a release. */
  lemma {:induction false} LosersNeverReturn(steps: seq<Step>, more: seq<Step>, p: nat)
    requires var m := Steps(START, steps); p < |m.processes| && !m.processes[p].Idle? && !Passes(m, p)
    ensures var m := Steps(Steps(START, steps), more);
            p < |m.processes| && !m.processes[p].Idle? && !Passes(m, p)
    decreases |more|
  {
    StepsKeep(START, steps);
    if more != [] {
      LosersNeverReturn(steps, more[..|more| - 1], p);
      StepsKeep(Steps(START, steps), more[..|more| - 1]);
      LoserStaysOut(Steps(Steps(START, steps), more[..|more| - 1]), more[|more| - 1], p);
    }
  }

  /** A process that holds a fence loses it only to its own release or to a claim of
      another process at or after the expiry it last wrote. */
  lemma HolderLosesOnlyAfterExpiry(steps: seq<Step>, s: Step, p: nat)
    requires Passes(Steps(START, steps), p) && !Passes(Advance(Steps(START, steps), s), p)
    ensures (s.ReleaseStep? && s.p == p) ||
            (s.ClaimStep? && s.p != p && Steps(START, steps).row.value.expiresAt <= s.now)
  {
  }

  /** A claim over a row of another owner changes it only at or after its expiry, with
      the next fence. */
  lemma ClaimRespectsExpiry(row: Option<Row>, owner: nat, now: int, ttl: nat, fate: Fate)
    requires row.Some? && row.value.owner != owner
    ensures Claim(row, owner, now, ttl, fate).0 != row ==> row.value.expiresAt <= now
    ensures Claim(row, owner, now, ttl, fate).1.Some? ==>
              Claim(row, owner, now, ttl, fate).1.value == Succ(row.value.fence)
  {
  }

  /** Why owner strings must be unique: an owner that claims again after its release
      gets its old fence back, so its stale token passes again. */
  lemma ReusedOwnerRevivesItsFence(owner: nat, now: int, ttl: nat)
    ensures var (first, fence) := Claim(None, owner, now, ttl, Committed);
            var (none, released) := Release(first, owner, fence.value, Committed);
            var (second, again) := Claim(none, owner, now, ttl, Committed);
            && released && none.None?
            && !VerifyFence(none, owner, fence.value) && VerifyFence(second, owner, fence.value)
  {
  }

  class LockTable {
    var row: Option<Row>

    constructor ()
      ensures row == None
    {
      row := None;
    }

    method ClaimRow(owner: nat, now: int, ttl: nat, fate: Fate) returns (fence: Option<nat>)
      modifies this
      ensures (row, fence) == Claim(old(row), owner, now, ttl, fate)
    {
      var next := 1;
      if row.Some? {
        if row.value.expiresAt > now && row.value.owner != owner {
          return None;
        }
        next := Succ(row.value.fence);
      }
      if fate.Lost? {
        return None;
      }
      row := Some(Row(owner, next, now + ttl));
      return if fate.Committed? then Some(next) else None;
    }

    method RenewRow(owner: nat, fence: nat, now: int, ttl: nat, fate: Fate) returns (ok: bool)
      modifies this
      ensures (row, ok) == Renew(old(row), owner, fence, now, ttl, fate)
    {
      if row.None? || row.value.owner != owner || row.value.fence != fence || fate.Lost? {
        return false;
      }
      row := Some(row.value.(expiresAt := now + ttl));
      return fate.Committed?;
    }

    method ReleaseRow(owner: nat, fence: nat, fate: Fate) returns (ok: bool)
      modifies this
      ensures (row, ok) == Release(old(row), owner, fence, fate)
    {
      if row.None? || row.value.owner != owner || row.value.fence != fence || fate.Lost? {
        return false;
      }
      row := None;
      return fate.Committed?;
    }
  }
}
