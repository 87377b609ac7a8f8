/** The store as the mutable directory it is: each method performs its file actions in
    the order of the code and stops at the first failure. Proved against the functions
    of module LocalStore, whose runs carry the theorems. */
module LocalDirectory {
  import opened Base
  import opened LocalRecords
  import opened LocalStore

  class Directory {
    var history: seq<Files>
    var temp: bool

    constructor ()
      ensures State() == Disk([NO_FILES], false)
    {
      history, temp := [NO_FILES], false;
    }

    function State(): Disk
      reads this
    {
      Disk(history, temp)
    }

    function Visible(): Files
      reads this
    {
      State().Visible()
    }

    method Write(next: Files, fault: Fault) returns (failed: Option<Error>)
      modifies this
      ensures (State(), failed) == WriteAtomic(old(State()), next, fault)
    {
      match fault {
        case Untouched(tempLeft) =>
          temp := temp || tempLeft;
          return Some(LocalIo);
        case Unsynced =>
          history := history + [next];
          return Some(StateAmbiguous);
        case Done =>
          history := [next];
          return None;
      }
    }

    method Remove(next: Files, fault: Fault) returns (failed: Option<Error>)
      modifies this
      ensures (State(), failed) == RemoveDurable(old(State()), next, fault)
    {
      if next == Visible() {
        return None;
      }
      match fault {
        case Untouched(_) => return Some(LocalIo);
        case Unsynced =>
          history := history + [next];
          return Some(StateAmbiguous);
        case Done =>
          history := [next];
          return None;
      }
    }

    method CommitPair(m: Manifest, s: Secret, secretFault: Fault, manifestFault: Fault) returns (failed: Option<Error>)
      modifies this
      ensures (State(), failed) == Commit(old(State()), m, s, secretFault, manifestFault)
    {
      failed := Write(Visible().(secret := Some(s)), secretFault);
      if failed.None? {
        failed := Write(Visible().(manifest := Some(m)), manifestFault);
      }
    }

    method InitializePair(m: Manifest, s: Secret, faults: Faults) returns (failed: Option<Error>)
      modifies this
      ensures (State(), failed) == Initialize(old(State()), m, s, faults)
    {
      if !InitialRecords(m, s) {
        return Some(InvalidState);
      }
      if temp || Visible() != NO_FILES {
        return Some(StateConflict);
      }
      failed := CommitPair(m, s, faults(0), faults(1));
    }

    method UpdatePair(expected: nat, m: Manifest, s: Secret, faults: Faults) returns (failed: Option<Error>)
      modifies this
      ensures (State(), failed) == Update(old(State()), expected, m, s, faults)
    {
      hide UpdateRefusal, Commit;
      failed := UpdateRefusal(State(), expected, m, s);
      if failed.Some? {
        return;
      }
      failed := Remove(Visible().(reconnect := None), faults(0));
      if failed.Some? {
        return;
      }
      failed := Remove(Visible().(observation := None), faults(1));
      if failed.Some? {
        return;
      }
      failed := CommitPair(m, s, faults(2), faults(3));
    }

    method Observe(o: Observation, fault: Fault) returns (failed: Option<Error>)
      modifies this
      ensures (State(), failed) == PersistObservation(old(State()), o, fault)
    {
      hide WriteAtomic, LoadConsistent;
      var consistent := LoadConsistent(State());
      if consistent.NotLoaded? {
        return Some(consistent.error);
      }
      if !ObservationValid(o, consistent.manifest) {
        return Some(InvalidState);
      }
      if !Follows(Visible().observation, o, consistent.manifest) {
        return Some(StateConflict);
      }
      failed := Write(Visible().(observation := Some(o)), fault);
    }

    method Seal(x: Receipt, fault: Fault) returns (failed: Option<Error>)
      modifies this
      ensures (State(), failed) == SealReceipt(old(State()), x, fault)
    {
      hide WriteAtomic, LoadConsistent;
      var consistent := LoadConsistent(State());
      if consistent.NotLoaded? {
        return Some(consistent.error);
      }
      if !ReceiptValid(x, consistent.manifest) {
        return Some(InvalidState);
      }
      if Visible().receipt.Some? {
        var prior := Visible().receipt.value;
        if !ReceiptReadable(prior, consistent.manifest) {
          return Some(InvalidState);
        }
        return if prior == x then None else Some(StateConflict);
      }
      if !MaySeal(x) {
        return Some(InvalidState);
      }
      failed := Write(Visible().(receipt := Some(x)), fault);
    }

    method Advance(expected: Receipt, next: Receipt, fault: Fault) returns (applied: bool, failed: Option<Error>)
      modifies this
      ensures Advanced(State(), applied, failed) == AdvanceReceipt(old(State()), expected, next, fault)
    {
      hide WriteAtomic, LoadConsistent;
      if !InlineRecord(expected) {
        return false, Some(InvalidState);
      }
      if !MayAdvance(expected, next) {
        return false, Some(StateConflict);
      }
      var consistent := LoadConsistent(State());
      if consistent.NotLoaded? {
        return false, Some(consistent.error);
      }
      if !ReceiptValid(expected, consistent.manifest) || !ReceiptValid(next, consistent.manifest) {
        return false, Some(InvalidState);
      }
      if Visible().receipt.None? {
        return false, Some(StateConflict);
      }
      var prior := Visible().receipt.value;
      if !ReceiptReadable(prior, consistent.manifest) {
        return false, Some(InvalidState);
      }
      if !SameScope(prior, expected) {
        return false, Some(StateConflict);
      }
      if prior.payload == next.payload {
        return false, None;
      }
      if prior.payload != expected.payload {
        return false, Some(StateConflict);
      }
      failed := Write(Visible().(receipt := Some(next)), fault);
      applied := failed.None?;
    }

    method Retire(expected: Receipt, fault: Fault) returns (failed: Option<Error>)
      modifies this
      ensures (State(), failed) == RetireReceipt(old(State()), expected, fault)
    {
      hide RemoveDurable, LoadConsistent;
      var consistent := LoadConsistent(State());
      if consistent.NotLoaded? {
        return Some(consistent.error);
      }
      if !ReceiptValid(expected, consistent.manifest) {
        return Some(InvalidState);
      }
      if Visible().receipt.None? {
        return Some(StateConflict);
      }
      if !ReceiptReadable(Visible().receipt.value, consistent.manifest) {
        return Some(InvalidState);
      }
      if !MayRetire(Visible().receipt.value, expected) {
        return Some(StateConflict);
      }
      failed := Remove(Visible().(receipt := None), fault);
    }

    method RemoveAllHoldings(faults: Faults) returns (failed: Option<Error>)
      modifies this
      ensures (State(), failed) == RemoveHoldings(old(State()), faults)
    {
      hide RemoveDurable;
      failed := Remove(Visible().(observation := None), faults(1));
      if failed.Some? {
        return;
      }
      failed := Remove(Visible().(reconnect := None), faults(2));
      if failed.Some? {
        return;
      }
      failed := Remove(Visible().(receipt := None), faults(3));
      if failed.Some? {
        return;
      }
      failed := Remove(Visible().(secret := None), faults(4));
    }

    method Finish(m: Manifest, i: Intent, r: Request, committedAt: nat, faults: Faults) returns (reply: LogoutReply)
      modifies this
      ensures (State(), reply) == FinishLogout(old(State()), m, i, r, committedAt, faults)
    {
      hide RemoveHoldings, RemoveDurable, WriteAtomic;
      if Visible().secret.Some? && !SecretValid(Visible().secret.value, m) {
        return LogoutFailed(StateIncomplete);
      }
      var failed := RemoveAllHoldings(faults);
      if failed.Some? {
        return LogoutFailed(failed.value);
      }
      if committedAt < i.requestedAt {
        return LogoutFailed(InvalidState);
      }
      var next := LoggedOutManifest(m, i, committedAt);
      failed := Write(Visible().(manifest := Some(next)), faults(5));
      if failed.Some? {
        return LogoutFailed(failed.value);
      }
      failed := Remove(Visible().(intent := None), faults(6));
      return ReplyFor(next, r, failed);
    }

    method LogOut(r: Request, requestedAt: nat, committedAt: nat, faults: Faults) returns (reply: LogoutReply)
      modifies this
      ensures (State(), reply) == Logout(old(State()), r, requestedAt, committedAt, faults)
    {
      hide FinishLogout, RemoveDurable, LoadConsistent, LogoutRefusal, IntentMatches;
      var refusal := LogoutRefusal(State(), r);
      if refusal.Some? {
        return LogoutFailed(refusal.value);
      }
      var m := Visible().manifest.value;
      if m.lifecycle.LoggedOut? {
        reply := Repeat(m, r, faults(6));
        return;
      }
      if m.revision != r.expectedRevision || r.expectedRevision == MAX_UINT64 {
        return LogoutFailed(StateConflict);
      }
      if Visible().intent.Some? {
        if !IntentMatches(Visible().intent.value, m, r) {
          return LogoutFailed(StateConflict);
        }
        reply := Finish(m, Visible().intent.value, r, committedAt, faults);
        return;
      }
      if LoadConsistent(State()).NotLoaded? {
        return LogoutFailed(LoadConsistent(State()).error);
      }
      var i := NewIntent(m, r, requestedAt);
      var failed := Write(Visible().(intent := Some(i)), faults(0));
      if failed.Some? {
        return LogoutFailed(failed.value);
      }
      reply := Finish(m, i, r, committedAt, faults);
    }

    method Repeat(m: Manifest, r: Request, fault: Fault) returns (reply: LogoutReply)
      requires m.lifecycle.LoggedOut?
      modifies this
      ensures (State(), reply) == RepeatLogout(old(State()), m, r, fault)
    {
      hide RemoveDurable;
      var f := Visible();
      if m.lifecycle.logout.requestId != r.requestId || m.revision != Succ(r.expectedRevision) {
        return LogoutFailed(StateConflict);
      }
      if f.secret.Some? || f.observation.Some? || f.reconnect.Some? {
        return LogoutFailed(StateIncomplete);
      }
      if f.intent.None? {
        return LogoutDone(m.revision, r.requestId);
      }
      if !IntentMatches(f.intent.value, m, r) {
        return LogoutFailed(StateConflict);
      }
      var failed := Remove(f.(intent := None), fault);
      return ReplyFor(m, r, failed);
    }
  }
}
