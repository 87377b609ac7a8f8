/** The adapter as the mutable object it is: one active attempt, one remembered
    completion, one gate. Its methods are proved against the functions of module
    Adapter, whose runs carry the theorems. */
module AdapterObject {
  import opened Base
  import Journals = InlineJournal
  import opened Environment
  import Receipts = InlineReceipt
  import A = Adapter

  class DaemonTransport {
    const cfg: Config
    const receipts: Receipts.InlineOwner
    var active: Option<A.Active>
    var last: Option<Completion>
    var gateFree: bool
    var attempts: nat
    var trace: seq<A.Event>

    constructor (cfg: Config, journal: Journals.Journal)
      ensures State() == A.Initially(journal) && this.cfg == cfg && receipts.cfg == cfg && fresh(receipts)
    {
      this.cfg := cfg;
      this.receipts := new Receipts.InlineOwner(cfg, journal, 0);
      this.active, this.last, this.gateFree, this.attempts, this.trace := None, None, true, 0, [];
    }

    function State(): A.State
      reads this, receipts
    {
      A.State(active, last, gateFree, receipts.State(), attempts, trace)
    }

    function Current(): nat
      reads this
    {
      if attempts == 0 then 0 else attempts - 1
    }

    /** The next answer of the environment. */
    method Ask(o: Oracle) returns (a: Answer)
      modifies receipts
      ensures a == o(old(receipts.tick))
      ensures State() == A.Tick(old(State()))
    {
      a := o(receipts.tick);
      receipts.tick := receipts.tick + 1;
    }

    method AcknowledgeCancel(o: Oracle) returns (acked: bool)
      requires active.Some?
      modifies this, receipts
      ensures (State(), acked) == A.AcknowledgeCancel(old(State()), o)
    {
      trace := trace + [A.CancelAckSent(Current(), active.value.nextWorker)];
      var a := Ask(o);
      if !a.exchangeOk || a.frame.Some? {
        return false;
      }
      trace := trace + [A.CancelAckSettled(Current())];
      active := Some(active.value.(nextWorker := active.value.nextWorker + 1, cancelAcked := true));
      return true;
    }

    method CollectEvidence(report: A.Report, status: Status, o: Oracle) returns (r: A.EvidenceResult)
      requires active.Some? && receipts.cfg == cfg
      modifies receipts
      ensures (State(), r) == A.Evidence(old(State()), report, status, cfg, o)
    {
      if cfg.receipts && cfg.inline && status.Succeeded? {
        var out := receipts.PublishReceipt(A.InlineOffer(active.value, report, cfg), o);
        match out {
          case Evidence(digest) => return A.Known(digest);
          case Failure(reason) =>
            return A.Missing(if reason.EvidenceInvalid? then A.EvidenceInvalid else A.ReconciliationRequired);
        }
      }
      if cfg.receipts && !report.result.CleanupComplete() {
        return A.Missing(A.EvidenceInvalid);
      }
      var a := Ask(o);
      match a.evidence {
        case Some(digest) => return A.Known(digest);
        case None => return A.Missing(if cfg.receipts then A.ReconciliationRequired else A.EvidenceInvalid);
      }
    }

    method SendTerminal(t: Terminal, o: Oracle) returns (acked: bool)
      requires active.Some?
      modifies this, receipts
      ensures (State(), acked) == A.SendTerminal(old(State()), t, o)
    {
      trace := trace + [A.TerminalSent(Current(), t, receipts.attempt.Some?)];
      var a := Ask(o);
      if !a.exchangeOk || a.frame.None? {
        return false;
      }
      if !MatchesSession(a.frame.value, a.snapshot) || !A.AckMatches(t, a.frame.value.body, active.value.nextPlatform) {
        return false;
      }
      trace := trace + [A.TerminalAckSeen(Current(), t, a.frame.value.body)];
      return true;
    }

    method RetireReceipts(status: Status, o: Oracle) returns (retired: bool)
      requires receipts.cfg == cfg
      modifies receipts
      ensures (State(), retired) == A.RetireReceipts(old(State()), status, cfg, o)
    {
      hide Receipts.Acknowledge;
      if cfg.receipts && !(cfg.inline && status.Succeeded?) {
        var a := Ask(o);
        if !a.localOk {
          return false;
        }
      }
      if receipts.attempt.None? {
        return true;
      }
      var failure := receipts.AcknowledgeReceipt(o);
      return failure.None?;
    }

    method SendDrained(o: Oracle) returns (drained: bool)
      requires active.Some?
      modifies this, receipts
      ensures (State(), drained) == A.SendDrained(old(State()), o)
    {
      if active.value.drainRevision == 0 {
        return true;
      }
      var presence := Ask(o);
      if !presence.exchangeOk || presence.frame.Some? {
        return false;
      }
      trace := trace + [A.DrainedSent(Current())];
      var a := Ask(o);
      return a.exchangeOk && a.frame.None?;
    }

    method Conclude(report: A.Report, status: Status, evidence: string, o: Oracle) returns (reply: A.Reply)
      requires active.Some? && receipts.cfg == cfg
      modifies this, receipts
      ensures (State(), reply) == A.Conclude(old(State()), report, status, evidence, cfg, o)
    {
      var t := Terminal(active.value.binding, active.value.nextWorker, 1, status, ResultOf(status), evidence);
      ActiveStays(State(), t, status, cfg, o);
      hide A.RetireReceipts, A.SendTerminal, A.SendDrained;
      var acked := SendTerminal(t, o);
      if !acked {
        return A.Refused(A.ReconciliationRequired);
      }
      var retired := RetireReceipts(status, o);
      if !retired {
        return A.Refused(A.ReconciliationRequired);
      }
      var drained := SendDrained(o);
      if !drained {
        return A.Refused(A.ReconciliationRequired);
      }
      var c := Ask(o);
      if cfg.prepared && !c.localOk {
        return A.Refused(A.ReconciliationRequired);
      }
      active, last := None, Some(report.Fingerprint());
      receipts.attempt, receipts.sends := None, [];
      return A.Completed;
    }

    static lemma ActiveStays(s: A.State, t: Terminal, status: Status, cfg: Config, o: Oracle)
      requires s.active.Some?
      ensures var s1 := A.SendTerminal(s, t, o).0;
              s1.active == s.active && A.RetireReceipts(s1, status, cfg, o).0.active == s.active
    {
    }

    method CompleteOwned(report: A.Report, o: Oracle) returns (reply: A.Reply)
      requires receipts.cfg == cfg
      modifies this, receipts
      ensures (State(), reply) == A.CompleteOwned(old(State()), report, cfg, o)
    {
      hide A.Conclude, Receipts.Publish;
      if !report.result.wellFormed {
        return A.Refused(A.EvidenceInvalid);
      }
      if active.None? {
        return if last == Some(report.Fingerprint()) then A.Completed else A.Refused(A.AttemptUnavailable);
      }
      if !A.OwnsAttempt(active.value, report.identity) {
        return A.Refused(A.InvalidAuthority);
      }
      var a := Ask(o);
      if !A.MayComplete(active.value, receipts.attempt, report.Fingerprint(), cfg, a) {
        return A.Refused(A.ReconciliationRequired);
      }
      var status := A.Classify(active.value.cancelRevision, report.result, report.runFailed);
      var evidence := CollectEvidence(report, status, o);
      match evidence {
        case Missing(error) => return A.Refused(error);
        case Known(digest) => reply := Conclude(report, status, digest, o);
      }
    }

    method Materialize(o: Oracle) returns (reply: A.Reply)
      requires active.Some? && receipts.cfg == cfg
      modifies this, receipts
      ensures (State(), reply) == A.Materialize(old(State()), cfg, o)
    {
      hide A.CompleteOwned;
      var id := active.value.identity;
      var a := Ask(o);
      if a.late {
        gateFree := false;
        return A.Refused(A.MaterializationFailed);
      }
      if !a.localOk || a.contextDone {
        var failed := A.Report(id, A.FailedResult(A.MaterializationFailure(a.cause)), !a.localOk, None, None);
        var _ := CompleteOwned(failed, o);
        return A.Refused(A.MaterializationFailed);
      }
      var b := Ask(o);
      if !A.ActiveAuthority(active.value, cfg, b) {
        return A.Refused(A.ReconciliationRequired);
      }
      var c := Ask(o);
      if !c.localOk {
        var _ := CompleteOwned(A.Report(id, A.FailedResult("invocation_materialization_invalid"), true, None, None), o);
        return A.Refused(A.MaterializationFailed);
      }
      trace := trace + [A.HandedOut(Current())];
      return A.Invocation(id);
    }

    method AcceptAttempt(scope: Scope, b: Binding, granted: Binding, offered: nat, answered: nat, cancelRevision: nat)
      modifies this
      ensures State() == A.Accept(old(State()), scope, b, granted, offered, answered, cancelRevision)
    {
      active := Some(A.Active(scope, b, A.IdentityOf(scope, b), offered + 1, answered + 1, cancelRevision, false, 0));
      trace := trace + [A.Accepted(attempts, b, granted, offered, offered, answered, cancelRevision != 0)];
      attempts := attempts + 1;
    }

    method AbandonClaim(o: Oracle) returns (reply: A.Reply)
      requires active.Some? && receipts.cfg == cfg
      modifies this, receipts
      ensures (State(), reply) == A.AbandonClaim(old(State()), cfg, o)
    {
      hide A.CompleteOwned, A.AcknowledgeCancel;
      var id := active.value.identity;
      var acked := AcknowledgeCancel(o);
      if !acked {
        return A.Refused(A.ReconciliationRequired);
      }
      var _ := CompleteOwned(A.Report(id, A.CANCELLED_RESULT, true, None, None), o);
      return A.Refused(A.AttemptCancelled);
    }

    method ClaimAndMaterialize(snapshot: Snapshot, b: Binding, offered: nat, o: Oracle) returns (reply: A.Reply)
      requires receipts.cfg == cfg
      modifies this, receipts
      ensures (State(), reply) == A.Claim(old(State()), cfg, snapshot, b, offered, o)
    {
      hide A.AbandonClaim, A.Materialize;
      var clock := Ask(o);
      if offered != 1 || !A.AttemptMatchesSnapshot(b, snapshot, clock.now) {
        return A.Refused(A.InvalidAuthority);
      }
      var a := Ask(o);
      if !a.exchangeOk || a.frame.None? || !FrameValid(a.frame.value) || !MatchesSession(a.frame.value, snapshot) {
        return A.Refused(A.ReconciliationRequired);
      }
      if !IdentityValid(A.IdentityOf(snapshot.scope, b)) {
        return A.Refused(A.InvalidAuthority);
      }
      match a.frame.value.body {
        case LeaseAccepted(binding, sequence) =>
          if sequence != offered + 1 || binding != b {
            return A.Refused(A.InvalidAuthority);
          }
          AcceptAttempt(snapshot.scope, b, binding, offered, sequence, 0);
          reply := Materialize(o);
        case Cancel(binding, sequence, revision) =>
          if sequence != offered + 1 || binding != b {
            return A.Refused(A.InvalidAuthority);
          }
          AcceptAttempt(snapshot.scope, b, binding, offered, sequence, revision);
          reply := AbandonClaim(o);
        case _ => return A.Refused(A.InvalidAuthority);
      }
    }

    method Next(o: Oracle) returns (reply: A.Reply)
      requires receipts.cfg == cfg
      modifies this, receipts
      ensures (State(), reply) == A.Next(old(State()), cfg, o)
    {
      hide A.Claim;
      if !gateFree {
        return A.Refused(A.Busy);
      }
      if active.Some? {
        return A.Refused(A.AttemptActive);
      }
      var ready := Ask(o);
      if !ReadySnapshot(ready, cfg) {
        return A.Refused(A.SessionFenced);
      }
      var a := Ask(o);
      if !a.exchangeOk {
        return A.Refused(A.ReconciliationRequired);
      }
      if a.frame.None? {
        return A.Nothing;
      }
      if !FrameValid(a.frame.value) || !MatchesSession(a.frame.value, ready.snapshot) {
        return A.Refused(A.InvalidAuthority);
      }
      match a.frame.value.body {
        case LeaseOffer(b, sequence) => reply := ClaimAndMaterialize(ready.snapshot, b, sequence, o);
        case Revoke(_) =>
          var _ := Ask(o);
          return A.Refused(A.SessionFenced);
        case Drain(_) =>
          var c := Ask(o);
          return A.Refused(if c.exchangeOk then A.DrainRequested else A.ReconciliationRequired);
        case _ => return A.Refused(A.InvalidAuthority);
      }
    }

    method PollActiveControl(identity: Identity, withDrain: bool, o: Oracle) returns (reply: A.Reply)
      requires receipts.cfg == cfg
      modifies this, receipts
      ensures (State(), reply) == A.Poll(old(State()), identity, withDrain, cfg, o)
    {
      hide A.AcknowledgeCancel, A.ActiveAuthority;
      if !gateFree {
        return A.Refused(A.Busy);
      }
      if active.None? {
        return A.Refused(A.AttemptUnavailable);
      }
      if active.value.identity != identity {
        return A.Refused(A.InvalidAuthority);
      }
      if active.value.cancelRevision != 0 {
        return if active.value.cancelAcked then A.CancelHandled else A.Refused(A.ReconciliationRequired);
      }
      var ready := Ask(o);
      if !A.ActiveAuthority(active.value, cfg, ready) {
        return A.Refused(A.ReconciliationRequired);
      }
      var a := Ask(o);
      if !a.exchangeOk {
        return A.Refused(A.ReconciliationRequired);
      }
      if a.frame.None? {
        return A.Nothing;
      }
      if !MatchesSession(a.frame.value, a.snapshot) || !BodyValid(a.frame.value.body) {
        return A.Refused(A.InvalidAuthority);
      }
      match a.frame.value.body {
        case Cancel(binding, sequence, revision) =>
          if binding != active.value.binding || sequence != active.value.nextPlatform || revision != 1 {
            return A.Refused(A.InvalidAuthority);
          }
          reply := ApplyCancel(binding, sequence, revision, o);
        case Drain(revision) =>
          if !withDrain || active.value.drainRevision != 0 {
            return A.Refused(A.InvalidAuthority);
          }
          active := Some(active.value.(drainRevision := revision));
          var c := Ask(o);
          return if c.localOk then A.Nothing else A.Refused(A.ReconciliationRequired);
        case _ => return A.Refused(A.InvalidAuthority);
      }
    }

    method ApplyCancel(binding: Binding, sequence: nat, revision: nat, o: Oracle) returns (reply: A.Reply)
      requires active.Some?
      modifies this, receipts
      ensures (State(), reply) == A.ApplyCancel(old(State()), binding, sequence, revision, cfg, o)
    {
      hide A.AcknowledgeCancel, A.ActiveAuthority;
      active := Some(active.value.(cancelRevision := revision, nextPlatform := sequence + 1));
      trace := trace + [A.CancelSeen(Current(), sequence, binding)];
      var ready := Ask(o);
      if !A.ActiveAuthority(active.value, cfg, ready) {
        return A.Refused(A.ReconciliationRequired);
      }
      var a := Ask(o);
      if a.late {
        gateFree := false;
        return A.Refused(A.ReconciliationRequired);
      }
      if a.contextDone || !a.localOk {
        return A.Refused(A.ReconciliationRequired);
      }
      trace := trace + [A.LocallyCancelled(Current())];
      var acked := AcknowledgeCancel(o);
      return if acked then A.CancelHandled else A.Refused(A.ReconciliationRequired);
    }

    method Complete(report: A.Report, o: Oracle) returns (reply: A.Reply)
      requires receipts.cfg == cfg
      modifies this, receipts
      ensures (State(), reply) == A.Complete(old(State()), report, cfg, o)
    {
      hide A.CompleteOwned;
      if !gateFree {
        return A.Refused(A.Busy);
      }
      reply := CompleteOwned(report, o);
    }
  }
}
