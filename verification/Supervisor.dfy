/** One supervised attempt: what its outcome certifies about cleanup, for every outcome
    of every foreign step. The deferred actions of the run execute in reverse order of
    registration: boundary, conduit, socket, readers, attempt root, final check. */
module Supervisor {
  import opened Base

  /** One look at a process group or an isolation boundary. */
  datatype Look = Failed | Alive | Dead

  datatype Prepared = NoBoundary | Partial | Whole

  datatype Stream = Stdout | Stderr

  /** Whether a reader finished in time, only after its pipe was closed, or not at all. */
  datatype ReaderEnd = InTime | AfterClose | Never

  /** The outcomes of every foreign step of one run. Each boundary look has its own
      answer, in the order in which the run asks. */
  datatype Outcomes = Outcomes(
    native: bool,
    rootCreated: bool,
    setupOk: bool,
    socketCreated: bool,
    conduitStarted: bool,
    prepared: Prepared,
    launchOk: bool,
    started: bool,
    exited: bool,
    exitedAfterTerm: bool,
    exitedAfterKill: bool,
    group: Look,
    groupAfterTerm: Look,
    groupAfterKill: Look,
    looks: nat -> Look,
    gracefulOk: bool,
    forceOk: bool,
    releaseOk: bool,
    conduitStopOk: bool,
    socketCloseOk: bool,
    stdoutEnd: ReaderEnd,
    stderrEnd: ReaderEnd,
    rootRemoveOk: bool,
    cleanupExpired: bool)

  // How far the outcomes let a run come, and which cleanups they confirm.

  predicate SocketMade(o: Outcomes) {
    o.rootCreated && o.setupOk && o.native && o.socketCreated
  }

  predicate BoundaryMade(o: Outcomes) {
    && o.rootCreated && o.setupOk && (o.native ==> o.socketCreated && o.conduitStarted)
    && !o.prepared.NoBoundary?
  }

  predicate Launched(o: Outcomes) {
    BoundaryMade(o) && o.prepared.Whole? && o.launchOk && o.started
  }

  predicate Reaped(o: Outcomes) {
    && (o.exited || o.exitedAfterTerm || o.exitedAfterKill)
    && (o.group == Dead || (o.group == Alive &&
                            (o.groupAfterTerm == Dead || (o.groupAfterTerm == Alive && o.groupAfterKill == Dead))))
  }

  predicate TornDown(o: Outcomes) {
    || o.looks(0) == Dead
    || (o.looks(0) == Alive && o.gracefulOk && o.looks(1) == Dead)
    || (o.looks(0) == Alive && o.gracefulOk && o.looks(1) == Alive && o.forceOk && o.looks(2) == Dead)
  }

  /** Everything that was created was confirmed gone. */
  predicate CleanedUp(o: Outcomes) {
    && o.rootCreated && o.rootRemoveOk
    && (BoundaryMade(o) ==> TornDown(o) && o.releaseOk)
    && (SocketMade(o) ==> o.conduitStopOk && o.socketCloseOk)
    && (Launched(o) ==> o.stdoutEnd.InTime? && o.stderrEnd.InTime?)
    && !(o.native && o.cleanupExpired)
  }

  /** What the run did that matters for cleanup, in order. */
  datatype Effect =
    | RootCreated
    | SocketCreated
    | BoundaryCreated
    | ProcessStarted
    | GroupSeen(look: Look)
    | BoundarySeen(look: Look)
    | BoundaryReleased(ok: bool)
    | ConduitStopped(ok: bool)
    | SocketClosed(ok: bool)
    | ReaderJoined(stream: Stream)
    | ReaderLost(stream: Stream)
    | RootRemoved(ok: bool)

  datatype Result = Result(failed: bool, descendantsReaped: bool, boundaryReleased: bool, cleanupSucceeded: bool)

  type Log = seq<Effect>

  function LastLook(log: Log): Look {
    if log == [] then Failed
    else match log[|log| - 1]
         case BoundarySeen(look) => look
         case _ => LastLook(log[..|log| - 1])
  }

  function LastGroup(log: Log): Look {
    if log == [] then Failed
    else match log[|log| - 1]
         case GroupSeen(look) => look
         case _ => LastGroup(log[..|log| - 1])
  }

  predicate Has(log: Log, e: Effect) {
    e in log
  }

  /** The boundary, if there is one, was last seen dead and was then released. */
  ghost predicate BoundaryGone(log: Log) {
    Has(log, BoundaryCreated) ==> LastLook(log) == Dead && Has(log, BoundaryReleased(true))
  }

  /** Both readers, if the process started, ended before their pipes were closed. */
  ghost predicate ReadersJoined(log: Log) {
    Has(log, ProcessStarted) ==> Has(log, ReaderJoined(Stdout)) && Has(log, ReaderJoined(Stderr))
  }

  /** The socket and its conduit, if there are any, were closed without an error. */
  ghost predicate SocketGone(log: Log) {
    Has(log, SocketCreated) ==> Has(log, ConduitStopped(true)) && Has(log, SocketClosed(true))
  }

  ghost predicate Removed(log: Log) {
    exists ok :: Has(log, RootRemoved(ok))
  }

  lemma Append(log: Log, e: Effect)
    ensures LastLook(log + [e]) == if e.BoundarySeen? then e.look else LastLook(log)
    ensures LastGroup(log + [e]) == if e.GroupSeen? then e.look else LastGroup(log)
    ensures forall x :: Has(log + [e], x) <==> Has(log, x) || x == e
  {
    assert (log + [e])[..|log|] == log;
  }

  method Record(log: Log, e: Effect) returns (log': Log)
    ensures LastLook(log') == if e.BoundarySeen? then e.look else LastLook(log)
    ensures LastGroup(log') == if e.GroupSeen? then e.look else LastGroup(log)
    ensures forall x :: Has(log', x) <==> Has(log, x) || x == e
    ensures log' == log + [e]
  {
    Append(log, e);
    log' := log + [e];
  }

  /** A step that only looks at the boundary. */
  ghost predicate OnlyLooks(log: Log, log': Log) {
    && (forall x: Effect :: !x.BoundarySeen? ==> (Has(log', x) <==> Has(log, x)))
    && LastGroup(log') == LastGroup(log)
  }

  method See(o: Outcomes, log: Log, k: nat) returns (log': Log, look: Look)
    ensures look == o.looks(k) && LastLook(log') == look && OnlyLooks(log, log')
  {
    hide Has, LastLook, LastGroup;
    look := o.looks(k);
    log' := Record(log, BoundarySeen(look));
  }

  /** Stop the boundary gracefully, then by force. Success means that the last look
      found it dead and that every stop it needed succeeded; an unreadable boundary is
      never a success, even if a forced stop then kills it. */
  method TeardownBoundary(o: Outcomes, log: Log) returns (ok: bool, log': Log)
    ensures OnlyLooks(log, log')
    ensures ok ==> LastLook(log') == Dead
    ensures ok <==> TornDown(o)
  {
    var look: Look;
    log', look := See(o, log, 0);
    if look == Failed {
      log', look := See(o, log', 1);
      return false, log';
    }
    if look == Dead {
      return true, log';
    }
    log', look := See(o, log', 1);
    if look == Failed {
      log', look := See(o, log', 2);
      return false, log';
    }
    if look == Dead {
      return o.gracefulOk, log';
    }
    log', look := See(o, log', 2);
    return look == Dead && o.gracefulOk && o.forceOk, log';
  }

  /** A reader that had to be unblocked by closing its pipe is never complete. */
  method FinishReader(running: bool, end: ReaderEnd, stream: Stream, log: Log) returns (complete: bool, log': Log)
    ensures complete <==> !running || end.InTime?
    ensures running && complete ==> Has(log', ReaderJoined(stream))
    ensures forall x :: Has(log, x) ==> Has(log', x)
    ensures forall x :: Has(log', x) && !Has(log, x) ==>
                          x == if complete then ReaderJoined(stream) else ReaderLost(stream)
    ensures LastGroup(log') == LastGroup(log) && LastLook(log') == LastLook(log)
  {
    hide Has, LastLook, LastGroup;
    complete, log' := true, log;
    if running {
      complete := end.InTime?;
      log' := Record(log, if complete then ReaderJoined(stream) else ReaderLost(stream));
    }
  }

  /** How far the body of the run came, and what it returns. */
  datatype Stage = Stage(
    root: bool,
    socket: bool,
    boundary: bool,
    process: bool,
    teardownAttempted: bool,
    teardownOk: bool,
    failed: bool,
    descendantsReaped: bool)

  predicate Undoes(e: Effect) {
    || e.BoundaryReleased? || e.ConduitStopped? || e.SocketClosed?
    || e.ReaderJoined? || e.ReaderLost? || e.RootRemoved?
  }

  ghost predicate NothingUndone(log: Log) {
    forall e :: Has(log, e) ==> !Undoes(e)
  }

  /** The log shows what was created, and nothing has been undone yet. */
  ghost predicate Created(s: Stage, o: Outcomes, log: Log) {
    && (Has(log, RootCreated) <==> s.root)
    && (Has(log, SocketCreated) <==> s.socket)
    && (Has(log, BoundaryCreated) <==> s.boundary)
    && (Has(log, ProcessStarted) <==> s.process)
    && NothingUndone(log)
    && (s.root <==> o.rootCreated) && (s.socket <==> SocketMade(o))
    && (s.boundary <==> BoundaryMade(o)) && (s.process <==> Launched(o))
  }

  ghost predicate StageOk(s: Stage, o: Outcomes, log: Log) {
    && Created(s, o, log)
    && (s.teardownAttempted ==> s.boundary)
    && (s.teardownOk ==> s.teardownAttempted && LastLook(log) == Dead)
    && (s.descendantsReaped <==> !s.failed)
    && (s.descendantsReaped ==> LastGroup(log) == Dead && s.teardownOk)
    && (s.teardownAttempted ==> (s.teardownOk <==> TornDown(o)))
    && (!s.failed <==> Launched(o) && Reaped(o) && TornDown(o))
  }

  /** The attempt root and, for a native attempt, the socket. */
  method Prepare(o: Outcomes) returns (s: Stage, log: Log, ready: bool)
    ensures s == Stage(o.rootCreated, SocketMade(o), false, false, false, false, true, false)
    ensures ready <==> o.rootCreated && o.setupOk && (o.native ==> o.socketCreated && o.conduitStarted)
    ensures log == if SocketMade(o) then [RootCreated, SocketCreated] else if o.rootCreated then [RootCreated] else []
  {
    s, log := Stage(false, false, false, false, false, false, true, false), [];
    if !o.rootCreated {
      return s, log, false;
    }
    s, log := s.(root := true), [RootCreated];
    if !o.setupOk || (o.native && !o.socketCreated) {
      return s, log, false;
    }
    if o.native {
      s, log := s.(socket := true), [RootCreated, SocketCreated];
    }
    return s, log, o.native ==> o.conduitStarted;
  }

  lemma PreparedLog(log: Log)
    requires log in {[], [RootCreated], [RootCreated, SocketCreated]}
    ensures Has(log, RootCreated) <==> log != []
    ensures Has(log, SocketCreated) <==> log == [RootCreated, SocketCreated]
    ensures forall e :: Has(log, e) ==> e.RootCreated? || e.SocketCreated?
  {
  }

  /** Everything up to a started process. */
  method Launch(o: Outcomes) returns (s: Stage, log: Log)
    ensures Created(s, o, log) && s.failed && !s.teardownAttempted && !s.teardownOk && !s.descendantsReaped
  {
    hide Has, LastLook, LastGroup;
    var ready: bool;
    s, log, ready := Prepare(o);
    PreparedLog(log);
    if !ready || o.prepared.NoBoundary? {
      return;
    }
    log := Record(log, BoundaryCreated);
    s := s.(boundary := true);
    if o.prepared.Partial? || !o.launchOk || !o.started {
      return;
    }
    log := Record(log, ProcessStarted);
    s := s.(process := true);
  }

  /** The process has to be waited for, and its group has to be seen gone. */
  method Reap(o: Outcomes, log: Log) returns (gone: bool, log': Log)
    ensures gone <==> Reaped(o)
    ensures gone ==> LastGroup(log') == Dead
    ensures LastLook(log') == LastLook(log)
    ensures forall x: Effect :: !x.GroupSeen? ==> (Has(log', x) <==> Has(log, x))
  {
    hide Has, LastLook, LastGroup;
    log' := log;
    if !o.exited && !o.exitedAfterTerm && !o.exitedAfterKill {
      return false, log';
    }
    log' := Record(log', GroupSeen(o.group));
    if o.group != Alive {
      return o.group == Dead, log';
    }
    log' := Record(log', GroupSeen(o.groupAfterTerm));
    if o.groupAfterTerm != Alive {
      return o.groupAfterTerm == Dead, log';
    }
    log' := Record(log', GroupSeen(o.groupAfterKill));
    return o.groupAfterKill == Dead, log';
  }

  method Body(o: Outcomes) returns (s: Stage, log: Log)
    ensures StageOk(s, o, log)
  {
    hide Has, LastLook, LastGroup;
    s, log := Launch(o);
    if !s.process {
      return;
    }
    var gone: bool;
    gone, log := Reap(o, log);
    if !gone {
      return;
    }
    s := s.(teardownAttempted := true);
    var ok: bool;
    ok, log := TeardownBoundary(o, log);
    if !ok {
      return;
    }
    s := s.(teardownOk := true, descendantsReaped := true, failed := false);
  }

  /** The deferred boundary action: tear down unless the body already tried, then
      release in any case. */
  method DeferBoundary(o: Outcomes, s: Stage, log: Log) returns (teardownOk: bool, released: bool, log': Log)
    requires StageOk(s, o, log) && s.boundary
    ensures teardownOk ==> LastLook(log') == Dead
    ensures teardownOk <==> TornDown(o)
    ensures released == o.releaseOk
    ensures released <==> Has(log', BoundaryReleased(true))
    ensures LastGroup(log') == LastGroup(log)
    ensures forall x: Effect :: !x.BoundarySeen? && !x.BoundaryReleased? ==> (Has(log', x) <==> Has(log, x))
  {
    hide Has, LastLook, LastGroup;
    teardownOk, log' := s.teardownOk, log;
    if !s.teardownAttempted {
      teardownOk, log' := TeardownBoundary(o, log);
    }
    released := o.releaseOk;
    log' := Record(log', BoundaryReleased(released));
  }

  /** The deferred conduit and socket actions. */
  method DeferSocket(o: Outcomes, s: Stage, log: Log) returns (clean: bool, log': Log)
    requires s.socket <==> Has(log, SocketCreated)
    requires forall ok :: !Has(log, ConduitStopped(ok)) && !Has(log, SocketClosed(ok))
    ensures clean <==> SocketGone(log')
    ensures clean <==> (s.socket ==> o.conduitStopOk && o.socketCloseOk)
    ensures LastGroup(log') == LastGroup(log) && LastLook(log') == LastLook(log)
    ensures forall x: Effect :: !x.ConduitStopped? && !x.SocketClosed? ==> (Has(log', x) <==> Has(log, x))
  {
    hide Has, LastLook, LastGroup;
    clean, log' := true, log;
    if s.socket {
      log' := Record(log', ConduitStopped(o.conduitStopOk));
      log' := Record(log', SocketClosed(o.socketCloseOk));
      clean := o.conduitStopOk && o.socketCloseOk;
    }
  }

  /** The deferred reader actions. */
  method DeferReaders(o: Outcomes, s: Stage, log: Log) returns (complete: bool, log': Log)
    requires s.process <==> Has(log, ProcessStarted)
    requires forall x :: !Has(log, ReaderJoined(x))
    ensures complete <==> ReadersJoined(log')
    ensures complete <==> (s.process ==> o.stdoutEnd.InTime? && o.stderrEnd.InTime?)
    ensures LastGroup(log') == LastGroup(log) && LastLook(log') == LastLook(log)
    ensures forall x: Effect :: !x.ReaderJoined? && !x.ReaderLost? ==> (Has(log', x) <==> Has(log, x))
  {
    hide Has, LastLook, LastGroup;
    var out, err: bool;
    out, log' := FinishReader(s.process, o.stdoutEnd, Stdout, log);
    err, log' := FinishReader(s.process, o.stderrEnd, Stderr, log');
    complete := out && err;
  }

  /** All deferred actions before the attempt root's. */
  method Unwind(o: Outcomes, s: Stage, log: Log)
    returns (teardownOk: bool, released: bool, clean: bool, complete: bool, log': Log)
    requires StageOk(s, o, log)
    ensures s.boundary ==> (released <==> Has(log', BoundaryReleased(true)))
    ensures s.boundary && teardownOk ==> LastLook(log') == Dead
    ensures !s.boundary ==> !Has(log', BoundaryReleased(true))
    ensures teardownOk <==> (s.boundary ==> TornDown(o))
    ensures released <==> (s.boundary ==> o.releaseOk)
    ensures clean <==> SocketGone(log')
    ensures clean <==> (s.socket ==> o.conduitStopOk && o.socketCloseOk)
    ensures complete <==> ReadersJoined(log')
    ensures complete <==> (s.process ==> o.stdoutEnd.InTime? && o.stderrEnd.InTime?)
    ensures Has(log', BoundaryCreated) <==> s.boundary
    ensures Has(log', RootCreated) <==> s.root
    ensures LastGroup(log') == LastGroup(log)
    ensures forall ok :: !Has(log', RootRemoved(ok))
  {
    hide Has, LastLook, LastGroup;
    teardownOk, released, log' := true, true, log;
    if s.boundary {
      teardownOk, released, log' := DeferBoundary(o, s, log);
    }
    clean, log' := DeferSocket(o, s, log');
    complete, log' := DeferReaders(o, s, log');
  }

  /** The whole run with its deferred actions.

      No error means that the descendants were reaped, the boundary was released and
      the cleanup is certified. A certified cleanup means that any boundary was last
      seen dead and was released, both readers ended by themselves and the root was
      removed. The root of a native attempt is removed only after teardown, release,
      conduit, socket and readers are all confirmed. */
  method Run(o: Outcomes) returns (r: Result, log: Log)
    ensures !r.failed ==> r.descendantsReaped && r.boundaryReleased && r.cleanupSucceeded && Has(log, BoundaryCreated)
    ensures r.descendantsReaped ==> LastGroup(log) == Dead && LastLook(log) == Dead
    ensures r.boundaryReleased <==> Has(log, BoundaryReleased(true))
    ensures r.cleanupSucceeded ==>
              && Has(log, RootCreated) && Has(log, RootRemoved(true))
              && BoundaryGone(log) && ReadersJoined(log) && SocketGone(log)
              && !(o.native && o.cleanupExpired)
    ensures o.native && Removed(log) ==> BoundaryGone(log) && ReadersJoined(log) && SocketGone(log)
    ensures !o.native && Has(log, RootCreated) ==> Removed(log)
    ensures forall ok :: Has(log, RootRemoved(ok)) ==> Last(log) == Some(RootRemoved(ok))
    ensures r.cleanupSucceeded <==> CleanedUp(o)
    ensures !r.failed <==> Launched(o) && Reaped(o) && CleanedUp(o)
  {
    hide Has, LastLook, LastGroup;
    var s: Stage;
    s, log := Body(o);
    r := Result(s.failed, s.descendantsReaped, false, false);
    if !s.root {
      r := FinalCheck(o, r);
      return;
    }
    var teardownOk, released, clean, complete;
    teardownOk, released, clean, complete, log := Unwind(o, s, log);
    var unwound := teardownOk && released && clean && complete;
    r := r.(boundaryReleased := s.boundary && released, failed := r.failed || !unwound);
    if o.native && !unwound {
      r := r.(cleanupSucceeded := false, failed := true);
    } else {
      log := Record(log, RootRemoved(o.rootRemoveOk));
      r := r.(cleanupSucceeded := o.rootRemoveOk && unwound, failed := r.failed || !o.rootRemoveOk);
    }
    r := FinalCheck(o, r);
  }

  function Last(log: Log): Option<Effect> {
    if log == [] then None else Some(log[|log| - 1])
  }

  /** A native cleanup that ran out of its total budget certifies nothing. */
  function FinalCheck(o: Outcomes, r: Result): Result {
    if o.native && o.cleanupExpired then r.(cleanupSucceeded := false, failed := true) else r
  }

  // ---------------------------------------------------------------------------
  // Bounded output

  /** A buffer that keeps the first `limit` bytes of everything written to it. */
  class BoundedBuffer {
    const limit: nat
    const discard: bool
    var contents: seq<Byte>
    var count: nat
    ghost var stream: seq<Byte>

    ghost predicate Valid()
      reads this
    {
      && count == Min(|stream|, limit)
      && contents == (if discard then [] else stream[..count])
    }

    constructor (limit: nat, discard: bool)
      ensures Valid() && stream == [] && this.limit == limit && this.discard == discard
    {
      this.limit, this.discard, contents, count, stream := limit, discard, [], 0, [];
    }

    method Write(value: seq<Byte>) returns (n: nat, overflow: bool)
      requires Valid()
      modifies this
      ensures Valid() && stream == old(stream) + value
      ensures overflow <==> |value| > limit - old(count)
      ensures old(|stream|) <= limit ==> (overflow <==> |stream| > limit)
      ensures n == if overflow then 0 else |value|
    {
      var remaining := limit - count;
      stream := stream + value;
      if |value| > remaining {
        if remaining > 0 {
          if !discard {
            contents := contents + value[..remaining];
          }
          count := count + remaining;
        }
        return 0, true;
      }
      count := count + |value|;
      if !discard {
        contents := contents + value;
      }
      return |value|, false;
    }
  }
}
