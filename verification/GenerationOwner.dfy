/** The owner that acknowledges credential generations for one connection.

    One synchronization at a time holds the gate; the local credential head, the
    retirement and close of the owner, and checks of new input interleave with it at
    every step. The server and the connection checks answer anything. */
module GenerationOwner {
  import opened Base

  datatype Head = Head(generation: nat, revoked: bool)

  datatype Mode = Initial | Reconnect

  /** Local heads only move on: a higher generation, or a revocation of this one. */
  predicate Before(a: Head, b: Head) {
    a.generation < b.generation || (a.generation == b.generation && !a.revoked && b.revoked)
  }

  datatype Owner = Owner(
    mode: Mode,
    ack: Option<Head>,
    attempted: Option<Head>,
    reconnectRead: bool,
    retired: bool,
    closed: bool)
  {
    predicate Open() {
      !retired && !closed
    }
  }

  function Fresh(mode: Mode): Owner {
    Owner(mode, None, None, false, false, false)
  }

  datatype Decision = Denied | Confirm | Recover | Publish(expected: nat)

  predicate Publishable(ack: Option<Head>, target: Head) {
    target.revoked ||
    (match ack
     case None => target.generation == 1
     case Some(a) => !a.revoked && a.generation != MAX_UINT64 && target.generation == a.generation + 1)
  }

  /** The critical section that decides what one synchronization does with its target. */
  function Decide(o: Owner, target: Head, recovering: bool): (Owner, Decision) {
    if o.ack == Some(target) then (o, Confirm)
    else if recovering then
      if o.reconnectRead then (o, Denied) else (o.(reconnectRead := true), Recover)
    else if o.attempted == Some(target) then (o, Denied)
    else if !Publishable(o.ack, target) then (o, Denied)
    else (o.(attempted := Some(target)), Publish(match o.ack case None => 0 case Some(a) => a.generation))
  }

  /** The critical section that records an acknowledgement. */
  function Settle(o: Owner, target: Head): (Owner, bool) {
    if !o.Open() then (o, false) else (o.(ack := Some(target)), true)
  }

  function Retire(o: Owner): Owner {
    o.(retired := true, ack := None)
  }

  function BeginClose(o: Owner): Owner {
    o.(closed := true)
  }

  // ---------------------------------------------------------------------------
  // The interleaving

  /** Where the one synchronization is. */
  datatype Pc =
    | Idle
    | Entered
    | Targeted(target: Head, recovering: bool)
    | Publishing(target: Head)
    | Reading(target: Head, recovering: bool)
    | Confirming(target: Head)
    | Settling(target: Head)

  /** Where one check of new input is. */
  datatype Checker = Started | Read(head: Head) | Matched(head: Head)

  /** What happened, in order. */
  datatype Entry =
    | Published(head: Head)
    | ReadSent(recovering: bool)
    | Reported(head: Head)
    | LocalRead(head: Head)
    | Acked(head: Head)
    | Accepted(head: Head)
    | Retired

  datatype Machine = Machine(owner: Owner, local: Option<Head>, pc: Pc, checkers: seq<Checker>, trace: seq<Entry>)

  function Start(mode: Mode): Machine {
    Machine(Fresh(mode), None, Idle, [], [])
  }

  datatype Status = Applied | Replayed | OtherStatus

  datatype Answer = Result(status: Status, head: Head) | Unavailable | Failed

  /** Any step; `ok` is the verdict of the session, the clock and the local read. */
  datatype Step =
    | LocalMoves(head: Head)
    | RetireStep
    | CloseStep
    | Enter(ok: bool)
    | ReadTarget(ok: bool)
    | DecideStep
    | Answered(answer: Answer, ok: bool)
    | ReadAgain(ok: bool)
    | SettleStep
    | Abort
    | CheckBegins(ok: bool)
    | CheckReads(k: nat, ok: bool)
    | CheckMatches(k: nat)
    | CheckEnds(k: nat, ok: bool)

  function Log(m: Machine, e: Entry): Machine {
    m.(trace := m.trace + [e])
  }

  function TakeDecision(m: Machine): Machine
    requires m.pc.Targeted?
  {
    var target := m.pc.target;
    var (o, decision) := Decide(m.owner, target, m.pc.recovering);
    match decision
    case Denied => m.(owner := o, pc := Idle)
    case Confirm => m.(owner := o, pc := Confirming(target))
    case Recover => Log(m.(owner := o, pc := Reading(target, true)), ReadSent(true))
    case Publish(_) => Log(m.(owner := o, pc := Publishing(target)), Published(target))
  }

  /** The server's answer to a publication, or to the one readback after it. */
  function Receive(m: Machine, answer: Answer, ok: bool): Machine
    requires m.pc.Publishing? || m.pc.Reading?
  {
    match answer
    case Result(status, head) =>
      var enough := status.Applied? || (status.Replayed? && !(m.pc.Reading? && m.pc.recovering));
      if enough && head == m.pc.target then Log(m.(pc := Confirming(head)), Reported(head))
      else m.(pc := Idle)
    case Unavailable =>
      if m.pc.Publishing? && ok && m.owner.Open() then Log(m.(pc := Reading(m.pc.target, false)), ReadSent(false))
      else m.(pc := Idle)
    case Failed => m.(pc := Idle)
  }

  function Advance(m: Machine, s: Step): Machine {
    match s
    case LocalMoves(head) =>
      if m.local.None? || Before(m.local.value, head) then m.(local := Some(head)) else m
    case RetireStep => Log(m.(owner := Retire(m.owner)), Retired)
    case CloseStep => Log(m.(owner := BeginClose(m.owner)), Retired)
    case Enter(ok) => if m.pc.Idle? && ok && m.owner.Open() then m.(pc := Entered) else m
    case ReadTarget(ok) =>
      if !m.pc.Entered? then m
      else if m.local.None? || !ok || !m.owner.Open() then m.(pc := Idle)
      else m.(pc := Targeted(m.local.value, m.owner.mode.Reconnect? && m.owner.ack.None?))
    case DecideStep => if m.pc.Targeted? then TakeDecision(m) else m
    case Answered(answer, ok) => if m.pc.Publishing? || m.pc.Reading? then Receive(m, answer, ok) else m
    case ReadAgain(ok) =>
      if !m.pc.Confirming? then m
      else if !ok || m.local != Some(m.pc.target) || !m.owner.Open() then m.(pc := Idle)
      else Log(m.(pc := Settling(m.pc.target)), LocalRead(m.local.value))
    case SettleStep =>
      if !m.pc.Settling? then m
      else
        var (o, acked) := Settle(m.owner, m.pc.target);
        if acked then Log(m.(owner := o, pc := Idle), Acked(m.pc.target)) else m.(pc := Idle)
    case Abort => m.(pc := Idle)
    case CheckBegins(ok) => if ok && m.owner.Open() then m.(checkers := m.checkers + [Started]) else m
    case CheckReads(k, ok) =>
      if k < |m.checkers| && m.checkers[k].Started? && ok && m.local.Some? && !m.local.value.revoked
      then m.(checkers := m.checkers[k := Read(m.local.value)]) else m
    case CheckMatches(k) =>
      if k < |m.checkers| && m.checkers[k].Read? && m.owner.Open() && m.owner.ack == Some(m.checkers[k].head)
      then m.(checkers := m.checkers[k := Matched(m.checkers[k].head)]) else m
    case CheckEnds(k, ok) =>
      if k < |m.checkers| && m.checkers[k].Matched? && ok && m.owner.Open()
      then Log(m.(checkers := m.checkers[k := Started]), Accepted(m.checkers[k].head)) else m
  }

  function Steps(m: Machine, steps: seq<Step>): Machine
    decreases |steps|
  {
    if steps == [] then m
    else Advance(Steps(m, steps[..|steps| - 1]), steps[|steps| - 1])
  }

  // ---------------------------------------------------------------------------
  // What every entry of a trace must satisfy

  function LastAck(t: seq<Entry>): Option<Head> {
    if t == [] then None
    else if t[|t| - 1].Acked? then Some(t[|t| - 1].head)
    else LastAck(t[..|t| - 1])
  }

  function LastRead(t: seq<Entry>): Option<Head> {
    if t == [] then None
    else if t[|t| - 1].LocalRead? then Some(t[|t| - 1].head)
    else LastRead(t[..|t| - 1])
  }

  function LastPublished(t: seq<Entry>): Option<Head> {
    if t == [] then None
    else if t[|t| - 1].Published? then Some(t[|t| - 1].head)
    else LastPublished(t[..|t| - 1])
  }

  /** What a trace says about the next entry. */
  datatype Past = Past(
    ack: Option<Head>,
    read: Option<Head>,
    published: Option<Head>,
    retired: bool,
    quiet: bool,
    reported: set<Head>,
    acked: set<Head>)

  function PastOf(t: seq<Entry>): Past {
    Past(LastAck(t), LastRead(t), LastPublished(t), Retired in t,
         forall k | 0 <= k < |t| :: !t[k].ReadSent?,
         set e | e in t && e.Reported? :: e.head,
         set e | e in t && e.Acked? :: e.head)
  }

  function Note(p: Past, e: Entry): Past {
    match e
    case Published(h) => p.(published := Some(h))
    case ReadSent(_) => p.(quiet := false)
    case Reported(h) => p.(reported := p.reported + {h})
    case LocalRead(h) => p.(read := Some(h))
    case Acked(h) => p.(ack := Some(h), acked := p.acked + {h})
    case Accepted(_) => p
    case Retired => p.(retired := true)
  }

  /** An acknowledgement repeats the previous one or moves on from it; a usable one
      moves on by exactly one generation, and starts at one on a first connection. */
  predicate Rises(mode: Mode, previous: Option<Head>, h: Head) {
    match previous
    case None => mode.Initial? && !h.revoked ==> h.generation == 1
    case Some(p) => h == p || (Before(p, h) && (!h.revoked ==> !p.revoked && h.generation == p.generation + 1))
  }

  predicate EntryOk(mode: Mode, p: Past, e: Entry) {
    match e
    case Published(h) => (p.published.Some? ==> Before(p.published.value, h)) && (mode.Reconnect? ==> p.ack.Some?)
    case ReadSent(recovering) => mode.Reconnect? && p.ack.None? ==> recovering && p.quiet
    case Reported(_) => true
    case LocalRead(_) => true
    case Acked(h) => h in p.reported && p.read == Some(h) && !p.retired && Rises(mode, p.ack, h)
    case Accepted(h) => h in p.acked && !h.revoked && !p.retired
    case Retired => true
  }

  ghost predicate TraceOk(mode: Mode, t: seq<Entry>) {
    forall k | 0 <= k < |t| :: EntryOk(mode, PastOf(t[..k]), t[k])
  }

  // ---------------------------------------------------------------------------
  // The invariant

  predicate AtMost(a: Head, b: Option<Head>) {
    b.Some? && (a == b.value || Before(a, b.value))
  }

  /** The owner agrees with the trace. */
  predicate OwnerOk(o: Owner, local: Option<Head>, p: Past) {
    && (o.Open() <==> !p.retired)
    && (o.Open() ==> o.ack == p.ack)
    && (o.ack.Some? ==> o.ack == p.ack && o.ack.value in p.reported && o.ack.value in p.acked)
    && (p.ack.Some? ==> AtMost(p.ack.value, local))
    && (p.published.Some? ==> AtMost(p.published.value, o.attempted))
    && (o.attempted.Some? ==> AtMost(o.attempted.value, local))
    && (o.mode.Reconnect? && p.ack.None? ==> p.published.None? && (!o.reconnectRead ==> p.quiet))
  }

  /** What the synchronization at `pc` may rely on. */
  predicate PcOk(pc: Pc, o: Owner, local: Option<Head>, p: Past) {
    match pc
    case Idle => true
    case Entered => true
    case Targeted(target, recovering) =>
      && AtMost(target, local) && (recovering <==> o.mode.Reconnect? && p.ack.None?)
      && (o.attempted.Some? ==> AtMost(o.attempted.value, Some(target)))
      && (p.ack.Some? ==> AtMost(p.ack.value, Some(target)))
    case Publishing(target) =>
      && AtMost(target, local) && (o.mode.Reconnect? ==> p.ack.Some?)
      && (o.Open() ==> Rises(o.mode, p.ack, target))
    case Reading(target, recovering) =>
      && AtMost(target, local) && (o.Open() ==> Rises(o.mode, p.ack, target))
    case Confirming(target) =>
      && AtMost(target, local) && (o.Open() ==> Rises(o.mode, p.ack, target) && target in p.reported)
    case Settling(target) =>
      && AtMost(target, local) && p.read == Some(target)
      && (o.Open() ==> Rises(o.mode, p.ack, target) && target in p.reported)
  }

  predicate CheckersOk(checkers: seq<Checker>, p: Past) {
    forall k | 0 <= k < |checkers| ::
      match checkers[k]
      case Started => true
      case Read(h) => !h.revoked
      case Matched(h) => !h.revoked && h in p.acked
  }

  predicate StateOk(m: Machine, p: Past) {
    OwnerOk(m.owner, m.local, p) && PcOk(m.pc, m.owner, m.local, p) && CheckersOk(m.checkers, p)
  }

  ghost predicate Inv(m: Machine) {
    TraceOk(m.owner.mode, m.trace) && StateOk(m, PastOf(m.trace))
  }

  lemma Noted(t: seq<Entry>, e: Entry)
    ensures PastOf(t + [e]) == Note(PastOf(t), e)
  {
    var t' := t + [e];
    assert t'[..|t|] == t && t'[|t|] == e;
    assert PastOf(t').reported == Note(PastOf(t), e).reported;
    assert PastOf(t').acked == Note(PastOf(t), e).acked;
    assert e.ReadSent? ==> !PastOf(t').quiet;
  }

  lemma Extend(mode: Mode, t: seq<Entry>, e: Entry)
    requires TraceOk(mode, t) && EntryOk(mode, PastOf(t), e)
    ensures TraceOk(mode, t + [e])
  {
    hide EntryOk, PastOf;
    var t' := t + [e];
    forall k | 0 <= k < |t'|
      ensures EntryOk(mode, PastOf(t'[..k]), t'[k])
    {
      assert t'[..k] == if k < |t| then t[..k] else t;
    }
  }

  /** A step that records `e` keeps the invariant if the state agrees with one more entry. */
  lemma Recorded(m: Machine, m': Machine, e: Entry)
    requires Inv(m) && m'.trace == m.trace + [e] && m'.owner.mode == m.owner.mode
    requires EntryOk(m.owner.mode, PastOf(m.trace), e) && StateOk(m', Note(PastOf(m.trace), e))
    ensures Inv(m')
  {
    hide EntryOk, StateOk, PastOf;
    Noted(m.trace, e);
    Extend(m.owner.mode, m.trace, e);
  }

  lemma DecisionKeeps(m: Machine)
    requires Inv(m) && m.pc.Targeted?
    ensures Inv(TakeDecision(m))
  {
    hide PastOf, TraceOk;
    var target, m' := m.pc.target, TakeDecision(m);
    match Decide(m.owner, target, m.pc.recovering).1 {
      case Denied =>
      case Confirm =>
      case Recover => Recorded(m, m', ReadSent(true));
      case Publish(_) => Recorded(m, m', Published(target));
    }
  }

  lemma ReceiveKeeps(m: Machine, answer: Answer, ok: bool)
    requires Inv(m) && (m.pc.Publishing? || m.pc.Reading?)
    ensures Inv(Receive(m, answer, ok))
  {
    hide PastOf, TraceOk;
    var m' := Receive(m, answer, ok);
    if m'.pc.Confirming? {
      Recorded(m, m', Reported(m.pc.target));
    } else if m'.pc.Reading? {
      Recorded(m, m', ReadSent(false));
    }
  }

  lemma OwnStepKeeps(m: Machine, s: Step)
    requires Inv(m)
    requires s.LocalMoves? || s.RetireStep? || s.CloseStep? || s.Enter? || s.ReadTarget? || s.Abort?
    ensures Inv(Advance(m, s))
  {
    hide PastOf, TraceOk;
    if s.RetireStep? || s.CloseStep? {
      Recorded(m, Advance(m, s), Retired);
    }
  }

  lemma AckStepKeeps(m: Machine, s: Step)
    requires Inv(m) && (s.ReadAgain? || s.SettleStep?)
    ensures Inv(Advance(m, s))
  {
    hide PastOf, TraceOk;
    var m' := Advance(m, s);
    if m'.trace != m.trace {
      Recorded(m, m', if s.ReadAgain? then LocalRead(m.pc.target) else Acked(m.pc.target));
    }
  }

  lemma CheckKeeps(m: Machine, s: Step)
    requires Inv(m) && (s.CheckBegins? || s.CheckReads? || s.CheckMatches? || s.CheckEnds?)
    ensures Inv(Advance(m, s))
  {
    hide PastOf, TraceOk, PcOk;
    var m' := Advance(m, s);
    if s.CheckEnds? && m'.trace != m.trace {
      Recorded(m, m', Accepted(m.checkers[s.k].head));
    }
  }

  lemma AdvanceKeeps(m: Machine, s: Step)
    requires Inv(m)
    ensures Inv(Advance(m, s))
  {
    hide Inv;
    match s {
      case DecideStep => if m.pc.Targeted? { DecisionKeeps(m); }
      case Answered(answer, ok) => if m.pc.Publishing? || m.pc.Reading? { ReceiveKeeps(m, answer, ok); }
      case ReadAgain(_) => AckStepKeeps(m, s);
      case SettleStep => AckStepKeeps(m, s);
      case CheckBegins(_) => CheckKeeps(m, s);
      case CheckReads(_, _) => CheckKeeps(m, s);
      case CheckMatches(_) => CheckKeeps(m, s);
      case CheckEnds(_, _) => CheckKeeps(m, s);
      case _ => OwnStepKeeps(m, s);
    }
  }

  lemma ModeStays(m: Machine, s: Step)
    ensures Advance(m, s).owner.mode == m.owner.mode
  {
  }

  lemma {:induction false} StepsKeep(m: Machine, steps: seq<Step>)
    requires Inv(m)
    ensures Inv(Steps(m, steps)) && Steps(m, steps).owner.mode == m.owner.mode
    decreases |steps|
  {
    if steps != [] {
      hide Inv, Advance;
      StepsKeep(m, steps[..|steps| - 1]);
      AdvanceKeeps(Steps(m, steps[..|steps| - 1]), steps[|steps| - 1]);
      ModeStays(Steps(m, steps[..|steps| - 1]), steps[|steps| - 1]);
    }
  }

  // ---------------------------------------------------------------------------
  // Every run

  /** Every run keeps every rule of its trace. */
  lemma EveryRunIsOrderly(mode: Mode, steps: seq<Step>)
    ensures TraceOk(mode, Steps(Start(mode), steps).trace)
  {
    StepsKeep(Start(mode), steps);
  }

  lemma PrefixOk(mode: Mode, t: seq<Entry>, n: nat)
    requires TraceOk(mode, t) && n <= |t|
    ensures TraceOk(mode, t[..n])
  {
    hide EntryOk, PastOf;
    forall k | 0 <= k < n
      ensures EntryOk(mode, PastOf(t[..n][..k]), t[..n][k])
    {
      assert t[..n][..k] == t[..k];
    }
  }

  lemma PublishedBefore(mode: Mode, t: seq<Entry>, n: nat)
    requires TraceOk(mode, t) && n < |t| && t[n].Published? && LastPublished(t[..n]).Some?
    ensures Before(LastPublished(t[..n]).value, t[n].head)
  {
    assert EntryOk(mode, PastOf(t[..n]), t[n]);
  }

  lemma {:induction false} PublishedRises(mode: Mode, t: seq<Entry>, i: nat)
    requires TraceOk(mode, t) && i < |t| && t[i].Published?
    ensures LastPublished(t).Some? && AtMost(t[i].head, LastPublished(t))
  {
    hide TraceOk;
    if i < |t| - 1 {
      var n := |t| - 1;
      PrefixOk(mode, t, n);
      PublishedRises(mode, t[..n], i);
      if t[n].Published? {
        PublishedBefore(mode, t, n);
      }
    }
  }

  /** No target is published twice, however synchronizations fail. */
  lemma PublishedOnce(mode: Mode, steps: seq<Step>, i: nat, j: nat)
    requires i < j < |Steps(Start(mode), steps).trace|
    ensures var t := Steps(Start(mode), steps).trace;
            t[i].Published? && t[j].Published? ==> Before(t[i].head, t[j].head) && t[i].head != t[j].head
  {
    EveryRunIsOrderly(mode, steps);
    hide Steps;
    var t := Steps(Start(mode), steps).trace;
    if t[i].Published? && t[j].Published? {
      PrefixOk(mode, t, j);
      PublishedRises(mode, t[..j], i);
      PublishedBefore(mode, t, j);
    }
  }

  /** Every acknowledgement was reported by the server, equals the head read again
      locally, and follows the previous acknowledgement. */
  lemma AcksAreEarned(mode: Mode, steps: seq<Step>, k: nat)
    requires k < |Steps(Start(mode), steps).trace| && Steps(Start(mode), steps).trace[k].Acked?
    ensures var t := Steps(Start(mode), steps).trace;
            && Reported(t[k].head) in t[..k]
            && LastRead(t[..k]) == Some(t[k].head)
            && Rises(mode, LastAck(t[..k]), t[k].head)
  {
    EveryRunIsOrderly(mode, steps);
    assert EntryOk(mode, PastOf(Steps(Start(mode), steps).trace[..k]), Steps(Start(mode), steps).trace[k]);
  }

  /** Before its first acknowledgement a reconnected owner publishes nothing and sends
      at most one read. */
  lemma ReconnectOnlyReadsOnce(steps: seq<Step>, i: nat, j: nat)
    requires i <= j < |Steps(Start(Reconnect), steps).trace|
    requires LastAck(Steps(Start(Reconnect), steps).trace[..j]).None?
    ensures var t := Steps(Start(Reconnect), steps).trace;
            !t[j].Published? && (i < j && t[j].ReadSent? ==> !t[i].ReadSent?)
  {
    EveryRunIsOrderly(Reconnect, steps);
    var t := Steps(Start(Reconnect), steps).trace;
    assert EntryOk(Reconnect, PastOf(t[..j]), t[j]);
    assert i < j ==> t[..j][i] == t[i];
  }

  /** After retirement or close begins nothing is acknowledged or accepted. */
  lemma NothingAfterRetirement(mode: Mode, steps: seq<Step>, i: nat, j: nat)
    requires i < j < |Steps(Start(mode), steps).trace| && Steps(Start(mode), steps).trace[i].Retired?
    ensures var t := Steps(Start(mode), steps).trace; !t[j].Acked? && !t[j].Accepted?
  {
    EveryRunIsOrderly(mode, steps);
    var t := Steps(Start(mode), steps).trace;
    assert EntryOk(mode, PastOf(t[..j]), t[j]);
    assert t[..j][i] == Retired;
  }

  /** Accepted input names a head that was acknowledged and is not revoked. */
  lemma AcceptedWasAcked(mode: Mode, steps: seq<Step>, k: nat)
    requires k < |Steps(Start(mode), steps).trace| && Steps(Start(mode), steps).trace[k].Accepted?
    ensures var t := Steps(Start(mode), steps).trace; Acked(t[k].head) in t[..k] && !t[k].head.revoked
  {
    EveryRunIsOrderly(mode, steps);
    assert EntryOk(mode, PastOf(Steps(Start(mode), steps).trace[..k]), Steps(Start(mode), steps).trace[k]);
  }

  // ---------------------------------------------------------------------------
  // The owner as the mutable object it is; each method is one critical section

  class OwnerObject {
    const mode: Mode
    var ack: Option<Head>
    var attempted: Option<Head>
    var reconnectRead: bool
    var retired: bool
    var closed: bool

    constructor (mode: Mode)
      ensures State() == Fresh(mode)
    {
      this.mode, ack, attempted, reconnectRead, retired, closed := mode, None, None, false, false, false;
    }

    function State(): Owner
      reads this
    {
      Owner(mode, ack, attempted, reconnectRead, retired, closed)
    }

    method DecideTarget(target: Head, recovering: bool) returns (decision: Decision)
      modifies this
      ensures (State(), decision) == Decide(old(State()), target, recovering)
    {
      if ack == Some(target) {
        return Confirm;
      }
      if recovering {
        if reconnectRead {
          return Denied;
        }
        reconnectRead := true;
        return Recover;
      }
      if attempted == Some(target) {
        return Denied;
      }
      var expected := 0;
      if ack.Some? {
        expected := ack.value.generation;
      }
      if !target.revoked {
        if ack.None? && target.generation != 1 {
          return Denied;
        }
        if ack.Some? && (ack.value.revoked || expected == MAX_UINT64 || target.generation != expected + 1) {
          return Denied;
        }
      }
      attempted := Some(target);
      return Publish(expected);
    }

    method SettleAck(target: Head) returns (acked: bool)
      modifies this
      ensures (State(), acked) == Settle(old(State()), target)
    {
      if closed || retired {
        return false;
      }
      ack := Some(target);
      return true;
    }

    method RetireOwner()
      modifies this
      ensures State() == Retire(old(State()))
    {
      retired, ack := true, None;
    }

    method BeginCloseOwner()
      modifies this
      ensures State() == BeginClose(old(State()))
    {
      closed := true;
    }
  }
}
