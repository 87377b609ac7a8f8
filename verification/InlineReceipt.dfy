/** The one-shot inline receipt of one attempt: every network send first spends a
    burn bit in the durable journal. */
module InlineReceipt {
  import opened Base
  import opened InlineCheckpoint
  import Journals = InlineJournal
  import opened Environment

  const METADATA_WINDOW: int := 15_000_000

  datatype Attempt = Attempt(checkpoint: Checkpoint, completion: Completion, blocked: bool, retired: bool)

  /** When metadata was asked for: the clock, the caller's deadline and whether the session
      was ready. */
  datatype Moment = Moment(now: int, deadline: Option<int>, ready: bool)

  /** One network send, with the journal as it was at that moment. */
  datatype Send =
    | SendPrepare(plan: Plan, journal: Journals.Journal)
    | SendSubmit(nonce: string, fingerprint: string, capability: string, at: int, journal: Journals.Journal)
    | SendReconcile(nonce: string, fingerprint: string, bodySendBurned: bool, moment: Moment, journal: Journals.Journal)

  /** The attempt's memory, the durable journal and the sends made so far. */
  datatype World = World(attempt: Option<Attempt>, journal: Journals.Journal, tick: nat, sends: seq<Send>)

  datatype Failure = EvidenceInvalid | ReconciliationRequired

  datatype Outcome = Evidence(digest: string) | Failure(reason: Failure)

  function Tick(w: World): World {
    w.(tick := w.tick + 1)
  }

  function Block(w: World): World
    requires w.attempt.Some?
  {
    w.(attempt := Some(w.attempt.value.(blocked := true)))
  }

  /** The sends that the attempt's memory has not burned yet. */
  function Unburned(w: World): nat {
    match w.attempt
    case None => 2
    case Some(s) => Bit(!s.checkpoint.progress.bodyBurned) + Bit(!s.checkpoint.progress.reconcileBurned)
  }

  function Earlier(deadline: Option<int>, limit: int): Option<int> {
    match deadline
    case None => Some(limit)
    case Some(d) => Some(Min(d, limit))
  }

  /** Durably learn one fact. Anything but a newly applied transition blocks. */
  function Advance(w: World, f: Fact, o: Oracle): (r: (World, Option<Failure>))
    requires w.attempt.Some?
    ensures r.0.attempt.Some?
    ensures r.1.None? ==> r.0.attempt.value.checkpoint == Extend(w.attempt.value.checkpoint, f)
  {
    var a, s := o(w.tick), w.attempt.value;
    var next := Extend(s.checkpoint, f);
    if !a.encodeOk || !Valid(s.checkpoint) || !Valid(next) then (Tick(w), Some(EvidenceInvalid))
    else
      var reply := Journals.Advance(w.journal, s.checkpoint, next, a.io);
      var w1 := Tick(w).(journal := reply.journal);
      if reply.failed || !reply.applied then (Block(w1), Some(ReconciliationRequired))
      else (w1.(attempt := Some(s.(checkpoint := next))), None)
  }

  /** Burn the body bit, then send the body. The reply is the next answer. */
  function SubmitBody(w: World, capability: string, at: int, o: Oracle): (r: (World, Option<Failure>))
    requires w.attempt.Some?
    ensures r.0.attempt.Some?
    ensures r.1.None? ==> r.0.attempt.value.checkpoint == Extend(w.attempt.value.checkpoint, BodyBurn)
  {
    var p := w.attempt.value.checkpoint.plan;
    var (w1, failure) := Advance(w, BodyBurn, o);
    if failure.Some? then (w1, failure)
    else if !o(w1.tick).sourceOk then (Tick(w1), Some(ReconciliationRequired))
    else (Tick(w1).(sends := w1.sends + [SendSubmit(p.nonce, p.fingerprint, capability, at, w1.journal)]), None)
  }

  /** Burn the reconciliation bit, then ask for metadata. The reply is the next answer. */
  function AskMetadata(w: World, metadataOnly: bool, at: Moment, o: Oracle): (r: (World, Option<Failure>))
    requires w.attempt.Some?
    ensures r.0.attempt.Some?
    ensures r.1.None? ==> r.0.attempt.value.checkpoint == Extend(w.attempt.value.checkpoint, ReconcileBurn)
  {
    var c := w.attempt.value.checkpoint;
    var (w1, failure) := Advance(w, ReconcileBurn, o);
    if failure.Some? then (w1, failure)
    else
      var burned := metadataOnly || c.progress.bodyBurned;
      (w1.(sends := w1.sends + [SendReconcile(c.plan.nonce, c.plan.fingerprint, burned, at, w1.journal)]), None)
  }

  predicate ReplyMatches(p: Plan, response: PublisherReply) {
    && response.version == 2 && response.nonce == p.nonce
    && response.fingerprint == p.fingerprint && response.expiresAt == p.expiresAt
  }

  predicate ReadyAcceptable(c: Checkpoint, response: PublisherReply) {
    && ValidTransportDigest(response.canonical) && response.capability == ""
    && (c.plan.artifacts != [] ==> c.progress.bodyBurned)
  }

  predicate BodyGranted(c: Checkpoint, response: PublisherReply, now: int) {
    && now < c.plan.expiresAt && response.stage.Prepared? && !c.progress.bodyBurned
    && c.plan.artifacts != [] && ValidDigest(response.capability) && response.canonical == ""
  }

  /** How an exchange goes on: finished, a reconciliation, or another reply. */
  datatype Next =
    | Done(outcome: Outcome)
    | ToReconcile(deadline: Option<int>)
    | ToResolve(deadline: Option<int>, reply: PublisherReply)

  /** Record the canonical digest of an acceptable reply. */
  function AcceptReady(w: World, response: PublisherReply, o: Oracle): (r: (World, Next))
    requires w.attempt.Some?
    ensures r.0.attempt.Some? && r.1.Done?
  {
    if !ReadyAcceptable(w.attempt.value.checkpoint, response) then (w, Done(Failure(EvidenceInvalid)))
    else
      var (w1, failure) := Advance(w, CanonicalKnown(response.canonical), o);
      (w1, Done(if failure.None? then Evidence(response.canonical) else Failure(failure.value)))
  }

  /** Use a granted body capability once. */
  function SpendBody(w: World, deadline: Option<int>, response: PublisherReply, o: Oracle): (r: (World, Next))
    requires w.attempt.Some?
    ensures r.0.attempt.Some?
    ensures !r.1.Done? ==> Unburned(r.0) < Unburned(w)
  {
    if !BodyGranted(w.attempt.value.checkpoint, response, o(w.tick).now)
    then (Tick(w), Done(Failure(ReconciliationRequired)))
    else
      var (w1, failure) := SubmitBody(Tick(w), response.capability, o(w.tick).now, o);
      if failure.Some? then (w1, Done(Failure(failure.value)))
      else
        var a := o(w1.tick);
        if !a.replyOk || !a.reply.stage.Ready? then (Tick(w1), ToReconcile(deadline))
        else (Tick(w1), ToResolve(deadline, a.reply))
  }

  /** Interpret one publisher reply. */
  function Interpret(w: World, deadline: Option<int>, response: PublisherReply, o: Oracle): (r: (World, Next))
    requires w.attempt.Some?
    ensures r.0.attempt.Some?
    ensures !r.1.Done? ==> Unburned(r.0) < Unburned(w)
  {
    if !ReplyMatches(w.attempt.value.checkpoint.plan, response) then (w, Done(Failure(EvidenceInvalid)))
    else if response.stage.Ready? then AcceptReady(w, response, o)
    else SpendBody(w, deadline, response, o)
  }

  predicate MayReconcile(s: Attempt, cfg: Config, deadline: Option<int>, a: Answer) {
    && !s.blocked && !s.checkpoint.progress.reconcileBurned && !a.contextDone
    && (deadline.Some? ==> a.now < deadline.value)
    && (a.now < s.checkpoint.plan.expiresAt || ReadySnapshot(a, cfg))
  }

  /** Spend the one metadata reconciliation. */
  function Recover(w: World, cfg: Config, deadline: Option<int>, o: Oracle): (r: (World, Next))
    requires w.attempt.Some?
    ensures r.0.attempt.Some? && !r.1.ToReconcile?
    ensures !r.1.Done? ==> Unburned(r.0) < Unburned(w)
  {
    var a, s := o(w.tick), w.attempt.value;
    if !MayReconcile(s, cfg, deadline, a) then (Tick(w), Done(Failure(ReconciliationRequired)))
    else
      var metadataOnly := !(a.now < s.checkpoint.plan.expiresAt);
      var limit := if metadataOnly then Min(a.now + METADATA_WINDOW, a.snapshot.authenticationExpires)
                   else s.checkpoint.plan.expiresAt;
      var (w1, failure) := AskMetadata(Tick(w), metadataOnly, Moment(a.now, deadline, ReadySnapshot(a, cfg)), o);
      if failure.Some? then (w1, Done(Failure(failure.value)))
      else
        var b := o(w1.tick);
        if !b.replyOk || (metadataOnly && (!b.reply.stage.Ready? || b.reply.capability != ""))
        then (Tick(w1), Done(Failure(ReconciliationRequired)))
        else (Tick(w1), ToResolve(Earlier(deadline, limit), b.reply))
  }

  /** Resolving a reply and reconciling call each other, and every further call has
      burned another bit: that bounds the exchange. */
  function Exchange(w: World, cfg: Config, next: Next, o: Oracle): (World, Outcome)
    requires w.attempt.Some?
    decreases if next.Done? then 0 else 1 + Unburned(w)
  {
    match next
    case Done(outcome) => (w, outcome)
    case ToReconcile(deadline) => var (w1, n) := Recover(w, cfg, deadline, o); Exchange(w1, cfg, n, o)
    case ToResolve(deadline, reply) => var (w1, n) := Interpret(w, deadline, reply, o); Exchange(w1, cfg, n, o)
  }

  /** What one completion offers: `enabled` is the configuration and success test,
      `plan` the declaration of the pinned producer if it could be built. */
  datatype Offer = Offer(completion: Completion, enabled: bool, plan: Option<Plan>, deadline: Option<int>)

  /** Install the consumed identity before any durable or network call, seal it, and
      only then send Prepare. The reply is the next answer. */
  function SealAndPrepare(w: World, plan: Plan, completion: Completion, o: Oracle): (r: (World, Option<Failure>))
    ensures r.0.attempt.Some?
  {
    var a := o(w.tick);
    var w1 := Tick(w).(attempt := Some(Attempt(Initial(plan), completion, false, false)));
    if !a.encodeOk then (Block(w1), Some(EvidenceInvalid))
    else
      var sealing := Journals.Seal(w.journal, Initial(plan), a.io);
      var w2 := w1.(journal := sealing.journal);
      if sealing.failed then (Block(w2), Some(ReconciliationRequired))
      else if !o(w2.tick).sourceOk then (Tick(w2), Some(ReconciliationRequired))
      else (Tick(w2).(sends := w2.sends + [SendPrepare(plan, w2.journal)]), None)
  }

  function Publish(w: World, cfg: Config, offer: Offer, o: Oracle): (World, Outcome) {
    if !offer.enabled then (w, Failure(EvidenceInvalid))
    else match w.attempt
         case Some(s) =>
           if s.completion != offer.completion || s.blocked then (w, Failure(ReconciliationRequired))
           else if s.checkpoint.progress.canonical != "" then (w, Evidence(s.checkpoint.progress.canonical))
           else Exchange(w, cfg, ToReconcile(offer.deadline), o)
         case None =>
           if offer.plan.None? || !PlanValid(offer.plan.value) then (w, Failure(EvidenceInvalid))
           else
             var (w1, failure) := SealAndPrepare(w, offer.plan.value, offer.completion, o);
             if failure.Some? then (w1, Failure(failure.value))
             else
               var bound := Earlier(offer.deadline, offer.plan.value.expiresAt);
               var a := o(w1.tick);
               Exchange(Tick(w1), cfg, if a.replyOk then ToResolve(bound, a.reply) else ToReconcile(bound), o)
  }

  /** Record a verified terminal acknowledgement, then retire the journal record. */
  function Acknowledge(w: World, o: Oracle): (World, Option<Failure>) {
    if w.attempt.None? || w.attempt.value.blocked || w.attempt.value.checkpoint.progress.canonical == ""
    then (w, Some(ReconciliationRequired))
    else if w.attempt.value.retired then (w, None)
      else
        var (w1, failure) := if w.attempt.value.checkpoint.progress.terminalAcked then (w, None)
                             else Advance(w, AckRecorded, o);
        if failure.Some? then (w1, failure)
        else
          var a, s := o(w1.tick), w1.attempt.value;
          if !a.encodeOk then (Tick(w1), Some(EvidenceInvalid))
          else
            var reply := Journals.Retire(w1.journal, s.checkpoint, a.io);
            var w2 := Tick(w1).(journal := reply.journal);
            if reply.failed then (w2, Some(ReconciliationRequired))
            else (w2.(attempt := Some(s.(retired := true))), None)
  }

  // ---------------------------------------------------------------------------
  // Runs of one attempt

  datatype Call = PublishCall(offer: Offer) | AcknowledgeCall

  function Step(w: World, cfg: Config, call: Call, o: Oracle): World {
    match call
    case PublishCall(offer) => Publish(w, cfg, offer, o).0
    case AcknowledgeCall => Acknowledge(w, o).0
  }

  function Steps(w: World, cfg: Config, calls: seq<Call>, o: Oracle): World
    decreases |calls|
  {
    if calls == [] then w
    else Step(Steps(w, cfg, calls[..|calls| - 1], o), cfg, calls[|calls| - 1], o)
  }

  function Prepares(sends: seq<Send>): nat {
    if sends == [] then 0 else Prepares(sends[..|sends| - 1]) + Bit(sends[|sends| - 1].SendPrepare?)
  }

  function Submits(sends: seq<Send>): nat {
    if sends == [] then 0 else Submits(sends[..|sends| - 1]) + Bit(sends[|sends| - 1].SendSubmit?)
  }

  function Reconciles(sends: seq<Send>): nat {
    if sends == [] then 0 else Reconciles(sends[..|sends| - 1]) + Bit(sends[|sends| - 1].SendReconcile?)
  }

  /** The journal holds exactly this record and no crash can undo it. */
  ghost predicate Durable(j: Journals.Journal, c: Checkpoint) {
    |j.versions| == 1 && j.versions[0].record == Some(c)
  }

  /** Within the caller's deadline, and after the plan expired only on a ready session. */
  predicate InTime(moment: Moment, plan: Plan) {
    && (moment.deadline.Some? ==> moment.now < moment.deadline.value)
    && (plan.expiresAt <= moment.now ==> moment.ready)
  }

  /** The send spends a bit of this plan that is recorded, and durably so unless it is a
      Prepare of an attempt that did not start from a firm journal. */
  ghost predicate SendBurned(s: Send, plan: Plan, firm: bool) {
    && s.journal.Visible().Some?
    && (firm || !s.SendPrepare? ==> |s.journal.versions| == 1)
    && var c := s.journal.Visible().value;
    && Valid(c) && c.plan == plan
    && match s
       case SendPrepare(p, _) => p == plan && c.progress.prepareBurned
       case SendSubmit(nonce, fingerprint, capability, at, _) =>
         && nonce == plan.nonce && fingerprint == plan.fingerprint && ValidDigest(capability)
         && c.progress.bodyBurned && plan.artifacts != [] && at < plan.expiresAt
       case SendReconcile(nonce, fingerprint, bodySendBurned, moment, _) =>
         && nonce == plan.nonce && fingerprint == plan.fingerprint && c.progress.reconcileBurned
         && (c.progress.bodyBurned ==> bodySendBurned) && InTime(moment, plan)
  }

  /** A journal in which sealing any record leaves that record durable: it shows no record,
      or shows one that no crash can undo. */
  predicate Firm(j: Journals.Journal) {
    j.Visible().Some? ==> |j.versions| == 1
  }

  /** The record shows, and no crash can undo it; the first record of an attempt that did not
      start from a firm journal may be one that an earlier process never synced. */
  ghost predicate Held(j: Journals.Journal, c: Checkpoint, firm: bool) {
    j.Visible() == Some(c) && (firm || c.progress.revision > 1 ==> |j.versions| == 1)
  }

  /** Memory and disk agree, or an acknowledged record was already removed. */
  ghost predicate Coherent(j: Journals.Journal, c: Checkpoint, firm: bool) {
    Held(j, c, firm) || (c.progress.terminalAcked && j.Visible() == None)
  }

  ghost predicate AllBurned(sends: seq<Send>, plan: Plan, firm: bool) {
    forall i | 0 <= i < |sends| :: SendBurned(sends[i], plan, firm)
  }

  ghost predicate SendsOk(sends: seq<Send>, c: Checkpoint, firm: bool) {
    && AllBurned(sends, c.plan, firm)
    && Prepares(sends) <= 1
    && Submits(sends) <= Bit(c.progress.bodyBurned)
    && Reconciles(sends) <= Bit(c.progress.reconcileBurned)
  }

  ghost predicate AttemptOk(s: Attempt, j: Journals.Journal, firm: bool) {
    && Valid(s.checkpoint)
    && (!s.blocked ==> Coherent(j, s.checkpoint, firm))
    && (s.retired ==> !s.blocked && s.checkpoint.progress.terminalAcked && |j.versions| == 1 && j.Visible() == None)
  }

  ghost predicate Inv(w: World, firm: bool) {
    match w.attempt
    case None => w.sends == [] && (firm ==> Firm(w.journal))
    case Some(s) => AttemptOk(s, w.journal, firm) && SendsOk(w.sends, s.checkpoint, firm)
  }

  /** A sealed attempt that may still act. */
  ghost predicate Acting(s: Attempt, j: Journals.Journal) {
    && Valid(s.checkpoint) && !s.blocked && !s.retired && Durable(j, s.checkpoint)
  }

  ghost predicate Live(w: World, firm: bool) {
    && w.attempt.Some?
    && var s := w.attempt.value;
    && Valid(s.checkpoint) && !s.blocked && !s.retired
    && Held(w.journal, s.checkpoint, firm) && SendsOk(w.sends, s.checkpoint, firm)
  }

  /** The attempt kept its plan, its completion and every fact it knew. */
  ghost predicate Continues(w: World, w': World) {
    && w.attempt.Some? ==>
      && w'.attempt.Some?
      && w'.attempt.value.completion == w.attempt.value.completion
      && var c, c' := w.attempt.value.checkpoint, w'.attempt.value.checkpoint;
      && c'.plan == c.plan
      && (c.progress.canonical != "" ==> c'.progress.canonical == c.progress.canonical)
      && (c.progress.bodyBurned ==> c'.progress.bodyBurned)
      && (c.progress.reconcileBurned ==> c'.progress.reconcileBurned)
      && (c.progress.terminalAcked ==> c'.progress.terminalAcked)
  }

  lemma AdvanceKeeps(w: World, f: Fact, o: Oracle, firm: bool)
    requires Live(w, firm) && CanAdd(w.attempt.value.checkpoint, f)
    ensures var (w', failure) := Advance(w, f, o);
            && Inv(w', firm) && Continues(w, w') && w'.sends == w.sends
            && w'.attempt.value.retired == false
            && (failure.None? ==>
                  Live(w', firm) && w'.attempt.value.checkpoint == Extend(w.attempt.value.checkpoint, f))
            && (failure == Some(ReconciliationRequired) ==> w'.attempt.value.blocked)
            && w'.attempt.value.checkpoint.plan == w.attempt.value.checkpoint.plan
            && (!f.AckRecorded? && Unacked(w.journal) ==> Unacked(w'.journal))
            && (failure.None? ==> |w'.journal.versions| == 1)
  {
    hide Valid, AdvanceFrom, Prepares, Submits, Reconciles, SendBurned;
    ExtendAdvances(w.attempt.value.checkpoint, f);
  }

  lemma NotAcked(c: Checkpoint)
    requires Valid(c) && c.progress.canonical == ""
    ensures !c.progress.terminalAcked
  {
  }

  lemma NoSends()
    ensures Prepares([]) == Submits([]) == Reconciles([]) == 0
  {
  }

  lemma AppendSend(sends: seq<Send>, plan: Plan, e: Send, firm: bool)
    requires AllBurned(sends, plan, firm) && SendBurned(e, plan, firm)
    ensures AllBurned(sends + [e], plan, firm)
    ensures Prepares(sends + [e]) == Prepares(sends) + Bit(e.SendPrepare?)
    ensures Submits(sends + [e]) == Submits(sends) + Bit(e.SendSubmit?)
    ensures Reconciles(sends + [e]) == Reconciles(sends) + Bit(e.SendReconcile?)
  {
  }

  ghost predicate Undecided(w: World, firm: bool) {
    Live(w, firm) && w.attempt.value.checkpoint.progress.canonical == ""
  }

  /** Evidence is only ever returned after the digest was durably recorded. */
  ghost predicate Recorded(w: World, out: Outcome, firm: bool) {
    out.Evidence? ==>
      && Live(w, firm)
      && w.attempt.value.checkpoint.progress.canonical == out.digest != ""
  }

  ghost predicate Unacked(j: Journals.Journal) {
    forall i | 0 <= i < |j.versions| && j.versions[i].record.Some? :: !j.versions[i].record.value.progress.terminalAcked
  }

  ghost predicate Kept(w: World, w': World, firm: bool) {
    && Inv(w', firm) && Continues(w, w') && Prepares(w'.sends) == Prepares(w.sends)
    && (Unacked(w.journal) ==> Unacked(w'.journal))
  }

  lemma SubmitBodyKeeps(w: World, capability: string, at: int, o: Oracle, firm: bool)
    requires Undecided(w, firm) && ValidDigest(capability) && at < w.attempt.value.checkpoint.plan.expiresAt
    requires !w.attempt.value.checkpoint.progress.bodyBurned && w.attempt.value.checkpoint.plan.artifacts != []
    ensures var (w', failure) := SubmitBody(w, capability, at, o);
            Kept(w, w', firm) && (failure.None? ==> Undecided(w', firm))
  {
    hide Valid, Advance, Prepares, Submits, Reconciles;
    NotAcked(w.attempt.value.checkpoint);
    AdvanceKeeps(w, BodyBurn, o, firm);
    var p := w.attempt.value.checkpoint.plan;
    var (w1, failure) := Advance(w, BodyBurn, o);
    if failure.None? {
      var e := SendSubmit(p.nonce, p.fingerprint, capability, at, w1.journal);
      AppendSend(w1.sends, w1.attempt.value.checkpoint.plan, e, firm);
    }
  }

  lemma AskMetadataKeeps(w: World, metadataOnly: bool, at: Moment, o: Oracle, firm: bool)
    requires Undecided(w, firm) && !w.attempt.value.checkpoint.progress.reconcileBurned
    requires InTime(at, w.attempt.value.checkpoint.plan)
    ensures var (w', failure) := AskMetadata(w, metadataOnly, at, o);
            Kept(w, w', firm) && (failure.None? ==> Undecided(w', firm))
  {
    hide Valid, Advance, Prepares, Submits, Reconciles;
    NotAcked(w.attempt.value.checkpoint);
    AdvanceKeeps(w, ReconcileBurn, o, firm);
    var c := w.attempt.value.checkpoint;
    var (w1, failure) := Advance(w, ReconcileBurn, o);
    if failure.None? {
      var burned := metadataOnly || c.progress.bodyBurned;
      var e := SendReconcile(c.plan.nonce, c.plan.fingerprint, burned, at, w1.journal);
      AppendSend(w1.sends, w1.attempt.value.checkpoint.plan, e, firm);
    }
  }

  ghost predicate NextOk(w: World, next: Next, firm: bool) {
    if next.Done? then Recorded(w, next.outcome, firm) else Undecided(w, firm)
  }

  lemma AcceptReadyKeeps(w: World, response: PublisherReply, o: Oracle, firm: bool)
    requires Undecided(w, firm)
    ensures var (w', next) := AcceptReady(w, response, o); Kept(w, w', firm) && NextOk(w', next, firm)
  {
    if ReadyAcceptable(w.attempt.value.checkpoint, response) {
      AdvanceKeeps(w, CanonicalKnown(response.canonical), o, firm);
    }
  }

  lemma SpendBodyKeeps(w: World, deadline: Option<int>, response: PublisherReply, o: Oracle, firm: bool)
    requires Undecided(w, firm)
    ensures var (w', next) := SpendBody(w, deadline, response, o); Kept(w, w', firm) && NextOk(w', next, firm)
  {
    hide SubmitBody, Valid, Prepares, Submits, Reconciles;
    NotAcked(w.attempt.value.checkpoint);
    if BodyGranted(w.attempt.value.checkpoint, response, o(w.tick).now) {
      SubmitBodyKeeps(Tick(w), response.capability, o(w.tick).now, o, firm);
    }
  }

  lemma InterpretKeeps(w: World, deadline: Option<int>, response: PublisherReply, o: Oracle, firm: bool)
    requires Undecided(w, firm)
    ensures var (w', next) := Interpret(w, deadline, response, o); Kept(w, w', firm) && NextOk(w', next, firm)
  {
    hide AcceptReady, SpendBody;
    AcceptReadyKeeps(w, response, o, firm);
    SpendBodyKeeps(w, deadline, response, o, firm);
  }

  lemma RecoverKeeps(w: World, cfg: Config, deadline: Option<int>, o: Oracle, firm: bool)
    requires Undecided(w, firm)
    ensures var (w', next) := Recover(w, cfg, deadline, o); Kept(w, w', firm) && NextOk(w', next, firm)
  {
    hide SendsOk, Held, AskMetadata, Valid, Prepares, Submits, Reconciles;
    var a, s := o(w.tick), w.attempt.value;
    NotAcked(s.checkpoint);
    if MayReconcile(s, cfg, deadline, a) {
      var at := Moment(a.now, deadline, ReadySnapshot(a, cfg));
      AskMetadataKeeps(Tick(w), !(a.now < s.checkpoint.plan.expiresAt), at, o, firm);
    }
  }

  lemma {:induction false} ExchangeKeeps(w: World, cfg: Config, next: Next, o: Oracle, firm: bool)
    requires Inv(w, firm) && w.attempt.Some? && NextOk(w, next, firm)
    ensures var (w', out) := Exchange(w, cfg, next, o); Kept(w, w', firm) && Recorded(w', out, firm)
    decreases if next.Done? then 0 else 1 + Unburned(w)
  {
    hide Recover, Interpret;
    match next
    case Done(_) =>
    case ToReconcile(deadline) =>
      RecoverKeeps(w, cfg, deadline, o, firm);
      var (w1, n) := Recover(w, cfg, deadline, o);
      ExchangeKeeps(w1, cfg, n, o, firm);
    case ToResolve(deadline, reply) =>
      InterpretKeeps(w, deadline, reply, o, firm);
      var (w1, n) := Interpret(w, deadline, reply, o);
      ExchangeKeeps(w1, cfg, n, o, firm);
  }

  lemma PublishKeeps(w: World, cfg: Config, offer: Offer, o: Oracle, firm: bool)
    requires Inv(w, firm)
    ensures var (w', out) := Publish(w, cfg, offer, o);
            && Inv(w', firm) && Continues(w, w')
            && (w'.attempt.None? ==> w' == w)
            && (Unacked(w.journal) ==> Unacked(w'.journal))
            && (out.Evidence? ==>
                  && w'.attempt.Some? && !w'.attempt.value.blocked
                  && w'.attempt.value.checkpoint.progress.canonical == out.digest != ""
                  && w'.attempt.value.completion == offer.completion)
            && (w.attempt.None? && w'.attempt.Some? ==>
                  offer.plan == Some(w'.attempt.value.checkpoint.plan) &&
                  w'.attempt.value.completion == offer.completion)
  {
    hide Exchange, PlanValid;
    if offer.enabled {
      match w.attempt
      case Some(s) =>
        if s.completion == offer.completion && !s.blocked && s.checkpoint.progress.canonical == "" {
          ExchangeKeeps(w, cfg, ToReconcile(offer.deadline), o, firm);
        }
      case None =>
        if offer.plan.Some? && PlanValid(offer.plan.value) {
          FirstPublishKeeps(w, cfg, offer, o, firm);
        }
    }
  }

  lemma SealAndPrepareKeeps(w: World, plan: Plan, completion: Completion, o: Oracle, firm: bool)
    requires Inv(w, firm) && w.attempt.None? && PlanValid(plan)
    ensures var (w', failure) := SealAndPrepare(w, plan, completion, o);
            && Inv(w', firm)
            && w'.attempt.value.checkpoint.plan == plan && w'.attempt.value.completion == completion
            && (Unacked(w.journal) ==> Unacked(w'.journal))
            && (failure.None? ==> Undecided(w', firm))
  {
    hide Valid, Prepares, Submits, Reconciles;
    NoSends();
    InitialIsValid(plan);
    var a := o(w.tick);
    if a.encodeOk {
      var sealing := Journals.Seal(w.journal, Initial(plan), a.io);
      if !sealing.failed {
        assert Held(sealing.journal, Initial(plan), firm);
        AppendSend(w.sends, plan, SendPrepare(plan, sealing.journal), firm);
      }
    }
  }

  lemma FirstPublishKeeps(w: World, cfg: Config, offer: Offer, o: Oracle, firm: bool)
    requires Inv(w, firm) && w.attempt.None? && offer.enabled && offer.plan.Some? && PlanValid(offer.plan.value)
    ensures var (w', out) := Publish(w, cfg, offer, o);
            && Inv(w', firm) && Recorded(w', out, firm)
            && (Unacked(w.journal) ==> Unacked(w'.journal))
            && w'.attempt.Some?
            && w'.attempt.value.checkpoint.plan == offer.plan.value
            && w'.attempt.value.completion == offer.completion
  {
    hide SealAndPrepare, Exchange, PlanValid;
    var plan := offer.plan.value;
    SealAndPrepareKeeps(w, plan, offer.completion, o, firm);
    var (w1, failure) := SealAndPrepare(w, plan, offer.completion, o);
    if failure.None? {
      assert Undecided(Tick(w1), firm);
      var bound := Earlier(offer.deadline, plan.expiresAt);
      var a := o(w1.tick);
      ExchangeKeeps(Tick(w1), cfg, if a.replyOk then ToResolve(bound, a.reply) else ToReconcile(bound), o, firm);
    }
  }

  lemma RetireKeeps(w: World, o: Oracle, firm: bool)
    requires Inv(w, firm) && w.attempt.Some? && !w.attempt.value.blocked && !w.attempt.value.retired
    requires w.attempt.value.checkpoint.progress.terminalAcked
    ensures var (w', failure) := Acknowledge(w, o);
            && Inv(w', firm) && Continues(w, w') && w'.sends == w.sends
            && (failure.None? ==> w'.attempt.Some? && w'.attempt.value.retired)
  {
    hide Valid;
  }

  lemma AcknowledgeKeeps(w: World, o: Oracle, firm: bool)
    requires Inv(w, firm)
    ensures var (w', failure) := Acknowledge(w, o);
            && Inv(w', firm) && Continues(w, w') && w'.sends == w.sends
            && (failure.None? ==> w'.attempt.Some? && w'.attempt.value.retired)
  {
    if w.attempt.Some? && !w.attempt.value.blocked && w.attempt.value.checkpoint.progress.canonical != "" &&
       !w.attempt.value.retired {
      if w.attempt.value.checkpoint.progress.terminalAcked {
        RetireKeeps(w, o, firm);
      } else {
        AdvanceKeeps(w, AckRecorded, o, firm);
        var (w1, failure) := Advance(w, AckRecorded, o);
        if failure.None? {
          RetireKeeps(w1, o, firm);
          assert Acknowledge(w, o) == Acknowledge(w1, o);
        }
      }
    }
  }

  lemma StepKeeps(w: World, cfg: Config, call: Call, o: Oracle, firm: bool)
    requires Inv(w, firm)
    ensures Inv(Step(w, cfg, call, o), firm) && Continues(w, Step(w, cfg, call, o))
  {
    hide Publish, Acknowledge;
    match call
    case PublishCall(offer) => PublishKeeps(w, cfg, offer, o, firm);
    case AcknowledgeCall => AcknowledgeKeeps(w, o, firm);
  }

  lemma {:induction false} StepsKeep(w: World, cfg: Config, calls: seq<Call>, o: Oracle, firm: bool)
    requires Inv(w, firm)
    ensures Inv(Steps(w, cfg, calls, o), firm)
    decreases |calls|
  {
    if calls != [] {
      StepsKeep(w, cfg, calls[..|calls| - 1], o, firm);
      StepKeeps(Steps(w, cfg, calls[..|calls| - 1], o), cfg, calls[|calls| - 1], o, firm);
    }
  }

  /** Whatever the publisher replies, whichever journal writes fail and whatever the journal
      held, repeated completions of one attempt send at most one Prepare, one Submit and one
      Reconcile, each with its burn bit already recorded, all for one plan. The bit is durable
      too, except for a Prepare that found its own record unsynced in the journal. */
  lemma OneShotSends(journal: Journals.Journal, tick: nat, cfg: Config, calls: seq<Call>, o: Oracle)
    ensures var w := Steps(World(None, journal, tick, []), cfg, calls, o);
            && Prepares(w.sends) <= 1 && Submits(w.sends) <= 1 && Reconciles(w.sends) <= 1
            && |w.sends| <= 3
            && (w.sends != [] ==>
                  && w.attempt.Some?
                  && AllBurned(w.sends, w.attempt.value.checkpoint.plan, Firm(journal)))
  {
    StepsKeep(World(None, journal, tick, []), cfg, calls, o, Firm(journal));
    CountsCoverSends(Steps(World(None, journal, tick, []), cfg, calls, o).sends);
  }

  lemma {:induction false} CountsCoverSends(sends: seq<Send>)
    ensures |sends| == Prepares(sends) + Submits(sends) + Reconciles(sends)
  {
    if sends != [] {
      CountsCoverSends(sends[..|sends| - 1]);
    }
  }

  /** Once known, the plan and the canonical digest of an attempt never change, and
      no burned bit is ever unburned, over every continuation of the run. */
  lemma {:induction false} FactsArePermanent(w: World, cfg: Config, calls: seq<Call>, o: Oracle, firm: bool)
    requires Inv(w, firm)
    ensures Continues(w, Steps(w, cfg, calls, o))
    decreases |calls|
  {
    if calls != [] {
      var before := Steps(w, cfg, calls[..|calls| - 1], o);
      FactsArePermanent(w, cfg, calls[..|calls| - 1], o, firm);
      StepsKeep(w, cfg, calls[..|calls| - 1], o, firm);
      StepKeeps(before, cfg, calls[|calls| - 1], o, firm);
    }
  }

  /** Unless the attempt is blocked, its memory equals the record that shows until an
      acknowledged record has been removed, and that record is durable as soon as a fact was
      added to it, or from the start when the journal was firm. */
  lemma MemoryEqualsDisk(journal: Journals.Journal, tick: nat, cfg: Config, calls: seq<Call>, o: Oracle)
    ensures var w := Steps(World(None, journal, tick, []), cfg, calls, o);
            w.attempt.Some? && !w.attempt.value.blocked ==>
              if w.journal.Visible().Some? then Held(w.journal, w.attempt.value.checkpoint, Firm(journal))
              else w.attempt.value.checkpoint.progress.terminalAcked
  {
    StepsKeep(World(None, journal, tick, []), cfg, calls, o, Firm(journal));
    hide Steps, Valid, SendsOk;
  }

  // ---------------------------------------------------------------------------
  // An ambiguous retirement strands the attempt

  /** Acknowledged and not blocked, but the record left the disk without success. */
  ghost predicate Stranded(w: World) {
    && w.attempt.Some?
    && !w.attempt.value.blocked
    && !w.attempt.value.retired
    && w.attempt.value.checkpoint.progress.terminalAcked
    && w.attempt.value.checkpoint.progress.canonical != ""
    && w.journal.Visible() == None
  }

  /** The record was removed from disk although its removal was reported as failed. */
  predicate RemovedUnreported(a: Answer) {
    a.encodeOk && (a.io.SyncFailed? || a.io.LockLost?)
  }

  lemma RetiringStrandsExactly(w: World, o: Oracle)
    requires w.attempt.Some? && Acting(w.attempt.value, w.journal)
    requires w.attempt.value.checkpoint.progress.canonical != "" && w.attempt.value.checkpoint.progress.terminalAcked
    ensures Stranded(Acknowledge(w, o).0) <==> RemovedUnreported(o(w.tick))
  {
    hide Valid;
  }

  /** An advance that is not durable never leaves a stranded attempt. */
  lemma FailedAdvanceIsNotStranded(w: World, o: Oracle)
    requires w.attempt.Some? && !w.attempt.value.checkpoint.progress.terminalAcked
    ensures Advance(w, AckRecorded, o).1.Some? ==> !Stranded(Advance(w, AckRecorded, o).0)
    ensures Advance(w, AckRecorded, o).1.None? ==> o(w.tick).encodeOk && o(w.tick).io.Synced?
  {
    hide Valid, AdvanceFrom;
  }

  /** An acknowledgement strands the attempt exactly when the file was removed but the
      removal was reported as failed, whether the same call first records the
      acknowledgement or an earlier one did. */
  lemma StrandedExactly(w: World, o: Oracle, firm: bool)
    requires Live(w, firm) && w.attempt.value.checkpoint.progress.canonical != ""
    ensures Stranded(Acknowledge(w, o).0) <==>
            if w.attempt.value.checkpoint.progress.terminalAcked then RemovedUnreported(o(w.tick))
            else o(w.tick).encodeOk && o(w.tick).io.Synced? && RemovedUnreported(o(w.tick + 1))
  {
    hide SendsOk;
    assert Acting(w.attempt.value, w.journal);
    if w.attempt.value.checkpoint.progress.terminalAcked {
      RetiringStrandsExactly(w, o);
    } else if o(w.tick).encodeOk && o(w.tick).io.Synced? {
      AdvanceSucceeds(w, AckRecorded, o);
      hide Advance, Valid;
      var w1 := Learned(w, AckRecorded);
      assert Acknowledge(w, o) == Acknowledge(w1, o);
      RetiringStrandsExactly(w1, o);
    } else {
      FailedAdvanceIsNotStranded(w, o);
    }
  }

  /** No later call of any kind, with any environment, ends the stranded state: the
      attempt can never report success. */
  lemma {:induction false} StrandedForever(w: World, cfg: Config, calls: seq<Call>, o: Oracle)
    requires Stranded(w)
    ensures Stranded(Steps(w, cfg, calls, o))
    ensures Acknowledge(Steps(w, cfg, calls, o), o).1.Some?
    ensures Steps(w, cfg, calls, o).sends == w.sends
    decreases |calls|
  {
    if calls != [] {
      StrandedForever(w, cfg, calls[..|calls| - 1], o);
    }
  }

  // ---------------------------------------------------------------------------
  // The protocol is not merely safe: cooperative environments complete it

  ghost predicate Cooperative(a: Answer) {
    a.encodeOk && a.io.Synced? && a.sourceOk && a.replyOk && !a.contextDone
  }

  function ReadyReply(plan: Plan, digest: string): PublisherReply {
    PublisherReply(2, Ready, plan.nonce, plan.fingerprint, "", plan.expiresAt, digest)
  }

  function GrantReply(plan: Plan, capability: string): PublisherReply {
    PublisherReply(2, Prepared, plan.nonce, plan.fingerprint, capability, plan.expiresAt, "")
  }

  ghost predicate Fresh(w: World) {
    w.attempt.None? && w.sends == [] && |w.journal.versions| == 1 && w.journal.Visible() == None
  }

  function Learned(w: World, f: Fact): World
    requires w.attempt.Some? && w.journal.versions != []
  {
    var c := Extend(w.attempt.value.checkpoint, f);
    Tick(w).(attempt := Some(w.attempt.value.(checkpoint := c)),
    journal := w.journal.(versions := [w.journal.Last().(record := Some(c))]))
  }

  lemma AdvanceSucceeds(w: World, f: Fact, o: Oracle)
    requires w.attempt.Some? && Acting(w.attempt.value, w.journal) && CanAdd(w.attempt.value.checkpoint, f)
    requires o(w.tick).encodeOk && o(w.tick).io.Synced?
    ensures Advance(w, f, o) == (Learned(w, f), None)
    ensures Acting(Learned(w, f).attempt.value, Learned(w, f).journal)
  {
    ExtendAdvances(w.attempt.value.checkpoint, f);
  }

  function Sealed(w: World, plan: Plan, completion: Completion): World {
    var j := Journals.Journal([Journals.Version(w.journal.nextEpoch, Some(Initial(plan)))], w.journal.nextEpoch + 1);
    World(Some(Attempt(Initial(plan), completion, false, false)), j, w.tick + 2, [SendPrepare(plan, j)])
  }

  lemma SealSucceeds(w: World, plan: Plan, completion: Completion, o: Oracle)
    requires Fresh(w) && PlanValid(plan)
    requires Cooperative(o(w.tick)) && Cooperative(o(w.tick + 1))
    ensures SealAndPrepare(w, plan, completion, o) == (Sealed(w, plan, completion), None)
    ensures Acting(Sealed(w, plan, completion).attempt.value, Sealed(w, plan, completion).journal)
  {
    InitialIsValid(plan);
    var e := Sealed(w, plan, completion).sends[0];
    assert w.sends + [e] == [e];
  }

  lemma ReadySucceeds(w: World, deadline: Option<int>, digest: string, o: Oracle)
    requires w.attempt.Some? && Acting(w.attempt.value, w.journal)
    requires var c := w.attempt.value.checkpoint;
             c.progress.canonical == "" && (c.plan.artifacts != [] ==> c.progress.bodyBurned)
    requires ValidTransportDigest(digest)
    requires o(w.tick).encodeOk && o(w.tick).io.Synced?
    ensures Interpret(w, deadline, ReadyReply(w.attempt.value.checkpoint.plan, digest), o) ==
            (Learned(w, CanonicalKnown(digest)), Done(Evidence(digest)))
  {
  }

  lemma GrantSucceeds(w: World, deadline: Option<int>, capability: string, digest: string, o: Oracle)
    requires w.attempt.Some? && Acting(w.attempt.value, w.journal)
    requires var c := w.attempt.value.checkpoint; BodyGranted(c, GrantReply(c.plan, capability), o(w.tick).now)
    requires w.attempt.value.checkpoint.progress.canonical == ""
    requires Cooperative(o(w.tick + 1)) && Cooperative(o(w.tick + 2)) && Cooperative(o(w.tick + 3))
    requires o(w.tick + 3).reply == ReadyReply(w.attempt.value.checkpoint.plan, digest)
    ensures var p := w.attempt.value.checkpoint.plan;
            var w1 := Learned(Tick(w), BodyBurn);
            var e := SendSubmit(p.nonce, p.fingerprint, capability, o(w.tick).now, w1.journal);
            Interpret(w, deadline, GrantReply(p, capability), o) ==
            (Tick(Tick(w1)).(sends := w.sends + [e]), ToResolve(deadline, ReadyReply(p, digest)))
    ensures Acting(Learned(Tick(w), BodyBurn).attempt.value, Learned(Tick(w), BodyBurn).journal)
  {
    hide Advance;
    AdvanceSucceeds(Tick(w), BodyBurn, o);
  }

  /** A granted body is sent once and its digest recorded. */
  lemma GrantThenReady(w: World, cfg: Config, deadline: Option<int>, o: Oracle, capability: string, digest: string)
    requires w.attempt.Some? && Acting(w.attempt.value, w.journal)
    requires var c := w.attempt.value.checkpoint; BodyGranted(c, GrantReply(c.plan, capability), o(w.tick).now)
    requires w.attempt.value.checkpoint.progress.canonical == "" && ValidTransportDigest(digest)
    requires forall k | w.tick < k :: Cooperative(o(k))
    requires o(w.tick + 3).reply == ReadyReply(w.attempt.value.checkpoint.plan, digest)
    ensures var reply := GrantReply(w.attempt.value.checkpoint.plan, capability);
            var (w', out) := Exchange(w, cfg, ToResolve(deadline, reply), o);
            && out == Evidence(digest)
            && |w'.sends| == |w.sends| + 1 && w.sends <= w'.sends
            && w'.sends[|w.sends|].SendSubmit? && w'.sends[|w.sends|].capability == capability
            && w'.attempt.Some?
            && w'.attempt.value.checkpoint ==
               Extend(Extend(w.attempt.value.checkpoint, BodyBurn), CanonicalKnown(digest))
            && Durable(w'.journal, w'.attempt.value.checkpoint)
  {
    hide Interpret, Recover, Valid, ValidDigest, ValidTransportDigest;
    assert Cooperative(o(w.tick + 1)) && Cooperative(o(w.tick + 2)) && Cooperative(o(w.tick + 3));
    GrantSucceeds(w, deadline, capability, digest, o);
    var (w1, next) := Interpret(w, deadline, GrantReply(w.attempt.value.checkpoint.plan, capability), o);
    ReadySucceeds(w1, deadline, digest, o);
    assert Exchange(w1, cfg, next, o) == (Learned(w1, CanonicalKnown(digest)), Evidence(digest));
  }

  /** With artifacts, a granted capability is spent on one body and the digest is
      recorded: exactly one Prepare and one Submit, no reconciliation. */
  lemma GrantedBodyCompletes(w: World, cfg: Config, offer: Offer, o: Oracle, capability: string, digest: string)
    requires Fresh(w) && offer.enabled && offer.plan.Some? && PlanValid(offer.plan.value)
    requires offer.plan.value.artifacts != []
    requires ValidDigest(capability) && ValidTransportDigest(digest)
    requires forall k | w.tick <= k :: Cooperative(o(k)) && o(k).now < offer.plan.value.expiresAt
    requires o(w.tick + 2).reply == GrantReply(offer.plan.value, capability)
    requires o(w.tick + 6).reply == ReadyReply(offer.plan.value, digest)
    ensures var (w', out) := Publish(w, cfg, offer, o);
            && out == Evidence(digest)
            && |w'.sends| == 2 && w'.sends[0].SendPrepare? && w'.sends[1].SendSubmit?
            && w'.sends[1].capability == capability
            && Durable(w'.journal, Checkpoint(2, offer.plan.value, DigestOf(offer.plan.value),
                                              Progress(3, true, true, false, digest, false)))
  {
    hide SealAndPrepare, Interpret, Recover, PlanValid, ValidDigest, ValidTransportDigest;
    var plan := offer.plan.value;
    SealSucceeds(w, plan, offer.completion, o);
    var w1 := Tick(Sealed(w, plan, offer.completion));
    var bound := Earlier(offer.deadline, plan.expiresAt);
    GrantThenReady(w1, cfg, bound, o, capability, digest);
  }

  lemma RecoverSucceeds(w: World, cfg: Config, deadline: Option<int>, o: Oracle)
    requires w.attempt.Some? && Acting(w.attempt.value, w.journal)
    requires MayReconcile(w.attempt.value, cfg, deadline, o(w.tick))
    requires o(w.tick).now < w.attempt.value.checkpoint.plan.expiresAt
    requires w.attempt.value.checkpoint.progress.canonical == ""
    requires Cooperative(o(w.tick + 1)) && Cooperative(o(w.tick + 2))
    ensures var c, a := w.attempt.value.checkpoint, o(w.tick);
            var w1 := Learned(Tick(w), ReconcileBurn);
            var at := Moment(a.now, deadline, ReadySnapshot(a, cfg));
            var e := SendReconcile(c.plan.nonce, c.plan.fingerprint, c.progress.bodyBurned, at, w1.journal);
            Recover(w, cfg, deadline, o) ==
            (Tick(w1).(sends := w.sends + [e]), ToResolve(Earlier(deadline, c.plan.expiresAt), o(w.tick + 2).reply))
    ensures Acting(Learned(Tick(w), ReconcileBurn).attempt.value, Learned(Tick(w), ReconcileBurn).journal)
  {
    hide Advance;
    AdvanceSucceeds(Tick(w), ReconcileBurn, o);
  }

  /** The clock stays before the plan's expiry and the caller's deadline. */
  ghost predicate Early(o: Oracle, from: nat, offer: Offer)
    requires offer.plan.Some?
  {
    forall k | from <= k ::
      && o(k).now < offer.plan.value.expiresAt
      && (offer.deadline.Some? ==> o(k).now < offer.deadline.value)
  }

  /** A lost Prepare reply is recovered by one reconciliation, without a second
      Prepare, and the known digest is then returned without any further send. */
  lemma LostPrepareRecovers(w: World, cfg: Config, offer: Offer, o: Oracle, digest: string)
    requires Fresh(w) && offer.enabled && offer.plan.Some? && PlanValid(offer.plan.value)
    requires offer.plan.value.artifacts == []
    requires ValidTransportDigest(digest)
    requires forall k | w.tick <= k && k != w.tick + 2 :: Cooperative(o(k))
    requires Early(o, w.tick, offer) && !o(w.tick + 2).replyOk
    requires o(w.tick + 5).reply == ReadyReply(offer.plan.value, digest)
    ensures var (w', out) := Publish(w, cfg, offer, o);
            && out == Evidence(digest)
            && |w'.sends| == 2 && w'.sends[0].SendPrepare? && w'.sends[1].SendReconcile?
            && Publish(w', cfg, offer, o) == (w', Evidence(digest))
  {
    hide SealAndPrepare, Interpret, Recover, PlanValid, ValidTransportDigest;
    var plan := offer.plan.value;
    SealSucceeds(w, plan, offer.completion, o);
    var w1 := Tick(Sealed(w, plan, offer.completion));
    var bound := Earlier(offer.deadline, plan.expiresAt);
    RecoverSucceeds(w1, cfg, bound, o);
    var (w2, next) := Recover(w1, cfg, bound, o);
    ReadySucceeds(w2, next.deadline, digest, o);
    assert Exchange(w2, cfg, next, o) == (Learned(w2, CanonicalKnown(digest)), Evidence(digest));
    assert digest != "" by { NonEmptyDigest(digest); }
  }

  /** With artifacts the reconciliation grants the body: one Prepare, one Reconcile and one
      Submit, and the digest is recorded. */
  lemma LostGrantRecovers(w: World, cfg: Config, offer: Offer, o: Oracle, capability: string, digest: string)
    requires Fresh(w) && offer.enabled && offer.plan.Some? && PlanValid(offer.plan.value)
    requires offer.plan.value.artifacts != []
    requires ValidDigest(capability) && ValidTransportDigest(digest)
    requires forall k | w.tick <= k && k != w.tick + 2 :: Cooperative(o(k))
    requires Early(o, w.tick, offer) && !o(w.tick + 2).replyOk
    requires o(w.tick + 5).reply == GrantReply(offer.plan.value, capability)
    requires o(w.tick + 9).reply == ReadyReply(offer.plan.value, digest)
    ensures var (w', out) := Publish(w, cfg, offer, o);
            && out == Evidence(digest)
            && |w'.sends| == 3 && w'.sends[0].SendPrepare? && w'.sends[1].SendReconcile? && w'.sends[2].SendSubmit?
  {
    hide SealAndPrepare, Interpret, Recover, PlanValid, ValidDigest, ValidTransportDigest;
    var plan := offer.plan.value;
    SealSucceeds(w, plan, offer.completion, o);
    var w1 := Tick(Sealed(w, plan, offer.completion));
    var bound := Earlier(offer.deadline, plan.expiresAt);
    RecoverSucceeds(w1, cfg, bound, o);
    var (w2, next) := Recover(w1, cfg, bound, o);
    GrantThenReady(w2, cfg, next.deadline, o, capability, digest);
  }

  /** After the plan expired, a later completion on a ready session asks for metadata only.
      A ready answer then recovers the evidence exactly if there is no body or it was sent;
      nothing but that one request is sent. */
  lemma ExpiredRecoversExactly(w: World, cfg: Config, offer: Offer, o: Oracle, digest: string)
    requires w.attempt.Some? && Acting(w.attempt.value, w.journal) && offer.enabled
    requires w.attempt.value.completion == offer.completion && w.attempt.value.checkpoint.progress.canonical == ""
    requires MayReconcile(w.attempt.value, cfg, offer.deadline, o(w.tick))
    requires w.attempt.value.checkpoint.plan.expiresAt <= o(w.tick).now
    requires Cooperative(o(w.tick + 1)) && Cooperative(o(w.tick + 2)) && Cooperative(o(w.tick + 3))
    requires o(w.tick + 2).reply == ReadyReply(w.attempt.value.checkpoint.plan, digest)
    requires ValidTransportDigest(digest)
    ensures var c := w.attempt.value.checkpoint;
            var (w', out) := Publish(w, cfg, offer, o);
            && (out == Evidence(digest) <==> c.plan.artifacts == [] || c.progress.bodyBurned)
            && |w'.sends| == |w.sends| + 1 && w.sends <= w'.sends
            && w'.sends[|w.sends|].SendReconcile? && w'.sends[|w.sends|].bodySendBurned
  {
    var c, a := w.attempt.value.checkpoint, o(w.tick);
    var w1 := Learned(Tick(w), ReconcileBurn);
    var at := Moment(a.now, offer.deadline, ReadySnapshot(a, cfg));
    var e := SendReconcile(c.plan.nonce, c.plan.fingerprint, true, at, w1.journal);
    var w2 := Tick(w1).(sends := w.sends + [e]);
    var (w3, next) := Recover(w, cfg, offer.deadline, o);
    LateRecoverSucceeds(w, cfg, offer.deadline, o);
    hide Recover, ValidTransportDigest, Valid;
    assert w3 == w2 && next.ToResolve?;
    var (w4, last) := Interpret(w2, next.deadline, next.reply, o);
    if c.plan.artifacts == [] || c.progress.bodyBurned {
      ReadySucceeds(w2, next.deadline, digest, o);
    } else {
      assert last == Done(Failure(EvidenceInvalid)) && w4 == w2;
    }
    hide Interpret;
    assert Exchange(w2, cfg, next, o) == (w4, last.outcome);
    assert Exchange(w, cfg, ToReconcile(offer.deadline), o) == Exchange(w2, cfg, next, o);
  }

  lemma LateRecoverSucceeds(w: World, cfg: Config, deadline: Option<int>, o: Oracle)
    requires w.attempt.Some? && Acting(w.attempt.value, w.journal)
    requires MayReconcile(w.attempt.value, cfg, deadline, o(w.tick))
    requires w.attempt.value.checkpoint.plan.expiresAt <= o(w.tick).now
    requires w.attempt.value.checkpoint.progress.canonical == ""
    requires Cooperative(o(w.tick + 1)) && Cooperative(o(w.tick + 2))
    requires o(w.tick + 2).reply.stage.Ready? && o(w.tick + 2).reply.capability == ""
    ensures var c, a := w.attempt.value.checkpoint, o(w.tick);
            var w1 := Learned(Tick(w), ReconcileBurn);
            var at := Moment(a.now, deadline, ReadySnapshot(a, cfg));
            var e := SendReconcile(c.plan.nonce, c.plan.fingerprint, true, at, w1.journal);
            var limit := Min(a.now + METADATA_WINDOW, a.snapshot.authenticationExpires);
            Recover(w, cfg, deadline, o) ==
            (Tick(w1).(sends := w.sends + [e]), ToResolve(Earlier(deadline, limit), o(w.tick + 2).reply))
    ensures Acting(Learned(Tick(w), ReconcileBurn).attempt.value, Learned(Tick(w), ReconcileBurn).journal)
  {
    hide Advance;
    AdvanceSucceeds(Tick(w), ReconcileBurn, o);
  }

  lemma NonEmptyDigest(digest: string)
    requires ValidTransportDigest(digest)
    ensures digest != ""
  {
  }

  /** Over every run: a body was sent only before the plan expired and with a capability;
      metadata was asked for only within the caller's deadline, and after the plan expired
      only on a ready session. */
  lemma SendsRespectTime(journal: Journals.Journal, tick: nat, cfg: Config, calls: seq<Call>, o: Oracle, k: nat)
    requires k < |Steps(World(None, journal, tick, []), cfg, calls, o).sends|
    ensures var w := Steps(World(None, journal, tick, []), cfg, calls, o);
            && w.attempt.Some?
            && var plan, e := w.attempt.value.checkpoint.plan, w.sends[k];
            && (e.SendSubmit? ==> e.at < plan.expiresAt && ValidDigest(e.capability))
            && (e.SendReconcile? ==> InTime(e.moment, plan))
  {
    OneShotSends(journal, tick, cfg, calls, o);
    hide Steps;
    var w := Steps(World(None, journal, tick, []), cfg, calls, o);
    assert SendBurned(w.sends[k], w.attempt.value.checkpoint.plan, Firm(journal));
  }

  /** The recorded time of a body is the clock at the check that allowed it. */
  lemma BodyIsStamped(w: World, deadline: Option<int>, response: PublisherReply, o: Oracle)
    requires w.attempt.Some?
    ensures var sends := SpendBody(w, deadline, response, o).0.sends;
            sends != w.sends ==>
              && |sends| == |w.sends| + 1 && sends[|w.sends|].SendSubmit?
              && sends[|w.sends|].at == o(w.tick).now
  {
    hide Journals.Advance, Valid;
  }

  /** The recorded moment of a metadata request is the clock, the deadline and the session
      at the check that allowed it. */
  lemma MetadataIsStamped(w: World, cfg: Config, deadline: Option<int>, o: Oracle)
    requires w.attempt.Some?
    ensures var a, sends := o(w.tick), Recover(w, cfg, deadline, o).0.sends;
            sends != w.sends ==>
              && |sends| == |w.sends| + 1 && sends[|w.sends|].SendReconcile?
              && sends[|w.sends|].moment == Moment(a.now, deadline, ReadySnapshot(a, cfg))
  {
    hide Journals.Advance, Valid;
  }

  /** While writes succeed, an acknowledgement of known evidence removes the record. */
  lemma AcknowledgeSucceeds(w: World, o: Oracle, firm: bool)
    requires Live(w, firm) && w.attempt.value.checkpoint.progress.canonical != ""
    requires forall k | w.tick <= k :: o(k).encodeOk && o(k).io.Synced?
    ensures var (w', failure) := Acknowledge(w, o);
            && failure.None? && w'.tick > w.tick
            && w'.attempt.Some? && w'.attempt.value.retired && w'.journal.Visible() == None
  {
    hide SendsOk;
    assert Acting(w.attempt.value, w.journal);
    assert o(w.tick).encodeOk && o(w.tick + 1).encodeOk;
    if !w.attempt.value.checkpoint.progress.terminalAcked {
      AdvanceSucceeds(w, AckRecorded, o);
    }
    hide Advance, Valid;
  }

  // ---------------------------------------------------------------------------
  // What an earlier process leaves

  /** A Prepare is sent with its burn bit durable exactly when it started from a firm
      journal: sealing an identical record that already shows writes nothing. */
  lemma PrepareIsDurableExactly(w: World, plan: Plan, completion: Completion, o: Oracle)
    requires w.journal.versions != [] && PlanValid(plan) && SealAndPrepare(w, plan, completion, o).1.None?
    ensures Durable(SealAndPrepare(w, plan, completion, o).0.journal, Initial(plan)) <==>
            Firm(w.journal)
  {
    hide Valid;
  }

  /** A process that finds the initial record of an earlier one seals and prepares again:
      one Prepare is a promise of one process. */
  lemma EarlierRecordPreparesAgain(w: World, plan: Plan, completion: Completion, o: Oracle)
    requires PlanValid(plan) && w.journal.Visible() == Some(Initial(plan))
    requires Cooperative(o(w.tick)) && Cooperative(o(w.tick + 1))
    ensures var (w', failure) := SealAndPrepare(w, plan, completion, o);
            failure.None? && w'.journal == w.journal && w'.sends == w.sends + [SendPrepare(plan, w.journal)]
  {
    InitialIsValid(plan);
    hide Valid;
  }

  // ---------------------------------------------------------------------------
  // Evidence is what the publisher said

  /** A successful answer that is ready for this plan with this digest. */
  predicate ReadyAnswer(a: Answer, plan: Plan, digest: string) {
    && a.replyOk && ReplyMatches(plan, a.reply) && a.reply.stage.Ready?
    && a.reply.canonical == digest && ValidTransportDigest(digest) && a.reply.capability == ""
  }

  /** Such an answer arrived between two moments. */
  ghost predicate Said(o: Oracle, from: nat, to: nat, plan: Plan, digest: string) {
    exists k | from <= k < to :: ReadyAnswer(o(k), plan, digest)
  }

  ghost predicate Received(o: Oracle, from: nat, to: nat, reply: PublisherReply) {
    exists k | from <= k < to :: o(k).replyOk && o(k).reply == reply
  }

  function Canonical(w: World): string {
    if w.attempt.None? then "" else w.attempt.value.checkpoint.progress.canonical
  }

  /** What one round of an exchange may have learned. */
  ghost predicate Learns(w: World, w': World, next: Next, o: Oracle, from: nat) {
    && w.attempt.Some? && w'.attempt.Some? && w.tick <= w'.tick
    && w'.attempt.value.checkpoint.plan == w.attempt.value.checkpoint.plan
    && (Canonical(w') != "" ==> next.Done? && Said(o, from, w'.tick, w.attempt.value.checkpoint.plan, Canonical(w')))
    && (next.Done? && next.outcome.Evidence? ==> Canonical(w') == next.outcome.digest != "")
    && (next.ToResolve? ==> Received(o, from, w'.tick, next.reply))
  }

  lemma AdvanceTicks(w: World, f: Fact, o: Oracle)
    requires w.attempt.Some?
    ensures var (w', failure) := Advance(w, f, o);
            && w'.tick == w.tick + 1
            && w'.attempt.value.checkpoint.plan == w.attempt.value.checkpoint.plan
            && Canonical(w') == if failure.None? && f.CanonicalKnown? then f.digest else Canonical(w)
  {
  }

  lemma SpendLearns(w: World, deadline: Option<int>, response: PublisherReply, o: Oracle, from: nat)
    requires w.attempt.Some? && Canonical(w) == "" && from <= w.tick
    ensures var (w', n) := SpendBody(w, deadline, response, o); Learns(w, w', n, o, from)
  {
    hide Advance, BodyGranted;
    AdvanceTicks(Tick(w), BodyBurn, o);
    var (w1, failure) := SubmitBody(Tick(w), response.capability, o(w.tick).now, o);
    var a := o(w1.tick);
    assert a.replyOk ==> Received(o, from, w1.tick + 1, a.reply);
  }

  lemma InterpretLearns(w: World, deadline: Option<int>, response: PublisherReply, o: Oracle, from: nat)
    requires w.attempt.Some? && Canonical(w) == "" && from <= w.tick && Received(o, from, w.tick, response)
    ensures var (w', n) := Interpret(w, deadline, response, o); Learns(w, w', n, o, from)
  {
    var plan := w.attempt.value.checkpoint.plan;
    if ReplyMatches(plan, response) {
      if response.stage.Ready? {
        if ReadyAcceptable(w.attempt.value.checkpoint, response) {
          AdvanceTicks(w, CanonicalKnown(response.canonical), o);
          NonEmptyDigest(response.canonical);
          var k :| from <= k < w.tick && o(k).replyOk && o(k).reply == response;
          assert ReadyAnswer(o(k), plan, response.canonical);
          hide Advance, ValidTransportDigest;
        }
      } else {
        SpendLearns(w, deadline, response, o, from);
        hide SpendBody;
      }
    }
  }

  lemma RecoverLearns(w: World, cfg: Config, deadline: Option<int>, o: Oracle, from: nat)
    requires w.attempt.Some? && Canonical(w) == "" && from <= w.tick
    ensures var (w', n) := Recover(w, cfg, deadline, o); Learns(w, w', n, o, from)
  {
    hide Advance, MayReconcile;
    AdvanceTicks(Tick(w), ReconcileBurn, o);
    var metadataOnly := !(o(w.tick).now < w.attempt.value.checkpoint.plan.expiresAt);
    var at := Moment(o(w.tick).now, deadline, ReadySnapshot(o(w.tick), cfg));
    var (w1, failure) := AskMetadata(Tick(w), metadataOnly, at, o);
    var b := o(w1.tick);
    assert b.replyOk ==> Received(o, from, w1.tick + 1, b.reply);
  }

  lemma {:induction false} ExchangeLearns(w: World, cfg: Config, next: Next, o: Oracle, from: nat)
    requires w.attempt.Some? && from <= w.tick
    requires Canonical(w) != "" ==> next.Done? && Said(o, from, w.tick, w.attempt.value.checkpoint.plan, Canonical(w))
    requires next.Done? && next.outcome.Evidence? ==> Canonical(w) == next.outcome.digest != ""
    requires next.ToResolve? ==> Received(o, from, w.tick, next.reply)
    ensures var (w', out) := Exchange(w, cfg, next, o);
            && w'.attempt.Some? && w.tick <= w'.tick
            && (out.Evidence? ==> Said(o, from, w'.tick, w.attempt.value.checkpoint.plan, out.digest))
    decreases if next.Done? then 0 else 1 + Unburned(w)
  {
    hide Recover, Interpret, Said, Received;
    match next
    case Done(_) =>
    case ToReconcile(deadline) =>
      RecoverLearns(w, cfg, deadline, o, from);
      var (w1, n) := Recover(w, cfg, deadline, o);
      ExchangeLearns(w1, cfg, n, o, from);
    case ToResolve(deadline, reply) =>
      InterpretLearns(w, deadline, reply, o, from);
      var (w1, n) := Interpret(w, deadline, reply, o);
      ExchangeLearns(w1, cfg, n, o, from);
  }

  /** New evidence is the digest of a ready answer that the publisher gave during this
      very call, for exactly the nonce, fingerprint and expiry of the sealed plan. */
  lemma NewEvidenceWasSaid(w: World, cfg: Config, offer: Offer, o: Oracle)
    requires Canonical(w) == "" && Publish(w, cfg, offer, o).1.Evidence?
    ensures var (w', out) := Publish(w, cfg, offer, o);
            && (w.attempt.Some? || offer.plan.Some?)
            && var plan := if w.attempt.Some? then w.attempt.value.checkpoint.plan else offer.plan.value;
            Said(o, w.tick, w'.tick, plan, out.digest)
  {
    hide Exchange, PlanValid;
    if w.attempt.Some? {
      ExchangeLearns(w, cfg, ToReconcile(offer.deadline), o, w.tick);
    } else {
      hide Journals.Seal;
      var plan := offer.plan.value;
      var (w1, failure) := SealAndPrepare(w, plan, offer.completion, o);
      var bound := Earlier(offer.deadline, plan.expiresAt);
      var a := o(w1.tick);
      assert a.replyOk ==> Received(o, w.tick, w1.tick + 1, a.reply);
      ExchangeLearns(Tick(w1), cfg, if a.replyOk then ToResolve(bound, a.reply) else ToReconcile(bound), o, w.tick);
    }
  }

  // ---------------------------------------------------------------------------
  // The owner object

  class InlineOwner {
    const cfg: Config
    var attempt: Option<Attempt>
    var journal: Journals.Journal
    var tick: nat
    var sends: seq<Send>

    constructor (cfg: Config, journal: Journals.Journal, tick: nat)
      ensures State() == World(None, journal, tick, []) && this.cfg == cfg
    {
      this.cfg := cfg;
      this.attempt, this.journal, this.tick, this.sends := None, journal, tick, [];
    }

    function State(): World
      reads this
    {
      World(attempt, journal, tick, sends)
    }

    method Learn(f: Fact, o: Oracle) returns (failure: Option<Failure>)
      requires attempt.Some?
      modifies this
      ensures (State(), failure) == Advance(old(State()), f, o)
    {
      hide Valid, Journals.Advance;
      var a, s := o(tick), attempt.value;
      tick := tick + 1;
      var next := Extend(s.checkpoint, f);
      if !a.encodeOk || !Valid(s.checkpoint) || !Valid(next) {
        return Some(EvidenceInvalid);
      }
      var reply := Journals.Advance(journal, s.checkpoint, next, a.io);
      journal := reply.journal;
      if reply.failed || !reply.applied {
        attempt := Some(s.(blocked := true));
        return Some(ReconciliationRequired);
      }
      attempt := Some(s.(checkpoint := next));
      return None;
    }

    method Resolve(deadline: Option<int>, response: PublisherReply, o: Oracle) returns (out: Outcome)
      requires attempt.Some?
      modifies this
      ensures (State(), out) == Exchange(old(State()), cfg, ToResolve(deadline, response), o)
      decreases Unburned(State())
    {
      hide Advance, Recover, ValidDigest, ValidTransportDigest;
      ghost var w := State();
      var c := attempt.value.checkpoint;
      var p := c.plan;
      if response.version != 2 || response.nonce != p.nonce || response.fingerprint != p.fingerprint ||
         response.expiresAt != p.expiresAt {
        return Failure(EvidenceInvalid);
      }
      if response.stage.Ready? {
        if !ValidTransportDigest(response.canonical) || response.capability != "" ||
           (p.artifacts != [] && !c.progress.bodyBurned) {
          return Failure(EvidenceInvalid);
        }
        var failure := Learn(CanonicalKnown(response.canonical), o);
        return if failure.None? then Evidence(response.canonical) else Failure(failure.value);
      }
      var now := o(tick).now;
      tick := tick + 1;
      if !(now < p.expiresAt) || !response.stage.Prepared? || c.progress.bodyBurned || p.artifacts == [] ||
         !ValidDigest(response.capability) || response.canonical != "" {
        return Failure(ReconciliationRequired);
      }
      var failure := Learn(BodyBurn, o);
      if failure.Some? {
        return Failure(failure.value);
      }
      var current := o(tick).sourceOk;
      tick := tick + 1;
      if !current {
        return Failure(ReconciliationRequired);
      }
      sends := sends + [SendSubmit(p.nonce, p.fingerprint, response.capability, now, journal)];
      var a := o(tick);
      tick := tick + 1;
      ghost var (w1, next) := Interpret(w, deadline, response, o);
      assert State() == w1;
      if !a.replyOk || !a.reply.stage.Ready? {
        out := Reconcile(deadline, o);
      } else {
        out := Resolve(deadline, a.reply, o);
      }
    }

    method Reconcile(deadline: Option<int>, o: Oracle) returns (out: Outcome)
      requires attempt.Some?
      modifies this
      ensures (State(), out) == Exchange(old(State()), cfg, ToReconcile(deadline), o)
      decreases Unburned(State())
    {
      hide Advance, Interpret;
      ghost var w := State();
      var a, c := o(tick), attempt.value.checkpoint;
      tick := tick + 1;
      if attempt.value.blocked || c.progress.reconcileBurned || a.contextDone {
        return Failure(ReconciliationRequired);
      }
      if deadline.Some? && !(a.now < deadline.value) {
        return Failure(ReconciliationRequired);
      }
      var limit := c.plan.expiresAt;
      var metadataOnly := !(a.now < limit);
      if metadataOnly {
        if !ReadySnapshot(a, cfg) {
          return Failure(ReconciliationRequired);
        }
        limit := a.now + METADATA_WINDOW;
        if a.snapshot.authenticationExpires < limit {
          limit := a.snapshot.authenticationExpires;
        }
      }
      var failure := Learn(ReconcileBurn, o);
      if failure.Some? {
        return Failure(failure.value);
      }
      var burned := metadataOnly || c.progress.bodyBurned;
      var at := Moment(a.now, deadline, ReadySnapshot(a, cfg));
      sends := sends + [SendReconcile(c.plan.nonce, c.plan.fingerprint, burned, at, journal)];
      var b := o(tick);
      tick := tick + 1;
      ghost var (w1, next) := Recover(w, cfg, deadline, o);
      assert State() == w1;
      if !b.replyOk || (metadataOnly && (!b.reply.stage.Ready? || b.reply.capability != "")) {
        return Failure(ReconciliationRequired);
      }
      out := Resolve(Earlier(deadline, limit), b.reply, o);
    }

    method PublishReceipt(offer: Offer, o: Oracle) returns (out: Outcome)
      modifies this
      ensures (State(), out) == Publish(old(State()), cfg, offer, o)
    {
      hide Exchange, PlanValid, Journals.Seal;
      if !offer.enabled {
        return Failure(EvidenceInvalid);
      }
      if attempt.Some? {
        if attempt.value.completion != offer.completion || attempt.value.blocked {
          return Failure(ReconciliationRequired);
        }
        if attempt.value.checkpoint.progress.canonical != "" {
          return Evidence(attempt.value.checkpoint.progress.canonical);
        }
        out := Reconcile(offer.deadline, o);
        return;
      }
      if offer.plan.None? || !PlanValid(offer.plan.value) {
        return Failure(EvidenceInvalid);
      }
      var plan := offer.plan.value;
      attempt := Some(Attempt(Initial(plan), offer.completion, false, false));
      var a := o(tick);
      tick := tick + 1;
      if !a.encodeOk {
        attempt := Some(attempt.value.(blocked := true));
        return Failure(EvidenceInvalid);
      }
      var sealing := Journals.Seal(journal, Initial(plan), a.io);
      journal := sealing.journal;
      if sealing.failed {
        attempt := Some(attempt.value.(blocked := true));
        return Failure(ReconciliationRequired);
      }
      var current := o(tick).sourceOk;
      tick := tick + 1;
      if !current {
        return Failure(ReconciliationRequired);
      }
      sends := sends + [SendPrepare(plan, journal)];
      var b := o(tick);
      tick := tick + 1;
      if b.replyOk {
        out := Resolve(Earlier(offer.deadline, plan.expiresAt), b.reply, o);
      } else {
        out := Reconcile(Earlier(offer.deadline, plan.expiresAt), o);
      }
    }

    method AcknowledgeReceipt(o: Oracle) returns (failure: Option<Failure>)
      modifies this
      ensures (State(), failure) == Acknowledge(old(State()), o)
    {
      hide Advance, Journals.Retire;
      if attempt.None? || attempt.value.blocked || attempt.value.checkpoint.progress.canonical == "" {
        return Some(ReconciliationRequired);
      }
      if attempt.value.retired {
        return None;
      }
      if !attempt.value.checkpoint.progress.terminalAcked {
        failure := Learn(AckRecorded, o);
        if failure.Some? {
          return;
        }
      }
      var a, s := o(tick), attempt.value;
      tick := tick + 1;
      if !a.encodeOk {
        return Some(EvidenceInvalid);
      }
      var reply := Journals.Retire(journal, s.checkpoint, a.io);
      journal := reply.journal;
      if reply.failed {
        return Some(ReconciliationRequired);
      }
      attempt := Some(s.(retired := true));
      return None;
    }
  }
}
