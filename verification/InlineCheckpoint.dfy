/** The inline receipt checkpoint: an immutable plan and its monotone progress.
    Digests of plans are modelled as injective constructors. */
module InlineCheckpoint {
  import opened Base

  const MAX_INLINE_ARTIFACTS: nat := 2
  const MAX_INLINE_ARTIFACT_BYTES: nat := 0x8000
  const MAX_INLINE_TOTAL_BYTES: nat := 0x1_0000

  datatype Authorization = Authorization(scope: Scope, binding: Binding, attemptSequence: nat)

  datatype Artifact = Artifact(name: string, size: nat, digest: string)

  /** `wellFormed` stands for the identifier, timestamp, artifact name and media
      type checks. */
  datatype Plan = Plan(
    authorization: Authorization,
    nonce: string,
    fingerprint: string,
    producer: string,
    artifacts: seq<Artifact>,
    observationDigest: string,
    acceptedAt: int,
    expiresAt: int,
    workerSequence: nat,
    platformSequence: nat,
    terminalSequence: nat,
    wellFormed: bool)

  datatype PlanDigest = DigestOf(plan: Plan) | ForeignDigest(text: string)

  /** `canonical` is empty until the server reported its canonical digest. */
  datatype Progress = Progress(
    revision: nat,
    prepareBurned: bool,
    bodyBurned: bool,
    reconcileBurned: bool,
    canonical: string,
    terminalAcked: bool)

  datatype Checkpoint = Checkpoint(version: nat, plan: Plan, planDigest: PlanDigest, progress: Progress)

  predicate Counter(n: nat) {
    0 < n < MAX_UINT64
  }

  function TotalSize(artifacts: seq<Artifact>): nat {
    if artifacts == [] then 0 else TotalSize(artifacts[..|artifacts| - 1]) + artifacts[|artifacts| - 1].size
  }

  predicate PlanValid(p: Plan) {
    && p.wellFormed
    && p.authorization.attemptSequence == 1
    && Counter(p.authorization.scope.enrollmentGeneration)
    && Counter(p.authorization.scope.connectionGeneration)
    && Counter(p.authorization.binding.leaseGeneration)
    && Counter(p.workerSequence)
    && Counter(p.platformSequence)
    && p.terminalSequence == 1
    && p.authorization.binding.expiresAt > 0
    && p.acceptedAt < p.expiresAt <= p.authorization.binding.expiresAt
    && ValidDigest(p.fingerprint)
    && ValidDigest(p.observationDigest)
    && |p.artifacts| <= MAX_INLINE_ARTIFACTS
    && TotalSize(p.artifacts) <= MAX_INLINE_TOTAL_BYTES
    && (forall i | 0 <= i < |p.artifacts| ::
          0 < p.artifacts[i].size <= MAX_INLINE_ARTIFACT_BYTES && ValidDigest(p.artifacts[i].digest))
  }

  function FactCount(p: Progress): nat {
    Bit(p.bodyBurned) + Bit(p.reconcileBurned) + Bit(p.canonical != "") + Bit(p.terminalAcked)
  }

  predicate Valid(c: Checkpoint) {
    var p := c.progress;
    && c.version == 2
    && PlanValid(c.plan)
    && c.planDigest == DigestOf(c.plan)
    && p.prepareBurned
    && 0 < p.revision <= 6
    && (p.bodyBurned ==> c.plan.artifacts != [])
    && (p.terminalAcked ==> p.canonical != "")
    && (p.canonical != "" ==> ValidDigest(p.canonical) && (c.plan.artifacts != [] ==> p.bodyBurned))
    && p.revision == 1 + FactCount(p)
  }

  /** The checkpoint an attempt seals before it may send anything. */
  function Initial(plan: Plan): Checkpoint {
    Checkpoint(2, plan, DigestOf(plan), Progress(1, true, false, false, "", false))
  }

  /** An identical record, or exactly one new fact at the next revision. */
  predicate AdvanceFrom(c: Checkpoint, previous: Checkpoint) {
    var next, prior := c.progress, previous.progress;
    && Valid(c)
    && Valid(previous)
    && c.planDigest == previous.planDigest
    && c.plan == previous.plan
    && (next == prior ||
        (&& !prior.terminalAcked
         && next.revision == prior.revision + 1
         && prior.prepareBurned == next.prepareBurned
         && (prior.bodyBurned ==> next.bodyBurned)
         && (prior.reconcileBurned ==> next.reconcileBurned)
         && (prior.canonical != "" ==> next.canonical == prior.canonical)
         && (next.bodyBurned != prior.bodyBurned ==> prior.canonical == "" && c.plan.artifacts != [])
         && (next.terminalAcked != prior.terminalAcked ==> prior.canonical != "")
         && Bit(next.bodyBurned != prior.bodyBurned) + Bit(next.reconcileBurned != prior.reconcileBurned)
            + Bit(next.canonical != prior.canonical) + Bit(next.terminalAcked != prior.terminalAcked) == 1))
  }

  /** The four facts that a sealed attempt may still learn or spend. */
  datatype Fact = BodyBurn | ReconcileBurn | CanonicalKnown(digest: string) | AckRecorded

  function Add(p: Progress, f: Fact): Progress {
    var q := p.(revision := p.revision + 1);
    match f
    case BodyBurn => q.(bodyBurned := true)
    case ReconcileBurn => q.(reconcileBurned := true)
    case CanonicalKnown(d) => q.(canonical := d)
    case AckRecorded => q.(terminalAcked := true)
  }

  predicate CanAdd(c: Checkpoint, f: Fact) {
    var p := c.progress;
    && !p.terminalAcked
    && match f
       case BodyBurn => !p.bodyBurned && p.canonical == "" && c.plan.artifacts != []
       case ReconcileBurn => !p.reconcileBurned
       case CanonicalKnown(d) => p.canonical == "" && ValidDigest(d) && (c.plan.artifacts == [] || p.bodyBurned)
       case AckRecorded => p.canonical != ""
  }

  function Extend(c: Checkpoint, f: Fact): Checkpoint {
    c.(progress := Add(c.progress, f))
  }

  /** A sealed plan starts a valid chain. */
  lemma InitialIsValid(plan: Plan)
    requires PlanValid(plan)
    ensures Valid(Initial(plan)) && Initial(plan).progress.revision == 1
  {
  }

  /** Adding an allowed fact keeps the checkpoint valid and is a legal advance. */
  lemma ExtendAdvances(c: Checkpoint, f: Fact)
    requires Valid(c) && CanAdd(c, f)
    ensures Valid(Extend(c, f)) && AdvanceFrom(Extend(c, f), c) && Extend(c, f) != c
  {
  }

  /** The pairwise comparison of two records accepts exactly the identical record
      and the records reached by learning one allowed fact. */
  lemma AdvanceIsOneFact(c: Checkpoint, previous: Checkpoint)
    requires Valid(previous)
    ensures AdvanceFrom(c, previous) <==>
            c == previous || exists f: Fact :: CanAdd(previous, f) && c == Extend(previous, f)
  {
    var next, prior := c.progress, previous.progress;
    if AdvanceFrom(c, previous) && c != previous {
      var f := if next.bodyBurned != prior.bodyBurned then BodyBurn
      else if next.reconcileBurned != prior.reconcileBurned then ReconcileBurn
      else if next.canonical != prior.canonical then CanonicalKnown(next.canonical)
      else AckRecorded;
      assert CanAdd(previous, f) && c == Extend(previous, f);
    }
    if f: Fact :| CanAdd(previous, f) && c == Extend(previous, f) {
      ExtendAdvances(previous, f);
    }
  }

  /** Facts are never forgotten: along any chain of advances the plan stays, set
      bits stay set, a known digest stays, and the revision counts the facts. */
  ghost predicate Chain(cs: seq<Checkpoint>) {
    forall i | 0 <= i < |cs| - 1 :: AdvanceFrom(cs[i + 1], cs[i])
  }

  lemma {:induction false} ChainIsMonotone(cs: seq<Checkpoint>, i: nat, j: nat)
    requires Chain(cs) && i <= j < |cs| && i < |cs| - 1
    ensures cs[j].plan == cs[i].plan
    ensures cs[i].progress.revision <= cs[j].progress.revision <= 5
    ensures cs[i].progress.bodyBurned ==> cs[j].progress.bodyBurned
    ensures cs[i].progress.reconcileBurned ==> cs[j].progress.reconcileBurned
    ensures cs[i].progress.prepareBurned ==> cs[j].progress.prepareBurned
    ensures cs[i].progress.terminalAcked ==> cs[j].progress.terminalAcked
    ensures cs[i].progress.canonical != "" ==> cs[j].progress.canonical == cs[i].progress.canonical
    ensures cs[i].progress.revision == cs[j].progress.revision ==> cs[i] == cs[j]
    decreases j - i
  {
    if i < j {
      assert AdvanceFrom(cs[i + 1], cs[i]);
      if i + 1 < j {
        ChainIsMonotone(cs, i + 1, j);
      }
    } else {
      assert AdvanceFrom(cs[i + 1], cs[i]);
    }
  }
}
