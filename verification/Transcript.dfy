/** Length-prefixed proof transcripts and their unique decoding. */
module Transcript {
  import opened Base

  const TWO32: nat := 0x1_0000_0000
  const TWO64: nat := 0x1_0000_0000_0000_0000

  /** Big-endian bytes of a number; higher digits are dropped, as a conversion to an
      unsigned integer of that width does. */
  function BigEndian(n: nat, width: nat): (b: Bytes)
    ensures |b| == width
  {
    if width == 0 then [] else BigEndian(n / 256, width - 1) + [n % 256]
  }

  function FromBigEndian(b: Bytes): nat {
    if b == [] then 0 else FromBigEndian(b[..|b| - 1]) * 256 + b[|b| - 1]
  }

  function Power(width: nat): nat {
    if width == 0 then 1 else Power(width - 1) * 256
  }

  lemma {:induction false} BigEndianRoundTrip(n: nat, width: nat)
    requires n < Power(width)
    ensures FromBigEndian(BigEndian(n, width)) == n
    decreases width
  {
    if width > 0 {
      BigEndianRoundTrip(n / 256, width - 1);
      assert BigEndian(n, width)[..width - 1] == BigEndian(n / 256, width - 1);
    }
  }

  lemma Powers()
    ensures Power(4) == TWO32 && Power(8) == TWO64
  {
  }

  function Encode(fields: seq<Bytes>): Bytes {
    if fields == [] then [] else BigEndian(|fields[0]|, 4) + fields[0] + Encode(fields[1..])
  }

  /** The loop of the encoder. */
  method EncodeTranscript(fields: seq<Bytes>) returns (transcript: Bytes)
    ensures transcript == Encode(fields)
  {
    transcript := [];
    var i := 0;
    while i < |fields|
      invariant 0 <= i <= |fields|
      invariant transcript + Encode(fields[i..]) == Encode(fields)
    {
      assert fields[i..][1..] == fields[i + 1..];
      transcript := transcript + BigEndian(|fields[i]|, 4);
      transcript := transcript + fields[i];
      i := i + 1;
    }
  }

  ghost predicate Bounded(fields: seq<Bytes>) {
    forall i | 0 <= i < |fields| :: |fields[i]| < TWO32
  }

  /** The decoder that the encoding determines; a malformed rest has no fields. */
  function Decode(b: Bytes): seq<Bytes>
    decreases |b|
  {
    if |b| < 4 then []
    else
      var n := FromBigEndian(b[..4]);
      if |b| < 4 + n then [] else [b[4..4 + n]] + Decode(b[4 + n..])
  }

  lemma {:induction false} RoundTrip(fields: seq<Bytes>)
    requires Bounded(fields)
    ensures Decode(Encode(fields)) == fields
    decreases |fields|
  {
    if fields != [] {
      var f, rest, b := fields[0], Encode(fields[1..]), Encode(fields);
      Powers();
      BigEndianRoundTrip(|f|, 4);
      assert b[..4] == BigEndian(|f|, 4);
      assert b[4..4 + |f|] == f;
      assert b[4 + |f|..] == rest;
      RoundTrip(fields[1..]);
    }
  }

  /** Two field lists with equal transcripts are equal. */
  lemma UniquelyDecodable(a: seq<Bytes>, b: seq<Bytes>)
    requires Bounded(a) && Bounded(b) && Encode(a) == Encode(b)
    ensures a == b
  {
    RoundTrip(a);
    RoundTrip(b);
  }

  // ---------------------------------------------------------------------------
  // The two proofs

  function Text(s: string): Bytes {
    seq(|s|, i requires 0 <= i < |s| => (s[i] as int) % 256)
  }

  const CLAIM_DOMAIN: string := "sessionless.attached-worker.enrollment-proof.v1"
  const ROTATION_DOMAIN: string := "sessionless.attached-worker.identity-rotation-proof.v1"

  function Unsigned64(n: nat): Bytes {
    BigEndian(n, 8)
  }

  /** Two's complement of a signed 64-bit number. */
  function Signed64(n: int): Bytes {
    BigEndian(n % TWO64, 8)
  }

  datatype Claim = Claim(
    tenant: Bytes,
    owner: Bytes,
    enrollment: Bytes,
    worker: Bytes,
    audience: Bytes,
    bootstrapDigest: Bytes,
    publicKey: Bytes,
    expectedRevision: nat,
    expiresAtNanos: int)

  datatype Rotation = Rotation(
    tenant: Bytes,
    owner: Bytes,
    worker: Bytes,
    expectedRevision: nat,
    enrollmentGeneration: nat,
    connectionGeneration: nat,
    publicKey: Bytes)

  function ClaimFields(c: Claim): seq<Bytes> {
    [Text(CLAIM_DOMAIN), c.tenant, c.owner, c.enrollment, c.worker, c.audience, c.bootstrapDigest, c.publicKey,
     Unsigned64(c.expectedRevision), Signed64(c.expiresAtNanos)]
  }

  function RotationFields(r: Rotation): seq<Bytes> {
    [Text(ROTATION_DOMAIN), r.tenant, r.owner, r.worker,
     Unsigned64(r.expectedRevision), Unsigned64(r.enrollmentGeneration), Unsigned64(r.connectionGeneration),
     r.publicKey]
  }

  datatype Outcome = Transcript(bytes: Bytes) | Invalid

  /** `valid` is the verdict of the enrollment's own validation. */
  function ClaimTranscript(c: Claim, valid: bool): Outcome {
    if !valid || c.expectedRevision == 0 || c.expectedRevision == MAX_UINT64 || |c.publicKey| != 32 then Invalid
    else Transcript(Encode(ClaimFields(c)))
  }

  function RotationTranscript(r: Rotation, valid: bool): Outcome {
    if !valid || r.expectedRevision == 0 || |r.publicKey| != 32 then Invalid
    else Transcript(Encode(RotationFields(r)))
  }

  /** Fields under 2^32 bytes and 64-bit numbers. */
  ghost predicate ClaimBounded(c: Claim) {
    && Bounded(ClaimFields(c)) && c.expectedRevision < TWO64
    && -0x8000_0000_0000_0000 <= c.expiresAtNanos < 0x8000_0000_0000_0000
  }

  ghost predicate RotationBounded(r: Rotation) {
    && Bounded(RotationFields(r))
    && r.expectedRevision < TWO64 && r.enrollmentGeneration < TWO64 && r.connectionGeneration < TWO64
  }

  lemma Unsigned64Injective(a: nat, b: nat)
    requires a < TWO64 && b < TWO64 && Unsigned64(a) == Unsigned64(b)
    ensures a == b
  {
    Powers();
    BigEndianRoundTrip(a, 8);
    BigEndianRoundTrip(b, 8);
  }

  lemma Residue(a: int)
    requires -0x8000_0000_0000_0000 <= a < 0x8000_0000_0000_0000
    ensures a % TWO64 == if a < 0 then a + TWO64 else a
  {
  }

  lemma Signed64Injective(a: int, b: int)
    requires -0x8000_0000_0000_0000 <= a < 0x8000_0000_0000_0000 && -0x8000_0000_0000_0000 <= b < 0x8000_0000_0000_0000
    requires Signed64(a) == Signed64(b)
    ensures a == b
  {
    Unsigned64Injective(a % TWO64, b % TWO64);
    Residue(a);
    Residue(b);
  }

  /** A claim transcript fixes every signed field. */
  lemma ClaimTranscriptFixesFields(a: Claim, b: Claim, va: bool, vb: bool)
    requires ClaimBounded(a) && ClaimBounded(b)
    requires ClaimTranscript(a, va).Transcript? && ClaimTranscript(a, va) == ClaimTranscript(b, vb)
    ensures a == b
  {
    hide Encode, Text, Unsigned64, Signed64;
    var x, y := ClaimFields(a), ClaimFields(b);
    UniquelyDecodable(x, y);
    assert x[1] == y[1] && x[2] == y[2] && x[3] == y[3] && x[4] == y[4] && x[5] == y[5] && x[6] == y[6] && x[7] == y[7];
    assert x[8] == y[8] && x[9] == y[9];
    Unsigned64Injective(a.expectedRevision, b.expectedRevision);
    Signed64Injective(a.expiresAtNanos, b.expiresAtNanos);
  }

  lemma RotationTranscriptFixesFields(a: Rotation, b: Rotation, va: bool, vb: bool)
    requires RotationBounded(a) && RotationBounded(b)
    requires RotationTranscript(a, va).Transcript? && RotationTranscript(a, va) == RotationTranscript(b, vb)
    ensures a == b
  {
    hide Encode, Text, Unsigned64;
    var x, y := RotationFields(a), RotationFields(b);
    UniquelyDecodable(x, y);
    assert x[1] == y[1] && x[2] == y[2] && x[3] == y[3] && x[4] == y[4] && x[5] == y[5] && x[6] == y[6] && x[7] == y[7];
    Unsigned64Injective(a.expectedRevision, b.expectedRevision);
    Unsigned64Injective(a.enrollmentGeneration, b.enrollmentGeneration);
    Unsigned64Injective(a.connectionGeneration, b.connectionGeneration);
  }

  /** A claim transcript is never a rotation transcript. */
  lemma ClaimIsNeverRotation(c: Claim, r: Rotation)
    requires Bounded(ClaimFields(c)) && Bounded(RotationFields(r))
    ensures Encode(ClaimFields(c)) != Encode(RotationFields(r))
  {
    if Encode(ClaimFields(c)) == Encode(RotationFields(r)) {
      UniquelyDecodable(ClaimFields(c), RotationFields(r));
    }
  }
}
