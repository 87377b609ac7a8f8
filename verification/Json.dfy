/** The JSON text of the closed carrier shape, byte by byte: strings as in section 7
    of RFC 8259 with the additional HTML and line-separator escapes of the encoder,
    byte slices in padded base64 as in section 4 of RFC 4648. */
module Json {
  import opened Base

  // ---------------------------------------------------------------------------
  // Strings

  const RUNE_ERROR: int := 0xFFFD

  predicate Continuation(b: Byte) {
    0x80 <= b <= 0xBF
  }

  /** The bounds of the second byte of a multi-byte sequence. */
  predicate SecondByte(first: Byte, second: Byte) {
    match first
    case 0xE0 => 0xA0 <= second <= 0xBF
    case 0xED => 0x80 <= second <= 0x9F
    case 0xF0 => 0x90 <= second <= 0xBF
    case 0xF4 => 0x80 <= second <= 0x8F
    case _ => Continuation(second)
  }

  /** The payload bits of a continuation byte. */
  function Low(b: Byte): int {
    b - 0x80
  }

  /** The first rune of a non-empty string and the number of bytes it takes; a byte
      that starts no valid sequence is the error rune of size one. */
  function DecodeRune(s: Bytes): (rune: (int, nat))
    requires s != []
    ensures 1 <= rune.1 <= |s|
  {
    var b: int := s[0];
    if b < 0x80 then (b, 1)
    else if 0xC2 <= b <= 0xDF && |s| >= 2 && SecondByte(b, s[1]) then
      ((b - 0xC0) * 64 + Low(s[1]), 2)
    else if 0xE0 <= b <= 0xEF && |s| >= 3 && SecondByte(b, s[1]) && Continuation(s[2]) then
      ((b - 0xE0) * 4096 + Low(s[1]) * 64 + Low(s[2]), 3)
    else if 0xF0 <= b <= 0xF4 && |s| >= 4 && SecondByte(b, s[1]) && Continuation(s[2]) && Continuation(s[3]) then
      ((b - 0xF0) * 262144 + Low(s[1]) * 4096 + Low(s[2]) * 64 + Low(s[3]), 4)
    else (RUNE_ERROR, 1)
  }

  function Hex(n: int): Byte
    requires 0 <= n < 16
  {
    if n < 10 then 0x30 + n else 0x61 + n - 10
  }

  /** The six bytes of a \u escape. */
  function UnicodeEscape(rune: int): Bytes
    requires 0 <= rune < 65536
  {
    [0x5C, 0x75, Hex(rune / 4096), Hex(rune / 256 % 16), Hex(rune / 16 % 16), Hex(rune % 16)]
  }

  /** What the encoder writes for the rune that the bytes `raw` decode to. */
  function EscapeRune(rune: int, raw: Bytes): Bytes {
    if rune == 0x22 || rune == 0x5C then [0x5C, rune]
    else if rune == 0x08 then [0x5C, 0x62]
    else if rune == 0x0C then [0x5C, 0x66]
    else if rune == 0x0A then [0x5C, 0x6E]
    else if rune == 0x0D then [0x5C, 0x72]
    else if rune == 0x09 then [0x5C, 0x74]
    else if 0 <= rune < 0x20 || rune == 0x3C || rune == 0x3E || rune == 0x26 || rune == 0x2028 || rune == 0x2029
    then UnicodeEscape(rune)
    else if rune == RUNE_ERROR && |raw| == 1 then UnicodeEscape(RUNE_ERROR)
      else raw
  }

  function Escape(s: Bytes): Bytes
    decreases |s|
  {
    if s == [] then []
    else
      var (rune, size) := DecodeRune(s);
      EscapeRune(rune, s[..size]) + Escape(s[size..])
  }

  function Quote(s: Bytes): Bytes {
    [0x22] + Escape(s) + [0x22]
  }

  // ---------------------------------------------------------------------------
  // Numbers and byte slices

  function Digits(n: nat): Bytes {
    if n < 10 then [0x30 + n] else Digits(n / 10) + [0x30 + n % 10]
  }

  function Decimal(n: int): Bytes {
    if n < 0 then [0x2D] + Digits(-n) else Digits(n)
  }

  function Sextet(n: int): Byte
    requires 0 <= n < 64
  {
    if n < 26 then 0x41 + n
    else if n < 52 then 0x61 + n - 26
    else if n < 62 then 0x30 + n - 52
    else if n == 62 then 0x2B
    else 0x2F
  }

  function Base64(b: Bytes): Bytes
    decreases |b|
  {
    if |b| == 0 then []
    else if |b| == 1 then [Sextet(b[0] / 4), Sextet(b[0] % 4 * 16), 0x3D, 0x3D]
    else if |b| == 2 then
      [Sextet(b[0] / 4), Sextet(b[0] % 4 * 16 + b[1] / 16), Sextet(b[1] % 16 * 4), 0x3D]
    else
      [Sextet(b[0] / 4), Sextet(b[0] % 4 * 16 + b[1] / 16), Sextet(b[1] % 16 * 4 + b[2] / 64), Sextet(b[2] % 64)]
      + Base64(b[3..])
  }

  // ---------------------------------------------------------------------------
  // Values

  /** A Go value of the closed shape. `Null` is a nil pointer, interface or slice,
      `Indirect` one level of indirection or an attachment, which is written as a
      struct one level deeper, and `Time` a time whose text is given. */
  datatype Value =
    | Null
    | Bool(truth: bool)
    | Number(number: int)
    | Text(text: Bytes)
    | Binary(binary: Bytes)
    | Items(items: seq<Value>)
    | Record(fields: seq<Field>)
    | Indirect(target: Value)
    | Time(time: Bytes)
    | Unsupported

  /** A struct field: `hidden` if it is unexported or tagged away, `refused` if its tag
      has an option that the counter does not handle, `embedded` if it is anonymous
      and has no name of its own. */
  datatype Field = Field(
    name: Bytes,
    value: Value,
    hidden: bool,
    omitEmpty: bool,
    refused: bool,
    embedded: bool)

  predicate Empty(v: Value) {
    match v
    case Null => true
    case Bool(truth) => !truth
    case Number(number) => number == 0
    case Text(text) => text == []
    case Binary(binary) => binary == []
    case Items(items) => items == []
    case _ => false
  }

  predicate Omitted(f: Field) {
    f.hidden || (f.omitEmpty && Empty(f.value))
  }

  function Encode(v: Value): Bytes
    decreases v
  {
    match v
    case Null => [0x6E, 0x75, 0x6C, 0x6C]
    case Bool(truth) => if truth then [0x74, 0x72, 0x75, 0x65] else [0x66, 0x61, 0x6C, 0x73, 0x65]
    case Number(number) => Decimal(number)
    case Text(text) => Quote(text)
    case Binary(binary) => [0x22] + Base64(binary) + [0x22]
    case Items(items) => [0x5B] + EncodeItems(items) + [0x5D]
    case Record(fields) => [0x7B] + EncodeFields(fields) + [0x7D]
    case Indirect(target) => Encode(target)
    case Time(time) => time
    case Unsupported => []
  }

  function EncodeItems(items: seq<Value>): Bytes
    decreases items
  {
    if items == [] then []
    else
      EncodeItems(items[..|items| - 1]) + (if |items| > 1 then [0x2C] else []) + Encode(items[|items| - 1])
  }

  function EncodeFields(fields: seq<Field>): Bytes
    decreases fields
  {
    if fields == [] then []
    else
      var before, f := EncodeFields(fields[..|fields| - 1]), fields[|fields| - 1];
      if Omitted(f) then before
      else before + (if before == [] then [] else [0x2C]) + Quote(f.name) + [0x3A] + Encode(f.value)
  }

  const MAX_DEPTH: nat := 20
  const MAX_ITEMS: nat := 4096

  /** The shapes the counter accepts at a depth. */
  predicate Supported(v: Value, depth: nat)
    decreases v
  {
    depth <= MAX_DEPTH && match v
                          case Items(items) =>
                            |items| <= MAX_ITEMS && forall i | 0 <= i < |items| :: Supported(items[i], depth + 1)
                          case Record(fields) => forall i | 0 <= i < |fields| :: FieldSupported(fields[i], depth + 1)
                          case Indirect(target) => Supported(target, depth + 1)
                          case Unsupported => false
                          case _ => true
  }

  predicate FieldSupported(f: Field, depth: nat)
    decreases f
  {
    f.hidden || (!f.refused && (Omitted(f) || (!f.embedded && Supported(f.value, depth))))
  }

  // ---------------------------------------------------------------------------
  // The base64 text determines the bytes

  function Unsextet(b: Byte): int {
    if 0x41 <= b <= 0x5A then b - 0x41
    else if 0x61 <= b <= 0x7A then b - 0x61 + 26
    else if 0x30 <= b <= 0x39 then b - 0x30 + 52
    else if b == 0x2B then 62
    else 63
  }

  /** The bytes of one group of four sextets, of which padding carries none. */
  function DecodeGroup(a: Byte, b: Byte, c: Byte, d: Byte): Bytes {
    var first := Unsextet(a) * 4 + Unsextet(b) / 16;
    if c == 0x3D then [first % 256]
    else
      var second := Unsextet(b) % 16 * 16 + Unsextet(c) / 4;
      if d == 0x3D then [first % 256, second % 256]
      else [first % 256, second % 256, (Unsextet(c) % 4 * 64 + Unsextet(d)) % 256]
  }

  function DecodeBase64(t: Bytes): Bytes
    decreases |t|
  {
    if |t| < 4 then [] else DecodeGroup(t[0], t[1], t[2], t[3]) + DecodeBase64(t[4..])
  }

  lemma SextetRoundTrip(n: int)
    requires 0 <= n < 64
    ensures Unsextet(Sextet(n)) == n && Sextet(n) != 0x3D
  {
  }

  lemma Recombine(x: Byte, y: Byte, z: Byte)
    ensures (x % 4 * 16 + y / 16) / 16 == x % 4 && (x % 4 * 16 + y / 16) % 16 == y / 16
    ensures (y % 16 * 4 + z / 64) / 4 == y % 16 && (y % 16 * 4 + z / 64) % 4 == z / 64
    ensures x / 4 * 4 + x % 4 == x && y / 16 * 16 + y % 16 == y && z / 64 * 64 + z % 64 == z
  {
  }

  lemma FullGroup(x: Byte, y: Byte, z: Byte)
    ensures DecodeGroup(Sextet(x / 4), Sextet(x % 4 * 16 + y / 16), Sextet(y % 16 * 4 + z / 64),
                        Sextet(z % 64)) == [x, y, z]
  {
    hide Sextet, Unsextet;
    SextetRoundTrip(x / 4);
    SextetRoundTrip(x % 4 * 16 + y / 16);
    SextetRoundTrip(y % 16 * 4 + z / 64);
    SextetRoundTrip(z % 64);
    Recombine(x, y, z);
  }

  lemma PaddedGroups(x: Byte, y: Byte)
    ensures DecodeGroup(Sextet(x / 4), Sextet(x % 4 * 16 + y / 16), Sextet(y % 16 * 4), 0x3D) == [x, y]
    ensures DecodeGroup(Sextet(x / 4), Sextet(x % 4 * 16), 0x3D, 0x3D) == [x]
  {
    hide Sextet, Unsextet;
    SextetRoundTrip(x / 4);
    SextetRoundTrip(x % 4 * 16 + y / 16);
    SextetRoundTrip(x % 4 * 16);
    SextetRoundTrip(y % 16 * 4);
    Recombine(x, y, 0);
    Recombine(x, 0, 0);
  }

  lemma {:induction false} Base64RoundTrip(b: Bytes)
    ensures DecodeBase64(Base64(b)) == b
    decreases |b|
  {
    if |b| == 1 {
      PaddedGroups(b[0], 0);
    } else if |b| == 2 {
      PaddedGroups(b[0], b[1]);
    } else if |b| >= 3 {
      FullGroup(b[0], b[1], b[2]);
      Base64RoundTrip(b[3..]);
      assert Base64(b)[4..] == Base64(b[3..]);
      assert b == [b[0], b[1], b[2]] + b[3..];
    }
  }

  // ---------------------------------------------------------------------------
  // The escaped text determines every well-formed string

  predicate WellFormed(s: Bytes)
    decreases |s|
  {
    s == [] || (DecodeRune(s) != (RUNE_ERROR, 1) && WellFormed(s[DecodeRune(s).1..]))
  }

  function Unhex(b: Byte): int {
    if 0x30 <= b <= 0x39 then b - 0x30 else if 0x61 <= b <= 0x66 then b - 0x61 + 10 else 0
  }

  /** The UTF-8 bytes of a rune of the basic plane. */
  function Utf8(rune: int): Bytes
    requires 0 <= rune < 65536
  {
    if rune < 0x80 then [rune]
    else if rune < 0x800 then [0xC0 + rune / 64, 0x80 + rune % 64]
    else [0xE0 + rune / 4096, 0x80 + rune / 64 % 64, 0x80 + rune % 64]
  }

  function Unshort(b: Byte): Byte {
    match b
    case 0x62 => 0x08
    case 0x66 => 0x0C
    case 0x6E => 0x0A
    case 0x72 => 0x0D
    case 0x74 => 0x09
    case _ => b
  }

  /** A reader of string contents: short escapes, \u escapes and plain bytes. */
  function Unescape(t: Bytes): Bytes
    decreases |t|
  {
    if t == [] then []
    else if t[0] != 0x5C || |t| < 2 then [t[0]] + Unescape(t[1..])
    else if t[1] != 0x75 || |t| < 6 then [Unshort(t[1])] + Unescape(t[2..])
    else
      Utf8(Unhex(t[2]) * 4096 + Unhex(t[3]) * 256 + Unhex(t[4]) * 16 + Unhex(t[5])) + Unescape(t[6..])
  }

  lemma {:induction false} UnescapePlain(raw: Bytes, t: Bytes)
    requires 0x5C !in raw
    ensures Unescape(raw + t) == raw + Unescape(t)
    decreases |raw|
  {
    hide Utf8, Unhex, Unshort;
    if raw == [] {
      assert raw + t == t;
    } else {
      UnescapePlain(raw[1..], t);
      assert (raw + t)[1..] == raw[1..] + t;
    }
  }

  lemma UnescapeUnicode(rune: int, t: Bytes)
    requires 0 <= rune < 65536
    ensures Unescape(UnicodeEscape(rune) + t) == Utf8(rune) + Unescape(t)
  {
    var e := UnicodeEscape(rune);
    assert (e + t)[6..] == t;
    HexDigits(rune);
  }

  lemma HexDigits(rune: int)
    requires 0 <= rune < 65536
    ensures Unhex(Hex(rune / 4096)) * 4096 + Unhex(Hex(rune / 256 % 16)) * 256
            + Unhex(Hex(rune / 16 % 16)) * 16 + Unhex(Hex(rune % 16)) == rune
  {
    hide Hex, Unhex;
    HexDigit(rune / 4096);
    HexDigit(rune / 256 % 16);
    HexDigit(rune / 16 % 16);
    HexDigit(rune % 16);
    Quotients(rune);
  }

  lemma HexDigit(n: int)
    requires 0 <= n < 16
    ensures Unhex(Hex(n)) == n
  {
  }

  lemma Quotients(rune: int)
    requires 0 <= rune < 65536
    ensures rune / 4096 * 4096 + rune / 256 % 16 * 256 + rune / 16 % 16 * 16 + rune % 16 == rune
  {
    var a := rune / 16;
    var b := a / 16;
    assert rune / 256 == b && rune / 4096 == b / 16;
  }

  lemma UnescapeShort(b: Byte, t: Bytes)
    requires b != 0x75
    ensures Unescape([0x5C, b] + t) == [Unshort(b)] + Unescape(t)
  {
    assert ([0x5C, b] + t)[2..] == t;
  }

  /** The bytes of the first rune are what its escape reads back as. */
  lemma UnescapeRune(s: Bytes, t: Bytes)
    requires s != [] && DecodeRune(s) != (RUNE_ERROR, 1)
    ensures var (rune, size) := DecodeRune(s);
            Unescape(EscapeRune(rune, s[..size]) + t) == s[..size] + Unescape(t)
  {
    var (rune, size) := DecodeRune(s);
    var raw := s[..size];
    var e := EscapeRune(rune, raw);
    if e == raw {
      RawIsPlain(s);
      UnescapePlain(raw, t);
    } else if |e| == 2 {
      UnescapeShort(e[1], t);
      assert e == [0x5C, e[1]] && raw == [rune];
    } else {
      UnescapeUnicode(rune, t);
      EscapedBytes(s);
    }
  }

  lemma RawIsPlain(s: Bytes)
    requires s != [] && DecodeRune(s).0 != 0x5C
    ensures 0x5C !in s[..DecodeRune(s).1]
  {
  }

  lemma EscapedBytes(s: Bytes)
    requires s != []
    ensures var (rune, size) := DecodeRune(s);
            0 <= rune < 0x80 || rune == 0x2028 || rune == 0x2029 ==> s[..size] == Utf8(rune)
  {
  }

  /** Reading back the escaped text of a well-formed string gives the string. */
  lemma {:induction false} EscapeRoundTrip(s: Bytes)
    requires WellFormed(s)
    ensures Unescape(Escape(s)) == s
    decreases |s|
  {
    if s != [] {
      var size := DecodeRune(s).1;
      EscapeRoundTrip(s[size..]);
      UnescapeRune(s, Escape(s[size..]));
      assert s == s[..size] + s[size..];
    }
  }
}
