/** The budgeted size counter, proved exact: it accepts a value exactly when the value
    has a supported shape and its full JSON text fits the limit. */
module BoundedJson {
  import opened Base
  import opened Json

  const MAX_INPUT_BYTES: nat := 0x10_0000

  // ---------------------------------------------------------------------------
  // Lengths of the encodings

  /** The counter's contribution of one rune. */
  function RuneCost(rune: int, size: nat): nat {
    if rune in {0x22, 0x5C, 0x08, 0x0C, 0x0A, 0x0D, 0x09} then 2
    else if rune in {0x3C, 0x3E, 0x26, 0x2028, 0x2029} then 6
    else if rune < 0x20 then 6
    else if rune == RUNE_ERROR && size == 1 then 6
    else size
  }

  lemma RuneCostIsLength(s: Bytes)
    requires s != []
    ensures var (rune, size) := DecodeRune(s);
            |EscapeRune(rune, s[..size])| == RuneCost(rune, size) >= size
  {
  }

  /** An escaped string is never shorter than the string. */
  lemma {:induction false} EscapeGrows(s: Bytes)
    ensures |Escape(s)| >= |s|
    decreases |s|
  {
    if s != [] {
      RuneCostIsLength(s);
      EscapeGrows(s[DecodeRune(s).1..]);
    }
  }

  lemma {:induction false} Base64Length(b: Bytes)
    ensures |Base64(b)| == 4 * ((|b| + 2) / 3)
    decreases |b|
  {
    if |b| >= 3 {
      Base64Length(b[3..]);
    }
  }

  lemma {:induction false} ItemsPrefix(items: seq<Value>, n: nat)
    requires n <= |items|
    ensures |EncodeItems(items[..n])| <= |EncodeItems(items)|
    decreases |items| - n
  {
    if n < |items| {
      ItemsPrefix(items, n + 1);
      assert items[..n + 1][..n] == items[..n];
    } else {
      assert items[..n] == items;
    }
  }

  lemma ItemsStep(items: seq<Value>, n: nat)
    requires n < |items|
    ensures |EncodeItems(items[..n + 1])| == |EncodeItems(items[..n])| + Bit(n > 0) + |Encode(items[n])|
  {
    assert items[..n + 1][..n] == items[..n];
  }

  lemma {:induction false} FieldsPrefix(fields: seq<Field>, n: nat)
    requires n <= |fields|
    ensures |EncodeFields(fields[..n])| <= |EncodeFields(fields)|
    decreases |fields| - n
  {
    if n < |fields| {
      FieldsPrefix(fields, n + 1);
      assert fields[..n + 1][..n] == fields[..n];
    } else {
      assert fields[..n] == fields;
    }
  }

  /** The bytes one written field adds, with its comma unless it is the first. */
  function FieldCost(f: Field, first: bool): nat {
    Bit(!first) + |Quote(f.name)| + 1 + |Encode(f.value)|
  }

  lemma FieldsStep(fields: seq<Field>, n: nat)
    requires n < |fields|
    ensures var before, after := EncodeFields(fields[..n]), EncodeFields(fields[..n + 1]);
            && (Omitted(fields[n]) ==> after == before)
            && (!Omitted(fields[n]) ==> |after| == |before| + FieldCost(fields[n], before == []))
  {
    assert fields[..n + 1][..n] == fields[..n];
  }

  predicate ItemsSupported(items: seq<Value>, depth: nat) {
    forall i | 0 <= i < |items| :: Supported(items[i], depth)
  }

  predicate FieldsSupported(fields: seq<Field>, depth: nat) {
    forall i | 0 <= i < |fields| :: FieldSupported(fields[i], depth)
  }

  // ---------------------------------------------------------------------------
  // The counter

  class Budget {
    const limit: int
    var remaining: int

    constructor (limit: int)
      ensures remaining == limit && this.limit == limit
    {
      this.limit, remaining := limit, limit;
    }

    method Consume(n: int) returns (ok: bool)
      modifies this
      ensures ok == (0 <= n <= old(remaining))
      ensures remaining == if ok then old(remaining) - n else old(remaining)
    {
      if n < 0 || n > remaining {
        return false;
      }
      remaining := remaining - n;
      return true;
    }

    /** The length of a quoted string, or one more than the budget if it does not fit. */
    method Quoted(value: Bytes) returns (n: int)
      requires remaining >= 0
      ensures n == if |Quote(value)| <= remaining then |Quote(value)| else remaining + 1
    {
      EscapeGrows(value);
      if remaining < 2 || |value| > remaining - 2 {
        return remaining + 1;
      }
      n := 2;
      var rest := value;
      while |rest| > 0
        invariant n + |Escape(rest)| == |Quote(value)|
        invariant n <= remaining
        decreases |rest|
      {
        RuneCostIsLength(rest);
        var (rune, size) := DecodeRune(rest);
        rest := rest[size..];
        if rune in {0x22, 0x5C, 0x08, 0x0C, 0x0A, 0x0D, 0x09} {
          n := n + 2;
        } else if rune in {0x3C, 0x3E, 0x26, 0x2028, 0x2029} {
          n := n + 6;
        } else if rune < 0x20 {
          n := n + 6;
        } else if rune == RUNE_ERROR && size == 1 {
          n := n + 6;
        } else {
          n := n + size;
        }
        if n > remaining {
          return remaining + 1;
        }
      }
    }

    method Measure(v: Value, depth: nat) returns (ok: bool)
      requires 0 <= remaining <= limit
      modifies this
      ensures ok <==> Supported(v, depth) && |Encode(v)| <= old(remaining)
      ensures 0 <= remaining <= old(remaining)
      ensures ok ==> remaining == old(remaining) - |Encode(v)|
      decreases v, 1
    {
      if depth > MAX_DEPTH {
        return false;
      }
      match v {
        case Null => ok := Consume(4);
        case Bool(truth) => ok := Consume(if truth then 4 else 5);
        case Number(number) => ok := Consume(|Decimal(number)|);
        case Text(text) =>
          var n := Quoted(text);
          ok := Consume(n);
        case Binary(binary) =>
          Base64Length(binary);
          if |binary| > limit {
            return false;
          }
          ok := Consume(2 + 4 * ((|binary| + 2) / 3));
        case Items(items) => ok := MeasureItems(items, depth);
        case Record(fields) => ok := MeasureFields(fields, depth);
        case Indirect(target) => ok := Measure(target, depth + 1);
        case Time(time) => ok := Consume(|time|);
        case Unsupported => ok := false;
      }
    }

    method MeasureItems(items: seq<Value>, depth: nat) returns (ok: bool)
      requires 0 <= remaining <= limit
      modifies this
      ensures ok <==> |items| <= MAX_ITEMS && ItemsSupported(items, depth + 1) &&
                      2 + |EncodeItems(items)| <= old(remaining)
      ensures 0 <= remaining <= old(remaining)
      ensures ok ==> remaining == old(remaining) - 2 - |EncodeItems(items)|
      decreases items, 0
    {
      assert EncodeItems(items[..0]) == [];
      hide Encode, EncodeItems, Supported;
      if |items| > MAX_ITEMS {
        return false;
      }
      ok := Consume(2);
      if !ok {
        return false;
      }
      var i := 0;
      while i < |items|
        invariant 0 <= i <= |items|
        invariant 0 <= remaining <= old(remaining)
        invariant remaining == old(remaining) - 2 - |EncodeItems(items[..i])|
        invariant forall k | 0 <= k < i :: Supported(items[k], depth + 1)
      {
        ItemsStep(items, i);
        ItemsPrefix(items, i + 1);
        if i > 0 {
          ok := Consume(1);
          if !ok {
            return false;
          }
        }
        ok := Measure(items[i], depth + 1);
        if !ok {
          return false;
        }
        i := i + 1;
      }
      assert items[..i] == items;
      return true;
    }

    method MeasureField(f: Field, first: bool, depth: nat) returns (ok: bool)
      requires !Omitted(f) && !f.refused && 0 <= remaining <= limit
      modifies this
      ensures ok <==> FieldSupported(f, depth) && FieldCost(f, first) <= old(remaining)
      ensures 0 <= remaining <= old(remaining)
      ensures ok ==> remaining == old(remaining) - FieldCost(f, first)
      decreases f, 0
    {
      if f.embedded {
        return false;
      }
      if !first {
        ok := Consume(1);
        if !ok {
          return false;
        }
      }
      var n := Quoted(f.name);
      ok := Consume(n + 1);
      if !ok {
        return false;
      }
      ok := Measure(f.value, depth);
    }

    method MeasureFields(fields: seq<Field>, depth: nat) returns (ok: bool)
      requires 0 <= remaining <= limit
      modifies this
      ensures ok <==> FieldsSupported(fields, depth + 1) && 2 + |EncodeFields(fields)| <= old(remaining)
      ensures 0 <= remaining <= old(remaining)
      ensures ok ==> remaining == old(remaining) - 2 - |EncodeFields(fields)|
      decreases fields, 0
    {
      hide Encode, EncodeFields, FieldCost, FieldSupported;
      ok := Consume(2);
      if !ok {
        return false;
      }
      var written := 0;
      assert EncodeFields(fields[..0]) == [] by { NoFields(fields); }
      var i := 0;
      while i < |fields|
        invariant 0 <= i <= |fields| && 0 <= written
        invariant 0 <= remaining <= old(remaining)
        invariant remaining == old(remaining) - 2 - |EncodeFields(fields[..i])|
        invariant written > 0 <==> EncodeFields(fields[..i]) != []
        invariant forall k | 0 <= k < i :: FieldSupported(fields[k], depth + 1)
      {
        FieldsStep(fields, i);
        FieldsPrefix(fields, i + 1);
        FieldRules(fields[i], depth + 1);
        var f := fields[i];
        i := i + 1;
        if f.hidden {
          continue;
        }
        if f.refused {
          return false;
        }
        if f.omitEmpty && Empty(f.value) {
          continue;
        }
        ok := MeasureField(f, written == 0, depth + 1);
        if !ok {
          return false;
        }
        written := written + 1;
      }
      assert fields[..i] == fields;
      return true;
    }
  }

  lemma NoFields(fields: seq<Field>)
    ensures EncodeFields(fields[..0]) == []
  {
  }

  lemma FieldRules(f: Field, depth: nat)
    ensures f.hidden ==> FieldSupported(f, depth)
    ensures !f.hidden && f.refused ==> !FieldSupported(f, depth)
    ensures !f.refused && Omitted(f) ==> FieldSupported(f, depth)
    ensures forall first :: FieldCost(f, first) > 0
  {
  }

  /** The counter's verdict is exact: its early exits never disagree with the length of
      the whole encoding. */
  method BoundedJsonAllocation(v: Value, limit: int) returns (ok: bool)
    ensures ok <==> 0 < limit <= MAX_INPUT_BYTES && Supported(v, 0) && |Encode(v)| <= limit
  {
    if limit <= 0 || limit > MAX_INPUT_BYTES {
      return false;
    }
    var budget := new Budget(limit);
    ok := budget.Measure(v, 0);
  }
}
