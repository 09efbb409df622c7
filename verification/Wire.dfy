/** Little-endian framing: the twelve-byte header, payload fields padded to four bytes, and the
    reading of untrusted bytes. Whether bytes are UTF-8 is a parameter. */
module Wire {
  import opened Basics

  const HEADER_SIZE := 12
  const MAX_MESSAGE_SIZE := 65_532
  const HANDLE_PLACEHOLDER_BASE := 0xFFFF_FF00

  type Utf8 = seq<byte> -> bool

  datatype EncodeError = MessageTooLarge | MisalignedSize | BufferTooSmall | SizeOverflow

  datatype DecodeError = Truncated | TooSmall | TooLarge | Misaligned | TrailingBytes | InvalidUtf8 | InvalidHandlePlaceholder

  // ----- primitives -----

  /** The number some bytes spell, least significant first. */
  function Value(b: seq<byte>): nat {
    if b == [] then 0 else (b[0] as int) + 0x100 * Value(b[1..])
  }

  lemma ValueBounds(b: seq<byte>)
    ensures |b| == 2 ==> Value(b) < 0x1_0000
    ensures |b| == 4 ==> Value(b) < 0x1_0000_0000
  {
    if |b| == 2 || |b| == 4 {
      assert Value(b[1..]) == b[1] as int + 0x100 * Value(b[1..][1..]);
      assert b[1..][1..] == b[2..];
      if |b| == 4 {
        ValueBounds(b[2..]);
      }
    }
  }

  function FromLe16(b: seq<byte>): u16
    requires |b| == 2
  {
    ValueBounds(b);
    Value(b)
  }

  function FromLe32(b: seq<byte>): u32
    requires |b| == 4
  {
    ValueBounds(b);
    Value(b)
  }

  lemma {:induction false} SameBytes(b: seq<byte>, c: seq<byte>)
    requires |b| == |c| && Value(b) == Value(c)
    ensures b == c
  {
    if b != [] {
      assert b[0] == c[0];
      SameBytes(b[1..], c[1..]);
      assert b == [b[0]] + b[1..] && c == [c[0]] + c[1..];
    }
  }

  /** Bytes can be found for any number, one at a time. */
  lemma SpellOne(v: nat, rest: seq<byte>) returns (b: seq<byte>)
    requires Value(rest) == v / 0x100
    ensures |b| == |rest| + 1 && Value(b) == v
  {
    b := [v % 0x100] + rest;
    assert b[1..] == rest;
  }

  predicate Spells16(b: seq<byte>, v: u16) {
    |b| == 2 && Value(b) == v
  }

  predicate Spells32(b: seq<byte>, v: u32) {
    |b| == 4 && Value(b) == v
  }

  lemma OneSpelling16(v: u16)
    ensures exists b :: Spells16(b, v)
    ensures forall b, c | Spells16(b, v) && Spells16(c, v) :: b == c
  {
    var b := SpellOne(v / 0x100, []);
    b := SpellOne(v, b);
    assert Spells16(b, v);
    forall b, c | Spells16(b, v) && Spells16(c, v) ensures b == c {
      SameBytes(b, c);
    }
  }

  lemma OneSpelling32(v: u32)
    ensures exists b :: Spells32(b, v)
    ensures forall b, c | Spells32(b, v) && Spells32(c, v) :: b == c
  {
    var b := SpellOne(v / 0x100 / 0x100 / 0x100, []);
    b := SpellOne(v / 0x100 / 0x100, b);
    b := SpellOne(v / 0x100, b);
    b := SpellOne(v, b);
    assert Spells32(b, v);
    forall b, c | Spells32(b, v) && Spells32(c, v) ensures b == c {
      SameBytes(b, c);
    }
  }

  /** `u16::to_le_bytes`: the two bytes that spell a number. */
  function Le16(v: u16): (b: seq<byte>)
    ensures Spells16(b, v)
  {
    OneSpelling16(v);
    var b :| Spells16(b, v);
    b
  }

  /** `u32::to_le_bytes`. */
  function Le32(v: u32): (b: seq<byte>)
    ensures Spells32(b, v)
  {
    OneSpelling32(v);
    var b :| Spells32(b, v);
    b
  }

  predicate IsHalves(h: (u32, u32), v: u64) {
    (h.0 as int) + 0x1_0000_0000 * (h.1 as int) == v
  }

  lemma OneHalving(v: u64)
    ensures exists h :: IsHalves(h, v)
    ensures forall g, h | IsHalves(g, v) && IsHalves(h, v) :: g == h
  {
    assert IsHalves((v % 0x1_0000_0000, v / 0x1_0000_0000), v);
  }

  /** The low and the high half of a wide number. */
  function Halves(v: u64): (h: (u32, u32))
    ensures IsHalves(h, v)
  {
    OneHalving(v);
    var h :| IsHalves(h, v);
    h
  }

  lemma HalvesAgain(low: u32, high: u32, v: u64)
    requires IsHalves((low, high), v)
    ensures Halves(v) == (low, high)
  {
    OneHalving(v);
  }

  /** Bytes read as a number and spelled again are the same bytes. */
  lemma SpelledAgain(b: seq<byte>)
    requires |b| == 4
    ensures Le32(FromLe32(b)) == b
  {
    SameBytes(Le32(FromLe32(b)), b);
  }

  /** The bits of a signed number read as an unsigned one. */
  function Unsigned(v: i32): u32 {
    if v < 0 then (v as int) + 0x1_0000_0000 else v
  }

  function Signed(v: u32): i32 {
    if v >= 0x8000_0000 then (v as int) - 0x1_0000_0000 else v
  }

  /** `padded_size`, less the length. */
  function Padding(length: nat): (n: nat)
    ensures n < 4 && (length + n) % 4 == 0
  {
    if length % 4 == 0 then 0 else 4 - length % 4
  }

  function Zeroes(n: nat): (b: seq<byte>)
    ensures |b| == n
  {
    seq(n, _ => 0)
  }

  // ----- fields -----

  datatype Field =
    | U32(number: u32)
    | I32(signed: i32)
    | U64(wide: u64)
    | Text(bytes: seq<byte>)
    | Numbers(items: seq<u32>)
    | Handle(slot: u8)

  datatype FieldType = TU32 | TI32 | TU64 | TText | TNumbers | THandle

  function TypeOf(f: Field): FieldType {
    match f
    case U32(_) => TU32
    case I32(_) => TI32
    case U64(_) => TU64
    case Text(_) => TText
    case Numbers(_) => TNumbers
    case Handle(_) => THandle
  }

  function TypesOf(fields: seq<Field>): (types: seq<FieldType>)
    ensures |types| == |fields|
  {
    if fields == [] then [] else [TypeOf(fields[0])] + TypesOf(fields[1..])
  }

  /** A field the wire can carry: text is UTF-8 and counts fit. */
  predicate Sendable(utf8: Utf8, f: Field) {
    match f
    case Text(b) => utf8(b) && Countable(f)
    case _ => Countable(f)
  }

  function NumbersBytes(items: seq<u32>): (b: seq<byte>)
    ensures |b| == 4 * |items|
  {
    if items == [] then [] else Le32(items[0]) + NumbersBytes(items[1..])
  }

  /** `encoded_len` of one field. */
  function FieldLen(f: Field): nat {
    match f
    case U32(_) => 4
    case I32(_) => 4
    case U64(_) => 8
    case Text(b) => 4 + |b| + Padding(|b|)
    case Numbers(items) => 4 + 4 * |items|
    case Handle(_) => 4
  }

  /** Counts fit where they are written. */
  predicate Countable(f: Field) {
    (f.Text? ==> |f.bytes| <= U32_MAX) && (f.Numbers? ==> |f.items| <= U32_MAX)
  }

  function FieldBytes(f: Field): (b: seq<byte>)
    requires Countable(f)
    ensures |b| == FieldLen(f)
  {
    match f
    case U32(v) => Le32(v)
    case I32(v) => Le32(Unsigned(v))
    case U64(v) => Le32(Halves(v).0) + Le32(Halves(v).1)
    case Text(b) => Le32(|b|) + b + Zeroes(Padding(|b|))
    case Numbers(items) => Le32(|items|) + NumbersBytes(items)
    case Handle(slot) => Le32(HANDLE_PLACEHOLDER_BASE + slot as int)
  }

  function PayloadLen(fields: seq<Field>): nat {
    if fields == [] then 0 else FieldLen(fields[0]) + PayloadLen(fields[1..])
  }

  predicate AllCountable(fields: seq<Field>) {
    forall i | 0 <= i < |fields| :: Countable(fields[i])
  }

  lemma {:induction false} PayloadAligned(fields: seq<Field>)
    ensures PayloadLen(fields) % 4 == 0
  {
    if fields != [] {
      PayloadAligned(fields[1..]);
      FieldAligned(fields[0]);
    }
  }

  lemma FieldAligned(f: Field)
    ensures FieldLen(f) % 4 == 0
  {
  }

  ghost predicate AllSendable(utf8: Utf8, fields: seq<Field>) {
    forall i | 0 <= i < |fields| :: Sendable(utf8, fields[i])
  }

  function PayloadBytes(fields: seq<Field>): (b: seq<byte>)
    requires AllCountable(fields)
    ensures |b| == PayloadLen(fields)
  {
    if fields == [] then [] else FieldBytes(fields[0]) + PayloadBytes(fields[1..])
  }

  // ----- reading -----

  /** `read`: the next bytes, if there are that many. */
  function ReadBytes(input: seq<byte>, at: nat, length: nat): (r: Result<seq<byte>, DecodeError>)
    requires at <= |input|
    ensures r.Ok? <==> at + length <= |input|
    ensures r.Ok? ==> r.value == input[at..at + length]
  {
    if at + length <= |input| then Ok(input[at..at + length]) else Err(Truncated)
  }

  function ReadU32(input: seq<byte>, at: nat): (r: Result<u32, DecodeError>)
    requires at <= |input|
    ensures r.Ok? <==> at + 4 <= |input|
  {
    if at + 4 <= |input| then Ok(FromLe32(input[at..at + 4])) else Err(Truncated)
  }

  function ReadNumbers(input: seq<byte>, at: nat, count: nat): (r: Result<seq<u32>, DecodeError>)
    requires at <= |input|
    ensures r.Ok? ==> |r.value| == count && at + 4 * count <= |input|
    decreases count
  {
    if count == 0 then Ok([])
    else
      var first := ReadU32(input, at);
      if first.Err? then Err(first.error)
      else
        var rest := ReadNumbers(input, at + 4, count - 1);
        if rest.Err? then Err(rest.error) else Ok([first.value] + rest.value)
  }

  /** One field of a known type, read where the last one ended. */
  function ReadField(utf8: Utf8, t: FieldType, input: seq<byte>, at: nat): (r: Result<Field, DecodeError>)
    requires at <= |input|
    ensures r.Ok? ==> TypeOf(r.value) == t && at + FieldLen(r.value) <= |input| && Sendable(utf8, r.value)
  {
    var first := ReadU32(input, at);
    if first.Err? then Err(first.error)
    else
      match t
      case TU32 => Ok(U32(first.value))
      case TI32 => Ok(I32(Signed(first.value)))
      case TU64 =>
        var high := ReadU32(input, at + 4);
        if high.Err? then Err(high.error)
        else Ok(U64((first.value as int) + 0x1_0000_0000 * (high.value as int)))
      case TText =>
        var n: nat := first.value;
        var b := ReadBytes(input, at + 4, n + Padding(n));
        if b.Err? then Err(b.error)
        else if !utf8(b.value[..n]) then Err(InvalidUtf8)
        else Ok(Text(b.value[..n]))
      case TNumbers =>
        var items := ReadNumbers(input, at + 4, first.value);
        if items.Err? then Err(items.error) else Ok(Numbers(items.value))
      case THandle =>
        if first.value < HANDLE_PLACEHOLDER_BASE then Err(InvalidHandlePlaceholder)
        else Ok(Handle(first.value - HANDLE_PLACEHOLDER_BASE))
  }

  /** All fields of a payload, and nothing after them. */
  function ReadPayload(utf8: Utf8, types: seq<FieldType>, input: seq<byte>, at: nat): (r: Result<seq<Field>, DecodeError>)
    requires at <= |input|
    decreases |types|
  {
    if types == [] then (if at == |input| then Ok([]) else Err(TrailingBytes))
    else
      var first := ReadField(utf8, types[0], input, at);
      if first.Err? then Err(first.error)
      else
        var rest := ReadPayload(utf8, types[1..], input, at + FieldLen(first.value));
        if rest.Err? then Err(rest.error) else Ok([first.value] + rest.value)
  }

  // ----- the round trip -----

  lemma {:induction false} NumbersRoundTrip(items: seq<u32>, input: seq<byte>, at: nat)
    requires at + 4 * |items| <= |input| && input[at..at + 4 * |items|] == NumbersBytes(items)
    ensures ReadNumbers(input, at, |items|) == Ok(items)
    decreases |items|
  {
    if items != [] {
      var all := NumbersBytes(items);
      assert all[..4] == Le32(items[0]) && all[4..] == NumbersBytes(items[1..]);
      assert input[at..at + 4] == all[..4];
      assert input[at + 4..at + 4 + 4 * (|items| - 1)] == all[4..];
      NumbersRoundTrip(items[1..], input, at + 4);
      assert [items[0]] + items[1..] == items;
    }
  }

  lemma TextRoundTrip(utf8: Utf8, b: seq<byte>, input: seq<byte>, at: nat)
    requires utf8(b) && |b| <= U32_MAX && at + FieldLen(Text(b)) <= |input|
    requires input[at..at + FieldLen(Text(b))] == FieldBytes(Text(b))
    ensures ReadField(utf8, TText, input, at) == Ok(Text(b))
  {
    var all := FieldBytes(Text(b));
    var padded := |b| + Padding(|b|);
    assert all[..4] == Le32(|b|) && all[4..][..|b|] == b;
    assert input[at..at + 4] == all[..4];
    assert ReadU32(input, at) == Ok(|b|);
    assert input[at + 4..at + 4 + padded] == all[4..];
  }

  lemma WideRoundTrip(utf8: Utf8, v: u64, input: seq<byte>, at: nat)
    requires at + 8 <= |input| && input[at..at + 8] == FieldBytes(U64(v))
    ensures ReadField(utf8, TU64, input, at) == Ok(U64(v))
  {
    var all := FieldBytes(U64(v));
    assert input[at..at + 4] == all[..4];
    assert input[at + 4..at + 8] == all[4..8];
  }

  lemma ListRoundTrip(utf8: Utf8, items: seq<u32>, input: seq<byte>, at: nat)
    requires |items| <= U32_MAX && at + FieldLen(Numbers(items)) <= |input|
    requires input[at..at + FieldLen(Numbers(items))] == FieldBytes(Numbers(items))
    ensures ReadField(utf8, TNumbers, input, at) == Ok(Numbers(items))
  {
    var all := FieldBytes(Numbers(items));
    assert input[at..at + 4] == all[..4];
    assert input[at + 4..at + 4 + 4 * |items|] == all[4..] == NumbersBytes(items);
    NumbersRoundTrip(items, input, at + 4);
  }

  lemma FieldRoundTrip(utf8: Utf8, f: Field, input: seq<byte>, at: nat)
    requires Sendable(utf8, f) && at + FieldLen(f) <= |input| && input[at..at + FieldLen(f)] == FieldBytes(f)
    ensures ReadField(utf8, TypeOf(f), input, at) == Ok(f)
  {
    match f {
      case U32(v) =>
      case I32(v) =>
      case Handle(slot) =>
      case U64(v) => WideRoundTrip(utf8, v, input, at);
      case Text(b) => TextRoundTrip(utf8, b, input, at);
      case Numbers(items) => ListRoundTrip(utf8, items, input, at);
    }
  }

  /** Bytes that are a field's. Folded, but for their number. */
  ghost predicate SpellsField(f: Field, b: seq<byte>) {
    |b| == FieldLen(f) && forall key: Key | Opened(key) :: Countable(f) && b == FieldBytes(f)
  }

  /** Bytes that are a payload's. Folded. */
  ghost predicate SpellsAll(fields: seq<Field>, b: seq<byte>) {
    forall key: Key | Opened(key) :: AllCountable(fields) && b == PayloadBytes(fields)
  }

  lemma PayloadSplits(fields: seq<Field>, b: seq<byte>) returns (head: seq<byte>, tail: seq<byte>)
    requires fields != [] && SpellsAll(fields, b)
    ensures b == head + tail && SpellsField(fields[0], head) && SpellsAll(fields[1..], tail)
  {
    Unlock();
    head, tail := FieldBytes(fields[0]), PayloadBytes(fields[1..]);
  }

  lemma Splits(input: seq<byte>, at: nat, head: seq<byte>, tail: seq<byte>)
    requires at <= |input| && input[at..] == head + tail
    ensures at + |head| <= |input| && input[at..at + |head|] == head && input[at + |head|..] == tail
  {
    assert input[at..][..|head|] == head && input[at..][|head|..] == tail;
  }

  /** Whatever fits in a message has counts that fit where they are written. */
  lemma {:induction false} FitsIsCountable(fields: seq<Field>)
    requires PayloadLen(fields) <= MAX_MESSAGE_SIZE
    ensures AllCountable(fields)
  {
    if fields != [] {
      FitsIsCountable(fields[1..]);
      assert Countable(fields[0]);
      forall i | 0 <= i < |fields| ensures Countable(fields[i]) {
        assert i == 0 || fields[i] == fields[1..][i - 1];
      }
    }
  }

  /** A field is what is read at a place. Folded. */
  ghost predicate Reads(utf8: Utf8, f: Field, input: seq<byte>, at: nat) {
    forall key: Key | Opened(key) :: at + FieldLen(f) <= |input| && ReadField(utf8, TypeOf(f), input, at) == Ok(f)
  }

  /** Fields are what is read from a place to the end. Folded. */
  ghost predicate ReadsAll(utf8: Utf8, fields: seq<Field>, input: seq<byte>, at: nat) {
    forall key: Key | Opened(key) :: at <= |input| && ReadPayload(utf8, TypesOf(fields), input, at) == Ok(fields)
  }

  lemma FieldReads(utf8: Utf8, f: Field, b: seq<byte>, input: seq<byte>, at: nat)
    requires Sendable(utf8, f) && SpellsField(f, b) && at + |b| <= |input| && input[at..at + |b|] == b
    ensures Reads(utf8, f, input, at)
  {
    Unlock();
    FieldRoundTrip(utf8, f, input, at);
  }

  lemma ReadsStep(utf8: Utf8, fields: seq<Field>, input: seq<byte>, at: nat, next: nat)
    requires fields != [] && next == at + FieldLen(fields[0])
    requires Reads(utf8, fields[0], input, at) && ReadsAll(utf8, fields[1..], input, next)
    ensures ReadsAll(utf8, fields, input, at)
  {
    Unlock();
    assert TypesOf(fields)[1..] == TypesOf(fields[1..]);
    ReadStep(utf8, TypesOf(fields), input, at, fields[0], fields[1..]);
    assert [fields[0]] + fields[1..] == fields;
  }

  lemma RestSendable(utf8: Utf8, fields: seq<Field>)
    requires fields != [] && AllSendable(utf8, fields)
    ensures AllSendable(utf8, fields[1..]) && Sendable(utf8, fields[0])
  {
  }

  /** Every list of fields reads back from its bytes, to the end and no further. */
  lemma {:induction false} PayloadReads(utf8: Utf8, fields: seq<Field>, b: seq<byte>, input: seq<byte>, at: nat)
    requires AllSendable(utf8, fields) && SpellsAll(fields, b) && at <= |input| && input[at..] == b
    ensures ReadsAll(utf8, fields, input, at)
    decreases |fields|
  {
    if fields == [] {
      Unlock();
    } else {
      var head, tail := PayloadSplits(fields, b);
      Splits(input, at, head, tail);
      RestSendable(utf8, fields);
      FieldReads(utf8, fields[0], head, input, at);
      PayloadReads(utf8, fields[1..], tail, input, at + |head|);
      ReadsStep(utf8, fields, input, at, at + |head|);
    }
  }

  lemma ReadStep(utf8: Utf8, types: seq<FieldType>, input: seq<byte>, at: nat, first: Field, rest: seq<Field>)
    requires types != [] && at + FieldLen(first) <= |input|
    requires ReadField(utf8, types[0], input, at) == Ok(first)
    requires ReadPayload(utf8, types[1..], input, at + FieldLen(first)) == Ok(rest)
    ensures ReadPayload(utf8, types, input, at) == Ok([first] + rest)
  {
  }

  lemma ReadUnfolds(utf8: Utf8, types: seq<FieldType>, input: seq<byte>, at: nat) returns (first: Field, rest: seq<Field>)
    requires types != [] && at <= |input| && ReadPayload(utf8, types, input, at).Ok?
    ensures TypeOf(first) == types[0] && Sendable(utf8, first) && at + FieldLen(first) <= |input|
    ensures ReadField(utf8, types[0], input, at) == Ok(first)
    ensures ReadPayload(utf8, types[1..], input, at + FieldLen(first)) == Ok(rest)
    ensures ReadPayload(utf8, types, input, at) == Ok([first] + rest)
  {
    first := ReadField(utf8, types[0], input, at).value;
    rest := ReadPayload(utf8, types[1..], input, at + FieldLen(first)).value;
  }

  /** What is read has the types asked for, takes exactly the bytes there are, and could be sent. */
  lemma {:induction false} ReadIsExact(utf8: Utf8, types: seq<FieldType>, input: seq<byte>, at: nat, fields: seq<Field>)
    requires at <= |input| && ReadPayload(utf8, types, input, at) == Ok(fields)
    ensures TypesOf(fields) == types && at + PayloadLen(fields) == |input| && AllSendable(utf8, fields)
    decreases |types|
  {
    if types != [] {
      var first, rest := ReadUnfolds(utf8, types, input, at);
      ReadIsExact(utf8, types[1..], input, at + FieldLen(first), rest);
      ExactStep(utf8, types, first, rest);
    }
  }

  lemma ExactStep(utf8: Utf8, types: seq<FieldType>, first: Field, rest: seq<Field>)
    requires types != [] && TypeOf(first) == types[0] && TypesOf(rest) == types[1..]
    requires Sendable(utf8, first) && AllSendable(utf8, rest)
    ensures TypesOf([first] + rest) == types && PayloadLen([first] + rest) == FieldLen(first) + PayloadLen(rest)
    ensures AllSendable(utf8, [first] + rest)
  {
    assert ([first] + rest)[1..] == rest;
  }

  lemma {:induction false} NumbersReencoded(input: seq<byte>, at: nat, items: seq<u32>)
    requires at + 4 * |items| <= |input| && ReadNumbers(input, at, |items|) == Ok(items)
    ensures NumbersBytes(items) == input[at..at + 4 * |items|]
    decreases |items|
  {
    if items != [] {
      var rest := ReadNumbers(input, at + 4, |items| - 1).value;
      assert items[1..] == rest;
      NumbersReencoded(input, at + 4, rest);
      SpelledAgain(input[at..at + 4]);
      assert input[at..at + 4 * |items|] == input[at..at + 4] + input[at + 4..at + 4 + 4 * |rest|];
    }
  }

  /** Encoding what was read gives the bytes it was read from, whatever it is but text. */
  lemma Reencoded(utf8: Utf8, t: FieldType, input: seq<byte>, at: nat, f: Field)
    requires at <= |input| && ReadField(utf8, t, input, at) == Ok(f) && !f.Text?
    ensures FieldBytes(f) == input[at..at + FieldLen(f)]
  {
    match f {
      case U64(v) => WideReencoded(utf8, input, at, v);
      case Numbers(items) => ListReencoded(utf8, input, at, items);
      case _ => WordReencoded(utf8, t, input, at, f);
    }
  }

  /** For text it does exactly when the padding was zero: that is the one thing the reader does not
      look at. */
  lemma TextReencodedIff(utf8: Utf8, input: seq<byte>, at: nat, b: seq<byte>)
    requires at <= |input| && ReadField(utf8, TText, input, at) == Ok(Text(b))
    ensures FieldBytes(Text(b)) == input[at..at + FieldLen(Text(b))] <==>
              input[at + 4 + |b|..at + FieldLen(Text(b))] == Zeroes(Padding(|b|))
  {
    SpelledAgain(input[at..at + 4]);
    TextReencoded(input, at, b);
  }

  lemma WordReencoded(utf8: Utf8, t: FieldType, input: seq<byte>, at: nat, f: Field)
    requires at <= |input| && ReadField(utf8, t, input, at) == Ok(f) && (f.U32? || f.I32? || f.Handle?)
    ensures FieldBytes(f) == input[at..at + 4]
  {
    SpelledAgain(input[at..at + 4]);
  }

  lemma WideReencoded(utf8: Utf8, input: seq<byte>, at: nat, v: u64)
    requires at <= |input| && ReadField(utf8, TU64, input, at) == Ok(U64(v))
    ensures FieldBytes(U64(v)) == input[at..at + 8]
  {
    SpelledAgain(input[at..at + 4]);
    SpelledAgain(input[at + 4..at + 8]);
    HalvesAgain(FromLe32(input[at..at + 4]), FromLe32(input[at + 4..at + 8]), v);
    assert input[at..at + 8] == input[at..at + 4] + input[at + 4..at + 8];
  }

  lemma ListReencoded(utf8: Utf8, input: seq<byte>, at: nat, items: seq<u32>)
    requires at <= |input| && ReadField(utf8, TNumbers, input, at) == Ok(Numbers(items))
    ensures FieldBytes(Numbers(items)) == input[at..at + FieldLen(Numbers(items))]
  {
    SpelledAgain(input[at..at + 4]);
    NumbersReencoded(input, at + 4, items);
    assert input[at..at + FieldLen(Numbers(items))] == input[at..at + 4] + input[at + 4..at + 4 + 4 * |items|];
  }

  lemma TextReencoded(input: seq<byte>, at: nat, b: seq<byte>)
    requires |b| <= U32_MAX && at + FieldLen(Text(b)) <= |input|
    requires Le32(|b|) == input[at..at + 4] && b == input[at + 4..at + 4 + |b|]
    ensures FieldBytes(Text(b)) == input[at..at + FieldLen(Text(b))] <==>
              input[at + 4 + |b|..at + FieldLen(Text(b))] == Zeroes(Padding(|b|))
  {
    var end := at + FieldLen(Text(b));
    var tail := input[at + 4 + |b|..end];
    assert input[at..end] == Le32(|b|) + b + tail;
    assert (Le32(|b|) + b + tail)[4 + |b|..] == tail;
    assert FieldBytes(Text(b))[4 + |b|..] == Zeroes(Padding(|b|));
  }

  // ----- frames -----

  datatype Header = Header(objectId: u32, opcode: u16, size: u16, sequence: u32)

  function HeaderBytes(h: Header): (b: seq<byte>)
    ensures |b| == HEADER_SIZE
  {
    Le32(h.objectId) + Le16(h.opcode) + Le16(h.size) + Le32(h.sequence)
  }

  /** `Header::for_payload`. */
  function ForPayload(objectId: u32, opcode: u16, sequence: u32, payload: nat): (r: Result<Header, EncodeError>)
    ensures r.Ok? <==> HEADER_SIZE + payload <= MAX_MESSAGE_SIZE && payload % 4 == 0
    ensures r.Ok? ==> r.value == Header(objectId, opcode, HEADER_SIZE + payload, sequence)
  {
    var size := HEADER_SIZE + payload;
    if size > MAX_MESSAGE_SIZE then Err(MessageTooLarge)
    else if size % 4 != 0 then Err(MisalignedSize)
    else Ok(Header(objectId, opcode, size, sequence))
  }

  function DecodeHeader(input: seq<byte>): (r: Result<Header, DecodeError>)
    ensures r.Ok? <==> |input| >= HEADER_SIZE
  {
    if |input| < HEADER_SIZE then Err(Truncated)
    else Ok(Header(FromLe32(input[0..4]), FromLe16(input[4..6]), FromLe16(input[6..8]), FromLe32(input[8..12])))
  }

  datatype Frame = Frame(header: Header, payload: seq<byte>)

  /** Where the wire puts what, in numbers of its own: a header is the object, the opcode, the length of the
      whole message and the sequence number, in four, two, two and four bytes. */
  predicate HeaderLaidOut(b: seq<byte>, objectId: u32, opcode: u16, size: nat, sequence: u32) {
    && 12 <= |b|
    && Value(b[0..4]) == objectId && Value(b[4..6]) == opcode && Value(b[6..8]) == size && Value(b[8..12]) == sequence
  }

  /** `Frame::decode`: one whole packet, no more and no less. */
  function DecodeFrame(packet: seq<byte>): (r: Result<Frame, DecodeError>)
    ensures r.Ok? ==> && |packet| == r.value.header.size && HEADER_SIZE <= |packet| <= MAX_MESSAGE_SIZE && |packet| % 4 == 0
                      && r.value.payload == packet[HEADER_SIZE..]
    ensures r.Ok? ==> var h := r.value.header; HeaderLaidOut(packet, h.objectId, h.opcode, |packet|, h.sequence)
  {
    var header := DecodeHeader(packet);
    if header.Err? then Err(header.error)
    else
      var declared := header.value.size;
      if declared < HEADER_SIZE then Err(TooSmall)
      else if declared > MAX_MESSAGE_SIZE then Err(TooLarge)
      else if declared % 4 != 0 then Err(Misaligned)
      else if |packet| < declared then Err(Truncated)
      else if |packet| > declared then Err(TrailingBytes)
      else Ok(Frame(header.value, packet[HEADER_SIZE..declared]))
  }

  /** Least significant bytes come first. */
  lemma LittleEndian(a: byte, b: byte, c: byte, d: byte)
    ensures Value([a]) == a as int && Value([a, b]) == a as int + 0x100 * b as int
    ensures Value([a, b, c, d]) == a as int + 0x100 * b as int + 0x1_0000 * c as int + 0x100_0000 * d as int
  {
    assert [a][1..] == [] && [a, b][1..] == [b] && [b][1..] == [];
    assert [a, b, c, d][1..] == [b, c, d] && [b, c, d][1..] == [c, d] && [c, d][1..] == [d] && [d][1..] == [];
    assert Value([c, d]) == c as int + 0x100 * Value([d]) && Value([b, c, d]) == b as int + 0x100 * Value([c, d]);
  }

  lemma HeaderIsLaidOut(h: Header, rest: seq<byte>)
    ensures HeaderLaidOut(HeaderBytes(h) + rest, h.objectId, h.opcode, h.size, h.sequence)
  {
    var b := HeaderBytes(h) + rest;
    assert b[0..4] == Le32(h.objectId) && b[4..6] == Le16(h.opcode) && b[6..8] == Le16(h.size) && b[8..12] == Le32(h.sequence);
  }

  /** A packet is accepted exactly when it has a header, the length the header gives is its own, and that is
      a multiple of four and at most 65532; and then the header is read as it is laid out. */
  lemma FrameIff(packet: seq<byte>)
    ensures DecodeFrame(packet).Ok?
            <==> 12 <= |packet| <= 65_532 && |packet| % 4 == 0 && Value(packet[6..8]) == |packet|
    ensures DecodeFrame(packet).Ok? ==>
              var h := DecodeFrame(packet).value.header;
              && HeaderLaidOut(packet, h.objectId, h.opcode, |packet|, h.sequence)
              && DecodeFrame(packet).value.payload == packet[12..]
  {
  }

  /** Why a packet is refused, by the length its header gives. */
  lemma FrameRefused(packet: seq<byte>)
    requires DecodeFrame(packet).Err?
    ensures |packet| < 12 ==> DecodeFrame(packet).error == Truncated
    ensures |packet| >= 12 ==>
              var declared := Value(packet[6..8]);
              DecodeFrame(packet).error == if declared < 12 then TooSmall else if declared > 65_532 then TooLarge
                                           else if declared % 4 != 0 then Misaligned
                                           else if |packet| < declared then Truncated else TrailingBytes
  {
  }

  /** A packet as bytes: object 1, opcode 3, nothing but a header, sequence number 7. */
  lemma BarePacket()
    ensures DecodeFrame([1, 0, 0, 0, 3, 0, 12, 0, 7, 0, 0, 0]) == Ok(Frame(Header(1, 3, 12, 7), []))
  {
    var packet: seq<byte> := [1, 0, 0, 0, 3, 0, 12, 0, 7, 0, 0, 0];
    assert packet[0..4] == [1, 0, 0, 0] && packet[4..6] == [3, 0] && packet[6..8] == [12, 0] && packet[8..12] == [7, 0, 0, 0];
    LittleEndian(1, 0, 0, 0);
    LittleEndian(3, 0, 0, 0);
    LittleEndian(12, 0, 0, 0);
    LittleEndian(7, 0, 0, 0);
    assert packet[12..12] == [];
  }

  lemma {:induction false} NumberLaidOut(items: seq<u32>, i: nat)
    requires i < |items|
    ensures Value(NumbersBytes(items)[4 * i..4 * i + 4]) == items[i]
  {
    var b := NumbersBytes(items);
    if i == 0 {
      assert b[0..4] == Le32(items[0]);
    } else {
      NumberLaidOut(items[1..], i - 1);
      assert b[4..] == NumbersBytes(items[1..]);
      assert b[4 * i..4 * i + 4] == b[4..][4 * (i - 1)..4 * (i - 1) + 4];
    }
  }

  lemma {:induction false} ValueSplits(low: seq<byte>, high: seq<byte>)
    requires |low| == 4
    ensures Value(low + high) == Value(low) + 0x1_0000_0000 * Value(high)
  {
    var b := low + high;
    LittleEndian(low[0], low[1], low[2], low[3]);
    assert low == [low[0], low[1], low[2], low[3]];
    assert b[1..][1..][1..][1..] == high && b[1..][0] == low[1] && b[1..][1..][0] == low[2] && b[1..][1..][1..][0] == low[3];
    assert Value(b[1..][1..]) == low[2] as int + 0x100 * (low[3] as int + 0x100 * Value(high));
    assert Value(b) == low[0] as int + 0x100 * (low[1] as int + 0x100 * Value(b[1..][1..]));
  }

  /** Where a field's bytes are: numbers least significant byte first, a wide number's low half first, text
      and lists behind their count, text padded with zeroes, and a handle's place above 0xFFFFFF00. */
  lemma FieldLaidOut(f: Field)
    requires Countable(f)
    ensures var b := FieldBytes(f);
            && (f.U32? ==> |b| == 4 && Value(b) == f.number)
            && (f.I32? ==> |b| == 4 && Value(b) == if f.signed < 0 then f.signed + 0x1_0000_0000 else f.signed)
            && (f.U64? ==> |b| == 8 && Value(b) == f.wide)
            && (f.Text? ==> && 4 + |f.bytes| <= |b| < 8 + |f.bytes| && |b| % 4 == 0
                            && Value(b[..4]) == |f.bytes| && b[4..4 + |f.bytes|] == f.bytes
                            && forall i | 4 + |f.bytes| <= i < |b| :: b[i] == 0)
            && (f.Numbers? ==> && |b| == 4 + 4 * |f.items| && Value(b[..4]) == |f.items|
                               && forall i: nat | i < |f.items| :: Value(b[4..][4 * i..4 * i + 4]) == f.items[i])
            && (f.Handle? ==> |b| == 4 && Value(b) == 0xFFFF_FF00 + f.slot as int)
  {
    var b := FieldBytes(f);
    match f {
      case U64(v) => ValueSplits(Le32(Halves(v).0), Le32(Halves(v).1));
      case Text(t) => assert b[..4] == Le32(|t|);
      case Numbers(items) =>
        assert b[..4] == Le32(|items|) && b[4..] == NumbersBytes(items);
        forall i: nat | i < |items| ensures Value(b[4..][4 * i..4 * i + 4]) == items[i] {
          NumberLaidOut(items, i);
        }
      case _ =>
    }
  }

  /** When a field is read, of the bytes from its place on. */
  lemma ReadIff(utf8: Utf8, t: FieldType, input: seq<byte>, at: nat)
    requires at <= |input|
    ensures var left, count := |input| - at, if at + 4 <= |input| then Value(input[at..at + 4]) else 0;
            ReadField(utf8, t, input, at).Ok?
            <==> && 4 <= left
                 && (t.TU64? ==> 8 <= left)
                 && (t.TText? ==> 4 + count <= left && 4 + (count + 3) / 4 * 4 <= left && utf8(input[at + 4..at + 4 + count]))
                 && (t.TNumbers? ==> 4 + 4 * count <= left)
                 && (t.THandle? ==> 0xFFFF_FF00 <= count)
  {
    if t.TText? && at + 4 <= |input| {
      var n: nat := FromLe32(input[at..at + 4]);
      assert n + Padding(n) == (n + 3) / 4 * 4;
      if at + 4 + n + Padding(n) <= |input| {
        assert input[at + 4..at + 4 + (n + Padding(n))][..n] == input[at + 4..at + 4 + n];
      }
    }
    if t.TNumbers? && at + 4 <= |input| {
      NumbersReadIff(input, at + 4, FromLe32(input[at..at + 4]));
    }
  }

  lemma {:induction false} NumberRead(input: seq<byte>, at: nat, items: seq<u32>, i: nat)
    requires at + 4 * |items| <= |input| && ReadNumbers(input, at, |items|) == Ok(items) && i < |items|
    ensures Value(input[at + 4 * i..at + 4 * i + 4]) == items[i]
    decreases i
  {
    if i > 0 {
      var rest := ReadNumbers(input, at + 4, |items| - 1).value;
      assert items[1..] == rest;
      NumberRead(input, at + 4, rest, i - 1);
    }
  }

  /** What is read is what the bytes from its place on say. */
  lemma ReadLaidOut(utf8: Utf8, t: FieldType, input: seq<byte>, at: nat, f: Field)
    requires at <= |input| && ReadField(utf8, t, input, at) == Ok(f)
    ensures var count := Value(input[at..at + 4]);
            && (f.U32? ==> f.number == count)
            && (f.I32? ==> f.signed == if count >= 0x8000_0000 then count - 0x1_0000_0000 else count)
            && (f.U64? ==> f.wide == Value(input[at..at + 8]))
            && (f.Text? ==> |f.bytes| == count && f.bytes == input[at + 4..at + 4 + count])
            && (f.Numbers? ==> |f.items| == count
                               && forall i: nat | i < count :: f.items[i] == Value(input[at + 4 + 4 * i..at + 8 + 4 * i]))
            && (f.Handle? ==> 0xFFFF_FF00 + f.slot as int == count)
  {
    match f {
      case U64(v) =>
        ValueSplits(input[at..at + 4], input[at + 4..at + 8]);
        assert input[at..at + 8] == input[at..at + 4] + input[at + 4..at + 8];
      case Text(b) => assert b == input[at + 4..at + 4 + |b|];
      case Numbers(items) =>
        forall i: nat | i < |items| ensures items[i] == Value(input[at + 4 + 4 * i..at + 8 + 4 * i]) {
          NumberRead(input, at + 4, items, i);
        }
      case _ =>
    }
  }

  lemma {:induction false} NumbersReadIff(input: seq<byte>, at: nat, count: nat)
    requires at <= |input|
    ensures ReadNumbers(input, at, count).Ok? <==> at + 4 * count <= |input|
    decreases count
  {
    if count > 0 && at + 4 <= |input| {
      NumbersReadIff(input, at + 4, count - 1);
    }
  }

  lemma HeaderRoundTrip(h: Header, rest: seq<byte>)
    ensures DecodeHeader(HeaderBytes(h) + rest) == Ok(h)
  {
    var b := HeaderBytes(h) + rest;
    assert b[0..4] == Le32(h.objectId) && b[4..6] == Le16(h.opcode) && b[6..8] == Le16(h.size) && b[8..12] == Le32(h.sequence);
  }

  /** A whole message: the header, and then the fields. */
  function Message(objectId: u32, opcode: u16, sequence: u32, fields: seq<Field>): (b: seq<byte>)
    requires AllCountable(fields) && HEADER_SIZE + PayloadLen(fields) <= MAX_MESSAGE_SIZE
    ensures |b| == HEADER_SIZE + PayloadLen(fields)
  {
    HeaderBytes(HeaderOf(objectId, opcode, sequence, fields)) + PayloadBytes(fields)
  }

  function HeaderOf(objectId: u32, opcode: u16, sequence: u32, fields: seq<Field>): Header
    requires HEADER_SIZE + PayloadLen(fields) <= MAX_MESSAGE_SIZE
  {
    Header(objectId, opcode, HEADER_SIZE + PayloadLen(fields), sequence)
  }

  /** Every message that fits comes back as it was: the header, the fields, and nothing after them;
      its length is a multiple of four. */
  lemma MessageRoundTrip(utf8: Utf8, objectId: u32, opcode: u16, sequence: u32, fields: seq<Field>)
    requires AllSendable(utf8, fields) && AllCountable(fields) && HEADER_SIZE + PayloadLen(fields) <= MAX_MESSAGE_SIZE
    ensures (HEADER_SIZE + PayloadLen(fields)) % 4 == 0
    ensures DecodeFrame(Message(objectId, opcode, sequence, fields))
            == Ok(Frame(HeaderOf(objectId, opcode, sequence, fields), PayloadBytes(fields)))
    ensures ReadPayload(utf8, TypesOf(fields), PayloadBytes(fields), 0) == Ok(fields)
  {
    SizeAligned(fields);
    FramesBack(objectId, opcode, sequence, fields, PayloadBytes(fields));
    ReadsBack(utf8, fields, PayloadBytes(fields));
  }

  lemma ReadsBack(utf8: Utf8, fields: seq<Field>, payload: seq<byte>)
    requires AllSendable(utf8, fields) && AllCountable(fields) && payload == PayloadBytes(fields)
    ensures ReadPayload(utf8, TypesOf(fields), payload, 0) == Ok(fields)
  {
    assert payload[0..] == payload;
    PayloadReads(utf8, fields, payload, payload, 0);
    Unlock();
  }

  lemma SizeAligned(fields: seq<Field>)
    ensures (HEADER_SIZE + PayloadLen(fields)) % 4 == 0
  {
    PayloadAligned(fields);
  }

  lemma FramesBack(objectId: u32, opcode: u16, sequence: u32, fields: seq<Field>, payload: seq<byte>)
    requires AllCountable(fields) && HEADER_SIZE + PayloadLen(fields) <= MAX_MESSAGE_SIZE && payload == PayloadBytes(fields)
    ensures DecodeFrame(Message(objectId, opcode, sequence, fields))
            == Ok(Frame(HeaderOf(objectId, opcode, sequence, fields), payload))
  {
    var header := HeaderOf(objectId, opcode, sequence, fields);
    assert header.size % 4 == 0 by {
      SizeAligned(fields);
    }
    assert Message(objectId, opcode, sequence, fields) == HeaderBytes(header) + payload;
    FrameRoundTrip(header, payload);
  }

  lemma FrameRoundTrip(header: Header, payload: seq<byte>)
    requires header.size == HEADER_SIZE + |payload| && header.size <= MAX_MESSAGE_SIZE && header.size % 4 == 0
    ensures DecodeFrame(HeaderBytes(header) + payload) == Ok(Frame(header, payload))
  {
    HeaderRoundTrip(header, payload);
    var packet := HeaderBytes(header) + payload;
    assert packet[HEADER_SIZE..header.size] == payload;
  }

  /** The text of one field was padded with zeroes. */
  predicate TextPadded(input: seq<byte>, at: nat, f: Field)
    requires at + FieldLen(f) <= |input|
  {
    f.Text? ==> input[at + 4 + |f.bytes|..at + FieldLen(f)] == Zeroes(Padding(|f.bytes|))
  }

  /** Every text read from a place on was padded with zeroes. */
  predicate ZeroPadded(input: seq<byte>, at: nat, fields: seq<Field>)
    requires at + PayloadLen(fields) <= |input|
    decreases |fields|
  {
    fields == []
    || (&& TextPadded(input, at, fields[0])
        && ZeroPadded(input, at + FieldLen(fields[0]), fields[1..]))
  }

  /** Whether the text of a payload was padded with zeroes is `padded`. Folded. */
  ghost predicate Pads(input: seq<byte>, at: nat, fields: seq<Field>, padded: bool) {
    forall key: Key | Opened(key) :: at + PayloadLen(fields) <= |input| && padded == ZeroPadded(input, at, fields)
  }

  /** A field that was read encodes to the bytes it was read from exactly when it ends in zero padding. */
  lemma FieldReencodedIff(utf8: Utf8, t: FieldType, input: seq<byte>, at: nat, f: Field) returns (b: seq<byte>)
    requires at <= |input| && ReadField(utf8, t, input, at) == Ok(f)
    ensures at + FieldLen(f) <= |input| && SpellsField(f, b)
    ensures b == input[at..at + FieldLen(f)] <==> TextPadded(input, at, f)
  {
    b := FieldBytes(f);
    if f.Text? {
      TextReencodedIff(utf8, input, at, f.bytes);
    } else {
      Reencoded(utf8, t, input, at, f);
    }
  }

  lemma SpellsMore(first: Field, rest: seq<Field>, head: seq<byte>, tail: seq<byte>)
    requires SpellsField(first, head) && SpellsAll(rest, tail)
    ensures SpellsAll([first] + rest, head + tail)
  {
    Unlock();
    assert ([first] + rest)[1..] == rest;
  }

  lemma PadsMore(input: seq<byte>, at: nat, first: Field, rest: seq<Field>, padded: bool)
    requires at + FieldLen(first) <= |input| && Pads(input, at + FieldLen(first), rest, padded)
    ensures Pads(input, at, [first] + rest, TextPadded(input, at, first) && padded)
  {
    Unlock();
    assert ([first] + rest)[1..] == rest;
  }

  /** A payload that was read encodes to the bytes it was read from exactly when all of its text was
      padded with zeroes. */
  lemma {:induction false} PayloadReencodedIff(utf8: Utf8, types: seq<FieldType>, input: seq<byte>, at: nat,
                                               fields: seq<Field>) returns (b: seq<byte>, padded: bool)
    requires at <= |input| && ReadPayload(utf8, types, input, at) == Ok(fields)
    ensures SpellsAll(fields, b) && Pads(input, at, fields, padded) && at + |b| == |input|
    ensures b == input[at..] <==> padded
    decreases |types|
  {
    if types == [] {
      b, padded := [], true;
    } else {
      var first, rest := ReadUnfolds(utf8, types, input, at);
      var next := at + FieldLen(first);
      var head := FieldReencodedIff(utf8, types[0], input, at, first);
      var tail, more := PayloadReencodedIff(utf8, types[1..], input, next, rest);
      SpellsMore(first, rest, head, tail);
      PadsMore(input, at, first, rest, more);
      JoinedIff(input, at, next, head, tail);
      b, padded := head + tail, TextPadded(input, at, first) && more;
    }
  }

  lemma JoinedIff(input: seq<byte>, at: nat, next: nat, head: seq<byte>, tail: seq<byte>)
    requires at + |head| == next && next + |tail| == |input|
    ensures head + tail == input[at..] <==> head == input[at..next] && tail == input[next..]
  {
    var both := head + tail;
    assert input[at..] == input[at..next] + input[next..];
    assert both[..|head|] == head && both[|head|..] == tail;
    assert input[at..][..|head|] == input[at..next] && input[at..][|head|..] == input[next..];
  }

  lemma HeaderReencoded(packet: seq<byte>)
    requires DecodeHeader(packet).Ok?
    ensures HeaderBytes(DecodeHeader(packet).value) == packet[..HEADER_SIZE]
  {
    SpelledAgain(packet[0..4]);
    SameBytes(Le16(FromLe16(packet[4..6])), packet[4..6]);
    SameBytes(Le16(FromLe16(packet[6..8])), packet[6..8]);
    SpelledAgain(packet[8..12]);
    assert packet[..HEADER_SIZE] == packet[0..4] + packet[4..6] + packet[6..8] + packet[8..12];
  }

  /** A whole packet that was read is the message made of what was read exactly when all of its text
      was padded with zeroes. */
  lemma PacketReencodedIff(utf8: Utf8, types: seq<FieldType>, packet: seq<byte>, frame: Frame, fields: seq<Field>)
    requires DecodeFrame(packet) == Ok(frame) && ReadPayload(utf8, types, frame.payload, 0) == Ok(fields)
    ensures AllCountable(fields) && HEADER_SIZE + PayloadLen(fields) == |packet| <= MAX_MESSAGE_SIZE
    ensures Message(frame.header.objectId, frame.header.opcode, frame.header.sequence, fields) == packet
            <==> ZeroPadded(frame.payload, 0, fields)
  {
    var b, padded := PayloadReencodedIff(utf8, types, frame.payload, 0, fields);
    Reencodes(frame.payload, fields, b, padded);
    HeaderReencoded(packet);
    PacketJoined(packet, HeaderBytes(frame.header), PayloadBytes(fields), frame.payload);
  }

  lemma Reencodes(payload: seq<byte>, fields: seq<Field>, b: seq<byte>, padded: bool)
    requires SpellsAll(fields, b) && Pads(payload, 0, fields, padded) && |b| == |payload|
    ensures AllCountable(fields) && b == PayloadBytes(fields) && |payload| == PayloadLen(fields)
    ensures padded == ZeroPadded(payload, 0, fields)
  {
    Unlock();
  }

  lemma PacketJoined(packet: seq<byte>, header: seq<byte>, tail: seq<byte>, payload: seq<byte>)
    requires HEADER_SIZE + |tail| == |packet| && header == packet[..HEADER_SIZE] && payload == packet[HEADER_SIZE..]
    ensures payload[0..] == payload
    ensures header + tail == packet <==> tail == payload
  {
    assert packet[0..] == packet && packet[0..HEADER_SIZE] == packet[..HEADER_SIZE];
    JoinedIff(packet, 0, HEADER_SIZE, header, tail);
  }

  // ----- writing into a caller's buffer -----

  /** Nothing outside a part of a buffer changed. Folded. */
  ghost predicate Framed(was: seq<byte>, now: seq<byte>, base: nat, limit: nat) {
    forall key: Key | Opened(key) ::
      |now| == |was| && base <= limit <= |was| && now[..base] == was[..base] && now[limit..] == was[limit..]
  }

  lemma FramedTrans(a: seq<byte>, b: seq<byte>, c: seq<byte>, base: nat, limit: nat)
    requires Framed(a, b, base, limit) && Framed(b, c, base, limit)
    ensures Framed(a, c, base, limit)
  {
    Unlock();
  }

  lemma FramedRefl(a: seq<byte>, base: nat, limit: nat)
    requires base <= limit <= |a|
    ensures Framed(a, a, base, limit)
  {
  }

  /** `Encoder`, over a part of a buffer. */
  class Encoder {
    const output: array<byte>
    const base: nat
    const limit: nat
    var position: nat

    constructor (output: array<byte>, base: nat, limit: nat)
      requires base <= limit <= output.Length
      ensures Valid() && position == 0 && this.output == output && this.base == base && this.limit == limit
    {
      this.output, this.base, this.limit, position := output, base, limit, 0;
    }

    ghost predicate Valid()
      reads this
    {
      base + position <= limit <= output.Length
    }

    /** What was written so far. */
    ghost function Written(): (b: seq<byte>)
      requires Valid()
      reads this, output
    {
      output[base..base + position]
    }

    /** `write`: all of the bytes, or none of them. */
    method Write(bytes: seq<byte>) returns (ok: bool)
      requires Valid()
      modifies `position, output
      ensures Valid() && ok == (base + old(position) + |bytes| <= limit)
      ensures Written() == if ok then old(Written()) + bytes else old(Written())
      ensures Framed(old(output[..]), output[..], base, limit)
      ensures position == if ok then old(position) + |bytes| else old(position)
    {
      if base + position + |bytes| > limit {
        FramedRefl(output[..], base, limit);
        return false;
      }
      var at := base + position;
      var i := 0;
      while i < |bytes|
        invariant 0 <= i <= |bytes| && position == old(position)
        invariant forall j | 0 <= j < output.Length ::
                    output[j] == if at <= j < at + i then bytes[j - at] else old(output[j])
      {
        output[at + i] := bytes[i];
        i := i + 1;
      }
      assert output[base..at] == old(output[base..at]) && output[at..at + |bytes|] == bytes;
      assert output[base..at + |bytes|] == output[base..at] + output[at..at + |bytes|];
      assert output[..][..base] == old(output[..])[..base] && output[..][limit..] == old(output[..])[limit..];
      position := position + |bytes|;
      return true;
    }

    method WriteField(f: Field) returns (ok: bool)
      requires Valid() && Countable(f)
      modifies `position, output
      ensures Valid() && (ok <==> base + old(position) + FieldLen(f) <= limit)
      ensures ok ==> Written() == old(Written()) + FieldBytes(f) && position == old(position) + FieldLen(f)
      ensures Framed(old(output[..]), output[..], base, limit)
    {
      match f {
        case U32(v) => ok := Write(Le32(v));
        case I32(v) => ok := Write(Le32(Unsigned(v)));
        case Handle(slot) => ok := Write(Le32(HANDLE_PLACEHOLDER_BASE + slot as int));
        case U64(v) => ok := WriteBoth(Le32(Halves(v).0), Le32(Halves(v).1));
        case Text(b) => ok := WriteText(b);
        case Numbers(items) => ok := WriteNumbers(items);
      }
    }

    method WriteBoth(a: seq<byte>, b: seq<byte>) returns (ok: bool)
      requires Valid()
      modifies `position, output
      ensures Valid() && (ok <==> base + old(position) + |a| + |b| <= limit)
      ensures ok ==> Written() == old(Written()) + (a + b) && position == old(position) + |a| + |b|
      ensures Framed(old(output[..]), output[..], base, limit)
    {
      ghost var start := Written();
      ok := Write(a);
      if ok {
        ghost var mid := output[..];
        ok := Write(b);
        FramedTrans(old(output[..]), mid, output[..], base, limit);
        Appended(start, a, b);
      }
    }

    /** `write_string`: the length, the bytes and zeroes up to a multiple of four. */
    method WriteText(b: seq<byte>) returns (ok: bool)
      requires Valid() && |b| <= U32_MAX
      modifies `position, output
      ensures Valid() && (ok <==> base + old(position) + FieldLen(Text(b)) <= limit)
      ensures ok ==> Written() == old(Written()) + FieldBytes(Text(b)) && position == old(position) + FieldLen(Text(b))
      ensures Framed(old(output[..]), output[..], base, limit)
    {
      ghost var start := Written();
      ok := WriteBoth(Le32(|b|), b);
      if ok {
        ghost var mid := output[..];
        ok := Write(Zeroes(Padding(|b|)));
        FramedTrans(old(output[..]), mid, output[..], base, limit);
        Appended(start, Le32(|b|) + b, Zeroes(Padding(|b|)));
      }
    }

    /** The count and then the elements, one by one. */
    method WriteNumbers(items: seq<u32>) returns (ok: bool)
      requires Valid() && |items| <= U32_MAX
      modifies `position, output
      ensures Valid() && (ok <==> base + old(position) + FieldLen(Numbers(items)) <= limit)
      ensures ok ==> Written() == old(Written()) + FieldBytes(Numbers(items)) && position == old(position) + FieldLen(Numbers(items))
      ensures Framed(old(output[..]), output[..], base, limit)
    {
      ghost var start := Written();
      ok := Write(Le32(|items|));
      if !ok {
        return;
      }
      var i := 0;
      CountedStart(start, items);
      while i < |items|
        invariant 0 <= i <= |items| && Valid() && position == old(position) + 4 + 4 * i
        invariant Counted(Written(), start, items, i)
        invariant Framed(old(output[..]), output[..], base, limit)
      {
        ok := WriteNumber(items, i, start, old(output[..]));
        if !ok {
          return;
        }
        i := i + 1;
      }
      CountedEnd(Written(), start, items);
    }

    /** One element. */
    method WriteNumber(items: seq<u32>, i: nat, ghost start: seq<byte>, ghost was: seq<byte>) returns (ok: bool)
      requires Valid() && i < |items| && Counted(Written(), start, items, i) && Framed(was, output[..], base, limit)
      modifies `position, output
      ensures Valid() && (ok <==> base + old(position) + 4 <= limit) && (ok ==> position == old(position) + 4)
      ensures ok ==> Counted(Written(), start, items, i + 1)
      ensures Framed(was, output[..], base, limit)
    {
      ghost var mid, before := output[..], Written();
      ok := Write(Le32(items[i]));
      FramedTrans(was, mid, output[..], base, limit);
      if ok {
        CountedStep(before, start, items, i);
      }
    }
  }

  lemma Appended(start: seq<byte>, a: seq<byte>, b: seq<byte>)
    ensures start + a + b == start + (a + b)
  {
  }

  /** A count and the first of the elements, behind what was there before. Folded. */
  ghost predicate Counted(written: seq<byte>, start: seq<byte>, items: seq<u32>, i: nat) {
    forall key: Key | Opened(key) ::
      i <= |items| <= U32_MAX && written == start + (Le32(|items|) + NumbersBytes(items[..i]))
  }

  lemma CountedStart(start: seq<byte>, items: seq<u32>)
    requires |items| <= U32_MAX
    ensures Counted(start + Le32(|items|), start, items, 0)
  {
    assert Le32(|items|) + NumbersBytes(items[..0]) == Le32(|items|);
  }

  lemma CountedStep(written: seq<byte>, start: seq<byte>, items: seq<u32>, i: nat)
    requires i < |items| && Counted(written, start, items, i)
    ensures Counted(written + Le32(items[i]), start, items, i + 1)
  {
    Unlock();
    NumbersOne(items, i);
    Appended(start, Le32(|items|) + NumbersBytes(items[..i]), Le32(items[i]));
    Appended(Le32(|items|), NumbersBytes(items[..i]), Le32(items[i]));
  }

  lemma CountedEnd(written: seq<byte>, start: seq<byte>, items: seq<u32>)
    requires Counted(written, start, items, |items|)
    ensures |items| <= U32_MAX && written == start + FieldBytes(Numbers(items))
  {
    Unlock();
    assert items[..|items|] == items;
  }

  lemma {:induction false} NumbersOne(items: seq<u32>, i: nat)
    requires i < |items|
    ensures NumbersBytes(items[..i + 1]) == NumbersBytes(items[..i]) + Le32(items[i])
    decreases i
  {
    if i == 0 {
      assert items[..1] == [items[0]] && items[..0] == [];
      assert NumbersBytes([items[0]]) == Le32(items[0]) + NumbersBytes([]);
    } else {
      NumbersOne(items[1..], i - 1);
      assert items[..i + 1][1..] == items[1..][..i] && items[..i][1..] == items[1..][..i - 1];
      assert items[1..][i - 1] == items[i];
    }
  }

  /** `encode_message`: the header and the fields, with what is beyond the message left alone, or the
      first limit that is passed and nothing written. */
  method EncodeMessage(objectId: u32, opcode: u16, sequence: u32, fields: seq<Field>, output: array<byte>)
    returns (r: Result<nat, EncodeError>)
    modifies output
    ensures r.Ok? <==> HEADER_SIZE + PayloadLen(fields) <= MAX_MESSAGE_SIZE && HEADER_SIZE + PayloadLen(fields) <= output.Length
    ensures r.Ok? ==> && r.value == HEADER_SIZE + PayloadLen(fields) && r.value % 4 == 0 && r.value <= MAX_MESSAGE_SIZE
                      && AllCountable(fields) && output[..r.value] == Message(objectId, opcode, sequence, fields)
                      && output[r.value..] == old(output[r.value..])
    ensures r.Ok? ==> HeaderLaidOut(output[..r.value], objectId, opcode, r.value, sequence)
    ensures r.Err? ==> && output[..] == old(output[..])
                       && r.error == if HEADER_SIZE + PayloadLen(fields) > MAX_MESSAGE_SIZE then MessageTooLarge else BufferTooSmall
  {
    PayloadAligned(fields);
    var payload := PayloadLen(fields);
    var header := ForPayload(objectId, opcode, sequence, payload);
    if header.Err? {
      return Err(header.error);
    }
    FitsIsCountable(fields);
    var size: nat := header.value.size;
    if output.Length < size {
      return Err(BufferTooSmall);
    }
    ghost var was := output[..];
    var front := new Encoder(output, 0, HEADER_SIZE);
    var ok := front.Write(HeaderBytes(header.value));
    ghost var headed := output[..];
    var back := new Encoder(output, HEADER_SIZE, size);
    EncodeFields(back, fields);
    Assembled(was, headed, output[..], HeaderBytes(header.value), PayloadBytes(fields));
    HeaderIsLaidOut(header.value, PayloadBytes(fields));
    return Ok(size);
  }

  /** The header written at the front, then the payload behind it, and nothing else. */
  lemma Assembled(was: seq<byte>, headed: seq<byte>, done: seq<byte>, header: seq<byte>, payload: seq<byte>)
    requires |header| == HEADER_SIZE && HEADER_SIZE + |payload| <= |was|
    requires Framed(was, headed, 0, HEADER_SIZE) && |headed| == |was| && headed[..HEADER_SIZE] == header
    requires Framed(headed, done, HEADER_SIZE, HEADER_SIZE + |payload|) && |done| == |was|
    requires done[HEADER_SIZE..HEADER_SIZE + |payload|] == payload
    ensures done[..HEADER_SIZE + |payload|] == header + payload
    ensures done[HEADER_SIZE + |payload|..] == was[HEADER_SIZE + |payload|..]
  {
    Unlock();
    var size := HEADER_SIZE + |payload|;
    assert done[..size] == done[..HEADER_SIZE] + done[HEADER_SIZE..size];
    assert headed[size..] == headed[HEADER_SIZE..][|payload|..] && was[size..] == was[HEADER_SIZE..][|payload|..];
  }

  /** Every field into a part of the buffer that is exactly large enough. */
  method EncodeFields(e: Encoder, fields: seq<Field>)
    requires e.Valid() && e.position == 0 && e.base + PayloadLen(fields) == e.limit
    requires AllCountable(fields)
    modifies e`position, e.output
    ensures e.output[e.base..e.limit] == PayloadBytes(fields)
    ensures Framed(old(e.output[..]), e.output[..], e.base, e.limit)
  {
    var i := 0;
    FramedRefl(e.output[..], e.base, e.limit);
    FilledStart(fields);
    while i < |fields|
      invariant 0 <= i <= |fields| && e.Valid() && e.base + e.position + PayloadLen(fields[i..]) == e.limit
      invariant Filled(e.Written(), fields, i)
      invariant Framed(old(e.output[..]), e.output[..], e.base, e.limit)
    {
      ghost var start, mid := e.Written(), e.output[..];
      FilledStep(start, fields, i);
      var ok := e.WriteField(fields[i]);
      FramedTrans(old(e.output[..]), mid, e.output[..], e.base, e.limit);
      i := i + 1;
    }
    FilledEnd(e.Written(), fields);
  }

  /** What is written already and the fields from one on make the whole payload. Folded. */
  ghost predicate Filled(written: seq<byte>, fields: seq<Field>, i: nat) {
    forall key: Key | Opened(key) ::
      i <= |fields| && AllCountable(fields) && written + PayloadBytes(fields[i..]) == PayloadBytes(fields)
  }

  lemma FilledStart(fields: seq<Field>)
    requires AllCountable(fields)
    ensures Filled([], fields, 0) && fields[0..] == fields
  {
    assert [] + PayloadBytes(fields) == PayloadBytes(fields);
  }

  lemma FilledStep(written: seq<byte>, fields: seq<Field>, i: nat)
    requires i < |fields| && Filled(written, fields, i)
    ensures Countable(fields[i]) && PayloadLen(fields[i..]) == FieldLen(fields[i]) + PayloadLen(fields[i + 1..])
    ensures Filled(written + FieldBytes(fields[i]), fields, i + 1)
  {
    Unlock();
    var rest := fields[i..];
    assert rest[1..] == fields[i + 1..] && rest[0] == fields[i];
    Appended(written, FieldBytes(fields[i]), PayloadBytes(rest[1..]));
  }

  lemma FilledEnd(written: seq<byte>, fields: seq<Field>)
    requires Filled(written, fields, |fields|)
    ensures AllCountable(fields) && written == PayloadBytes(fields)
  {
    Unlock();
    assert fields[|fields|..] == [] && written + [] == written;
  }

  // ----- reading step by step -----

  /** `Decoder`. */
  class Decoder {
    const input: seq<byte>
    var position: nat

    constructor (input: seq<byte>)
      ensures Valid() && this.input == input && position == 0
    {
      this.input, position := input, 0;
    }

    ghost predicate Valid()
      reads this
    {
      position <= |input|
    }

    method TakeU32() returns (r: Result<u32, DecodeError>)
      requires Valid()
      modifies this
      ensures Valid() && r == ReadU32(input, old(position))
      ensures position == if r.Ok? then old(position) + 4 else old(position)
    {
      r := ReadU32(input, position);
      if r.Ok? {
        position := position + 4;
      }
    }

    method TakeNumbers(count: u32) returns (r: Result<seq<u32>, DecodeError>)
      requires Valid()
      modifies this
      ensures Valid() && r == ReadNumbers(input, old(position), count)
      ensures r.Ok? ==> position == old(position) + 4 * count as int
    {
      var items: seq<u32> := [];
      var left: nat := count;
      ghost var whole := ReadNumbers(input, position, count);
      if whole.Ok? {
        assert items + whole.value == whole.value;
      }
      while left > 0
        invariant Valid() && position == old(position) + 4 * |items| && |items| + left == count
        invariant var rest := ReadNumbers(input, position, left);
                  whole == if rest.Ok? then Ok(items + rest.value) else rest
      {
        ghost var rest := ReadNumbers(input, position, left);
        var v := TakeU32();
        if v.Err? {
          return Err(v.error);
        }
        ghost var more := ReadNumbers(input, position, left - 1);
        if more.Ok? {
          assert items + rest.value == (items + [v.value]) + more.value;
        }
        items := items + [v.value];
        left := left - 1;
      }
      assert items + [] == items;
      return Ok(items);
    }

    method TakeField(utf8: Utf8, t: FieldType) returns (r: Result<Field, DecodeError>)
      requires Valid()
      modifies this
      ensures Valid() && r == ReadField(utf8, t, input, old(position))
      ensures r.Ok? ==> position == old(position) + FieldLen(r.value)
    {
      var first := TakeU32();
      if first.Err? {
        return Err(first.error);
      }
      match t {
        case TU32 => r := Ok(U32(first.value));
        case TI32 => r := Ok(I32(Signed(first.value)));
        case TU64 =>
          var high := TakeU32();
          if high.Err? {
            return Err(high.error);
          }
          r := Ok(U64((first.value as int) + 0x1_0000_0000 * (high.value as int)));
        case TText =>
          var n: nat := first.value;
          var b := ReadBytes(input, position, n + Padding(n));
          if b.Err? {
            return Err(b.error);
          }
          position := position + n + Padding(n);
          r := if utf8(b.value[..n]) then Ok(Text(b.value[..n])) else Err(InvalidUtf8);
        case TNumbers =>
          var items := TakeNumbers(first.value);
          r := if items.Ok? then Ok(Numbers(items.value)) else Err(items.error);
        case THandle =>
          r := if first.value < HANDLE_PLACEHOLDER_BASE then Err(InvalidHandlePlaceholder)
               else Ok(Handle(first.value - HANDLE_PLACEHOLDER_BASE));
      }
    }

    /** A payload's `decode`: its fields in order, and then `finish`. */
    method TakePayload(utf8: Utf8, types: seq<FieldType>) returns (r: Result<seq<Field>, DecodeError>)
      requires Valid() && position == 0
      modifies this
      ensures Valid() && r == ReadPayload(utf8, types, input, 0)
    {
      var fields: seq<Field> := [];
      var i := 0;
      assert types[0..] == types;
      ghost var whole := ReadPayload(utf8, types, input, 0);
      if whole.Ok? {
        assert fields + whole.value == whole.value;
      }
      while i < |types|
        invariant 0 <= i <= |types| && Valid()
        invariant var rest := ReadPayload(utf8, types[i..], input, position);
                  whole == if rest.Ok? then Ok(fields + rest.value) else rest
      {
        ghost var rest := ReadPayload(utf8, types[i..], input, position);
        assert types[i..][1..] == types[i + 1..];
        var f := TakeField(utf8, types[i]);
        if f.Err? {
          return Err(f.error);
        }
        ghost var more := ReadPayload(utf8, types[i + 1..], input, position);
        if more.Ok? {
          assert fields + rest.value == (fields + [f.value]) + more.value;
        }
        fields := fields + [f.value];
        i := i + 1;
      }
      assert fields + [] == fields;
      return if position == |input| then Ok(fields) else Err(TrailingBytes);
    }
  }

  /** The whole of it on the caller's buffers: what was encoded is decoded. */
  method SendAndReceive(utf8: Utf8, objectId: u32, opcode: u16, sequence: u32, fields: seq<Field>, output: array<byte>)
    returns (header: Header, received: seq<Field>)
    requires AllSendable(utf8, fields)
    requires HEADER_SIZE + PayloadLen(fields) <= MAX_MESSAGE_SIZE && HEADER_SIZE + PayloadLen(fields) <= output.Length
    modifies output
    ensures header == HeaderOf(objectId, opcode, sequence, fields) && received == fields
  {
    var sent := EncodeMessage(objectId, opcode, sequence, fields, output);
    MessageRoundTrip(utf8, objectId, opcode, sequence, fields);
    var frame := DecodeFrame(output[..sent.value]);
    var decoder := new Decoder(frame.value.payload);
    var r := decoder.TakePayload(utf8, TypesOf(fields));
    return frame.value.header, r.value;
  }
}
