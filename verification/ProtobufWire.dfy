/** The protobuf wire format as chain_adapter writes it (Protocol Buffers Encoding, "Base 128 Varints"
    and "Message Structure"), with a parser for it. */
module ProtobufWire {
  import opened Options

  type Byte = n: nat | n < 256

  type Bytes = seq<Byte>

  datatype EncodeError = NegativeVarint | UnsupportedMessage | UnsupportedKey | MissingKey | InvalidCoin

  // ---- Varints -----------------------------------------------------------------------------------------

  function Varint(n: nat): (bs: Bytes)
    ensures bs != []
  {
    if n < 128 then [n] else [n % 128 + 128] + Varint(n / 128)
  }

  method EncodeVarint(value: int) returns (r: Result<Bytes, EncodeError>)
    ensures r == if value < 0 then Err(NegativeVarint) else Ok(Varint(value))
  {
    if value < 0 {
      return Err(NegativeVarint);
    }
    var encoded: Bytes := [];
    var rest := value;
    while rest >= 128
      invariant rest >= 0 && Varint(value) == encoded + Varint(rest)
    {
      assert (encoded + [rest % 128 + 128]) + Varint(rest / 128) == encoded + ([rest % 128 + 128] + Varint(rest / 128));
      encoded := encoded + [rest % 128 + 128];
      rest := rest / 128;
    }
    r := Ok(encoded + [rest]);
  }

  /** The varint at the front, and what follows it. */
  function ParseVarint(bs: Bytes): (r: Option<(nat, Bytes)>)
    ensures r.Some? ==> |r.value.1| < |bs|
    decreases |bs|
  {
    if bs == [] then None
    else if bs[0] < 128 then Some((bs[0], bs[1..]))
    else
      var higher := ParseVarint(bs[1..]);
      if higher.None? then None else Some((bs[0] - 128 + 128 * higher.value.0, higher.value.1))
  }

  /** Every natural number is read back from its varint, whatever follows it. */
  lemma {:induction false} VarintReadBack(n: nat, rest: Bytes)
    ensures ParseVarint(Varint(n) + rest) == Some((n, rest))
  {
    var bs := Varint(n) + rest;
    if n < 128 {
      assert bs[1..] == rest;
    } else {
      assert bs[1..] == Varint(n / 128) + rest;
      VarintReadBack(n / 128, rest);
    }
  }

  /** No varint is a prefix of another. */
  lemma VarintPrefixFree(m: nat, n: nat)
    requires Varint(m) <= Varint(n)
    ensures m == n
  {
    var rest := Varint(n)[|Varint(m)|..];
    assert Varint(n) == Varint(m) + rest;
    VarintReadBack(m, rest);
    VarintReadBack(n, []);
    assert Varint(n) + [] == Varint(n);
  }

  // ---- Fields ------------------------------------------------------------------------------------------

  datatype Value = Blob(bytes: Bytes) | Count(n: nat)

  datatype Field = Field(number: nat, value: Value)

  function FieldKey(number: nat, wireType: nat): Bytes {
    Varint(8 * number + wireType)
  }

  function EncodeField(f: Field): (bs: Bytes)
    ensures bs != []
  {
    match f.value
    case Blob(bytes) => FieldKey(f.number, 2) + Varint(|bytes|) + bytes
    case Count(n) => FieldKey(f.number, 0) + Varint(n)
  }

  function EncodeFields(fs: seq<Field>): Bytes {
    if fs == [] then [] else EncodeField(fs[0]) + EncodeFields(fs[1..])
  }

  function ParseField(bs: Bytes): (r: Option<(Field, Bytes)>)
    ensures r.Some? ==> |r.value.1| < |bs|
  {
    var key := ParseVarint(bs);
    if key.None? then None
    else
      var number, wireType, rest := key.value.0 / 8, key.value.0 % 8, key.value.1;
      var arg := ParseVarint(rest);
      if arg.None? then None
      else if wireType == 0 then Some((Field(number, Count(arg.value.0)), arg.value.1))
      else if wireType == 2 && arg.value.0 <= |arg.value.1| then
        Some((Field(number, Blob(arg.value.1[..arg.value.0])), arg.value.1[arg.value.0..]))
      else None
  }

  function ParseFields(bs: Bytes): Option<seq<Field>>
    decreases |bs|
  {
    if bs == [] then Some([])
    else
      var first := ParseField(bs);
      if first.None? then None
      else
        var others := ParseFields(first.value.1);
        if others.None? then None else Some([first.value.0] + others.value)
  }

  lemma KeyReadBack(number: nat, wireType: nat, rest: Bytes)
    requires wireType < 8
    ensures ParseVarint(FieldKey(number, wireType) + rest) == Some((8 * number + wireType, rest))
    ensures (8 * number + wireType) / 8 == number && (8 * number + wireType) % 8 == wireType
  {
    VarintReadBack(8 * number + wireType, rest);
  }

  lemma FieldReadBack(f: Field, rest: Bytes)
    ensures ParseField(EncodeField(f) + rest) == Some((f, rest))
  {
    hide Varint, ParseVarint;
    match f.value
    case Blob(bytes) =>
      var tail := Varint(|bytes|) + (bytes + rest);
      assert EncodeField(f) + rest == FieldKey(f.number, 2) + tail;
      KeyReadBack(f.number, 2, tail);
      VarintReadBack(|bytes|, bytes + rest);
      assert (bytes + rest)[..|bytes|] == bytes && (bytes + rest)[|bytes|..] == rest;
    case Count(n) =>
      assert EncodeField(f) + rest == FieldKey(f.number, 0) + (Varint(n) + rest);
      KeyReadBack(f.number, 0, Varint(n) + rest);
      VarintReadBack(n, rest);
  }

  /** Parsing recovers every field list. */
  lemma {:induction false} FieldsReadBack(fs: seq<Field>)
    ensures ParseFields(EncodeFields(fs)) == Some(fs)
  {
    hide EncodeField, ParseField;
    if fs != [] {
      FieldReadBack(fs[0], EncodeFields(fs[1..]));
      FieldsReadBack(fs[1..]);
      assert fs == [fs[0]] + fs[1..];
    }
  }

  lemma {:induction false} EncodeJoins(fs: seq<Field>, gs: seq<Field>)
    ensures EncodeFields(fs + gs) == EncodeFields(fs) + EncodeFields(gs)
  {
    hide EncodeField;
    if fs == [] {
      assert fs + gs == gs;
    } else {
      assert (fs + gs)[1..] == fs[1..] + gs;
      EncodeJoins(fs[1..], gs);
    }
  }

  // ---- Messages ----------------------------------------------------------------------------------------

  /** A value that is not written: None, the empty string and 0 are one. */
  predicate Empty(v: Value) {
    v == Blob([]) || v == Count(0)
  }

  /** The fields of a message that are written. */
  function Present(slots: seq<Field>): seq<Field> {
    if slots == [] then []
    else if Empty(slots[0].value) then Present(slots[1..])
    else [slots[0]] + Present(slots[1..])
  }

  function EncodeSlot(f: Field): Bytes {
    if Empty(f.value) then [] else EncodeField(f)
  }

  /** A message: its fields' encodings joined in order. */
  function EncodeMessage(slots: seq<Field>): Bytes {
    if slots == [] then [] else EncodeSlot(slots[0]) + EncodeMessage(slots[1..])
  }

  lemma {:induction false} MessageIsPresent(slots: seq<Field>)
    ensures EncodeMessage(slots) == EncodeFields(Present(slots))
  {
    hide EncodeField;
    if slots != [] {
      MessageIsPresent(slots[1..]);
      if !Empty(slots[0].value) {
        assert Present(slots)[1..] == Present(slots[1..]);
      }
    }
  }

  /** The bytes under a field number: those of the last such field, or none. */
  function BlobAt(fs: seq<Field>, number: nat): Bytes {
    if fs == [] then []
    else
      var n := |fs| - 1;
      if fs[n].number == number && fs[n].value.Blob? then fs[n].value.bytes else BlobAt(fs[..n], number)
  }

  function CountAt(fs: seq<Field>, number: nat): nat {
    if fs == [] then 0
    else
      var n := |fs| - 1;
      if fs[n].number == number && fs[n].value.Count? then fs[n].value.n else CountAt(fs[..n], number)
  }

  /** All the bytes under a repeated field number, in order. */
  function BlobsAt(fs: seq<Field>, number: nat): seq<Bytes> {
    if fs == [] then []
    else if fs[0].number == number && fs[0].value.Blob? then [fs[0].value.bytes] + BlobsAt(fs[1..], number)
    else BlobsAt(fs[1..], number)
  }

  predicate DistinctNumbers(slots: seq<Field>) {
    forall i, j :: 0 <= i < j < |slots| ==> slots[i].number != slots[j].number
  }

  lemma {:induction false} PresentFrom(slots: seq<Field>)
    ensures forall f :: f in Present(slots) <==> f in slots && !Empty(f.value)
  {
    if slots != [] {
      PresentFrom(slots[1..]);
    }
  }

  lemma {:induction false} PresentDistinct(slots: seq<Field>)
    requires DistinctNumbers(slots)
    ensures DistinctNumbers(Present(slots))
  {
    if slots != [] {
      PresentDistinct(slots[1..]);
      PresentFrom(slots[1..]);
      var fs := Present(slots);
      if !Empty(slots[0].value) {
        forall j | 0 < j < |fs| ensures fs[j].number != slots[0].number {
          assert fs[j] == Present(slots[1..])[j - 1];
          assert fs[j] in slots[1..];
        }
      }
    }
  }

  lemma {:induction false} FoundAt(fs: seq<Field>, f: Field)
    requires DistinctNumbers(fs) && f in fs
    ensures f.value.Blob? ==> BlobAt(fs, f.number) == f.value.bytes
    ensures f.value.Count? ==> CountAt(fs, f.number) == f.value.n
  {
    var n := |fs| - 1;
    if fs[n] != f {
      assert f in fs[..n];
      FoundAt(fs[..n], f);
      var k :| 0 <= k < n && fs[k] == f;
    }
  }

  lemma {:induction false} NotFoundAt(fs: seq<Field>, number: nat)
    requires forall f :: f in fs ==> f.number != number
    ensures BlobAt(fs, number) == [] && CountAt(fs, number) == 0
  {
    if fs != [] {
      NotFoundAt(fs[..|fs| - 1], number);
    }
  }

  /** From a message with distinct field numbers every field is recovered. */
  lemma SlotRecovered(slots: seq<Field>, k: nat)
    requires DistinctNumbers(slots) && k < |slots|
    ensures
      var parsed := ParseFields(EncodeMessage(slots));
      && parsed == Some(Present(slots))
      && (slots[k].value.Blob? ==> BlobAt(parsed.value, slots[k].number) == slots[k].value.bytes)
      && (slots[k].value.Count? ==> CountAt(parsed.value, slots[k].number) == slots[k].value.n)
  {
    MessageIsPresent(slots);
    FieldsReadBack(Present(slots));
    PresentFrom(slots);
    PresentDistinct(slots);
    hide Present, ParseFields, EncodeFields, EncodeMessage;
    if !Empty(slots[k].value) {
      FoundAt(Present(slots), slots[k]);
    } else {
      forall f | f in Present(slots) ensures f.number != slots[k].number {
        var j :| 0 <= j < |slots| && slots[j] == f;
        assert j != k;
      }
      NotFoundAt(Present(slots), slots[k].number);
    }
  }

  /** fs has the value of every slot. */
  predicate Reads(fs: seq<Field>, slots: seq<Field>) {
    forall k :: 0 <= k < |slots| ==> ReadsAs(fs, slots[k])
  }

  predicate ReadsAs(fs: seq<Field>, f: Field) {
    match f.value
    case Blob(bytes) => BlobAt(fs, f.number) == bytes
    case Count(n) => CountAt(fs, f.number) == n
  }

  lemma MessageReads(slots: seq<Field>)
    requires DistinctNumbers(slots)
    ensures ParseFields(EncodeMessage(slots)).Some? && Reads(ParseFields(EncodeMessage(slots)).value, slots)
  {
    hide EncodeMessage, BlobAt, CountAt, ParseFields;
    MessageIsPresent(slots);
    FieldsReadBack(Present(slots));
    forall k | 0 <= k < |slots| ensures ReadsAs(Present(slots), slots[k]) {
      SlotRecovered(slots, k);
    }
  }

  /** Two messages with the same field layout and bytes have the same field values. */
  lemma SlotsInjective(a: seq<Field>, b: seq<Field>, k: nat)
    requires DistinctNumbers(a) && DistinctNumbers(b) && k < |a| == |b| && a[k].number == b[k].number
    requires a[k].value.Blob? == b[k].value.Blob? && EncodeMessage(a) == EncodeMessage(b)
    ensures a[k] == b[k]
  {
    hide EncodeMessage, BlobAt, CountAt;
    SlotRecovered(a, k);
    SlotRecovered(b, k);
  }
}
