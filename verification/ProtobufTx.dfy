/** The transactions chain_adapter signs: the settlement anchor message, the transaction body, the auth
    info and the sign document, as protobuf messages, and that each is uniquely decodable. */
module ProtobufTx {
  import opened Options
  import opened ProtobufWire

  function Ascii(s: string): (bs: Bytes)
    ensures |bs| == |s|
  {
    seq(|s|, k requires 0 <= k < |s| => (s[k] as nat) % 256)
  }

  const FUTURE_MSG_TYPE_URL: Bytes := Ascii("/clawchain.settlement.v1.MsgAnchorSettlementBatch")
  const PUBKEY_TYPE_URL: Bytes := Ascii("/cosmos.crypto.secp256k1.PubKey")

  // ---- What is encoded ---------------------------------------------------------------------------------

  /** A text field is given as its UTF-8 bytes; None is the same as empty. */
  type Text = Option<Bytes>

  datatype Anchor = Anchor(submitter: Text, batchId: Text, jobId: Text, lane: Text, schema: Text, policy: Text,
                           root: Text, payloadHash: Text, windowsRoot: Text, tasksRoot: Text, rowsRoot: Text,
                           windowEnd: Text, total: Option<int>)

  datatype TypedMessage = TypedMessage(typeUrl: Bytes, value: Anchor)

  /** A public key: its type, and its bytes unless they are missing. */
  datatype PublicKey = PublicKey(typeUrl: Bytes, key: Option<Bytes>)

  datatype Tx = Tx(messages: seq<TypedMessage>, memo: Text, timeout: int, key: PublicKey, sequence: int, mode: int,
                   fee: Bytes, gas: int, chainId: Text, account: int)

  function Plain(t: Text): Bytes {
    if t.Some? then t.value else []
  }

  function Amount(n: Option<int>): int {
    if n.Some? then n.value else 0
  }

  // ---- Messages as field lists -------------------------------------------------------------------------

  function AnchorSlots(m: Anchor): (slots: seq<Field>)
    requires Amount(m.total) >= 0
    ensures |slots| == 13 && forall k :: 0 <= k < 13 ==> slots[k].number == k + 1
  {
    [ Field(1, Blob(Plain(m.submitter))),
      Field(2, Blob(Plain(m.batchId))),
      Field(3, Blob(Plain(m.jobId))),
      Field(4, Blob(Plain(m.lane))),
      Field(5, Blob(Plain(m.schema))),
      Field(6, Blob(Plain(m.policy))),
      Field(7, Blob(Plain(m.root))),
      Field(8, Blob(Plain(m.payloadHash))),
      Field(9, Blob(Plain(m.windowsRoot))),
      Field(10, Blob(Plain(m.tasksRoot))),
      Field(11, Blob(Plain(m.rowsRoot))),
      Field(12, Blob(Plain(m.windowEnd))),
      Field(13, Count(Amount(m.total))) ]
  }

  function EncodeAnchor(m: Anchor): Result<Bytes, EncodeError> {
    if Amount(m.total) < 0 then Err(NegativeVarint) else Ok(EncodeMessage(AnchorSlots(m)))
  }

  function AnySlots(typeUrl: Bytes, value: Bytes): seq<Field> {
    [Field(1, Blob(typeUrl)), Field(2, Blob(value))]
  }

  function EncodeAny(typeUrl: Bytes, value: Bytes): Bytes {
    EncodeMessage(AnySlots(typeUrl, value))
  }

  function EncodeTypedMessage(m: TypedMessage): Result<Bytes, EncodeError> {
    if m.typeUrl != FUTURE_MSG_TYPE_URL then Err(UnsupportedMessage)
    else
      var value := EncodeAnchor(m.value);
      if value.Err? then value else Ok(EncodeAny(m.typeUrl, value.value))
  }

  function EncodeTypedMessages(ms: seq<TypedMessage>): Result<seq<Bytes>, EncodeError> {
    if ms == [] then Ok([])
    else
      var first := EncodeTypedMessage(ms[0]);
      if first.Err? then Err(first.error)
      else
        var others := EncodeTypedMessages(ms[1..]);
        if others.Err? then others else Ok([first.value] + others.value)
  }

  function Repeated(number: nat, blobs: seq<Bytes>): (slots: seq<Field>)
    ensures |slots| == |blobs|
  {
    seq(|blobs|, k requires 0 <= k < |blobs| => Field(number, Blob(blobs[k])))
  }

  function BodySlots(anys: seq<Bytes>, memo: Text, timeout: nat): seq<Field> {
    Repeated(1, anys) + [Field(2, Blob(Plain(memo))), Field(3, Count(timeout))]
  }

  function EncodeBody(ms: seq<TypedMessage>, memo: Text, timeout: int): Result<Bytes, EncodeError> {
    var anys := EncodeTypedMessages(ms);
    if anys.Err? then Err(anys.error)
    else if timeout < 0 then Err(NegativeVarint)
    else Ok(EncodeMessage(BodySlots(anys.value, memo, timeout)))
  }

  function EncodeModeInfo(mode: int): Result<Bytes, EncodeError> {
    if mode < 0 then Err(NegativeVarint)
    else Ok(EncodeMessage([Field(1, Blob(EncodeField(Field(1, Count(mode)))))]))
  }

  predicate IsDigit(b: Byte) {
    48 <= b <= 57
  }

  predicate IsLetter(b: Byte) {
    65 <= b <= 90 || 97 <= b <= 122
  }

  /** Letters, digits and the four marks / : . _ - of a denomination. */
  predicate InDenom(b: Byte) {
    IsLetter(b) || IsDigit(b) || b == 47 || b == 58 || b == 46 || b == 95 || b == 45
  }

  predicate IsSpace(b: Byte) {
    9 <= b <= 13 || 28 <= b <= 32
  }

  function Strip(s: Bytes): Bytes {
    if s == [] then s
    else if IsSpace(s[0]) then Strip(s[1..])
    else if IsSpace(s[|s| - 1]) then Strip(s[..|s| - 1])
    else s
  }

  function Digits(s: Bytes): (n: nat)
    ensures n <= |s|
  {
    if s == [] || !IsDigit(s[0]) then 0 else 1 + Digits(s[1..])
  }

  /** An amount of digits and a denomination that starts with a letter, spaces around them aside. */
  function ParseCoin(coin: Bytes): Result<(Bytes, Bytes), EncodeError> {
    var s := Strip(coin);
    var n := Digits(s);
    if 0 < n < |s| && IsLetter(s[n]) && forall k :: n <= k < |s| ==> InDenom(s[k])
    then Ok((s[..n], s[n..])) else Err(InvalidCoin)
  }

  function FeeSlots(amount: Bytes, denom: Bytes, gas: nat): seq<Field> {
    [Field(1, Blob(EncodeMessage(CoinSlots(amount, denom)))), Field(2, Count(gas))]
  }

  function CoinSlots(amount: Bytes, denom: Bytes): seq<Field> {
    [Field(1, Blob(denom)), Field(2, Blob(amount))]
  }

  function EncodeFee(fee: Bytes, gas: int): Result<Bytes, EncodeError> {
    var coin := ParseCoin(fee);
    if coin.Err? then Err(coin.error)
    else if gas < 0 then Err(NegativeVarint)
    else Ok(EncodeMessage(FeeSlots(coin.value.0, coin.value.1, gas)))
  }

  function KeyBytes(key: Bytes): Bytes {
    EncodeMessage([Field(1, Blob(key))])
  }

  function SignerSlots(key: Bytes, mode: Bytes, sequence: nat): seq<Field> {
    [Field(1, Blob(EncodeAny(PUBKEY_TYPE_URL, KeyBytes(key)))), Field(2, Blob(mode)), Field(3, Count(sequence))]
  }

  function EncodeSigner(key: PublicKey, sequence: int, mode: int): Result<Bytes, EncodeError> {
    if key.typeUrl != PUBKEY_TYPE_URL then Err(UnsupportedKey)
    else if key.key.None? then Err(MissingKey)
    else
      var modeInfo := EncodeModeInfo(mode);
      if modeInfo.Err? then modeInfo
      else if sequence < 0 then Err(NegativeVarint)
      else Ok(EncodeMessage(SignerSlots(key.key.value, modeInfo.value, sequence)))
  }

  function AuthSlots(signer: Bytes, fee: Bytes): seq<Field> {
    [Field(1, Blob(signer)), Field(2, Blob(fee))]
  }

  function EncodeAuthInfo(key: PublicKey, sequence: int, mode: int, fee: Bytes, gas: int): Result<Bytes, EncodeError> {
    var signer := EncodeSigner(key, sequence, mode);
    if signer.Err? then signer
    else
      var f := EncodeFee(fee, gas);
      if f.Err? then f else Ok(EncodeMessage(AuthSlots(signer.value, f.value)))
  }

  function SignDocSlots(body: Bytes, auth: Bytes, chainId: Text, account: nat): seq<Field> {
    [Field(1, Blob(body)), Field(2, Blob(auth)), Field(3, Blob(Plain(chainId))), Field(4, Count(account))]
  }

  /** The bytes that are signed for a transaction. */
  function EncodeSignDoc(tx: Tx): Result<Bytes, EncodeError> {
    var body := EncodeBody(tx.messages, tx.memo, tx.timeout);
    if body.Err? then body
    else
      var auth := EncodeAuthInfo(tx.key, tx.sequence, tx.mode, tx.fee, tx.gas);
      if auth.Err? then auth
      else if tx.account < 0 then Err(NegativeVarint)
      else Ok(EncodeMessage(SignDocSlots(body.value, auth.value, tx.chainId, tx.account)))
  }

  /** The unsigned transaction. */
  function EncodeTxRaw(body: Bytes, auth: Bytes): Bytes {
    EncodeMessage([Field(1, Blob(body)), Field(2, Blob(auth))])
  }

  // ---- Equality up to missing values -------------------------------------------------------------------

  predicate SameAnchor(a: Anchor, b: Anchor) {
    && Plain(a.submitter) == Plain(b.submitter) && Plain(a.batchId) == Plain(b.batchId)
        && Plain(a.jobId) == Plain(b.jobId)
    && Plain(a.lane) == Plain(b.lane) && Plain(a.schema) == Plain(b.schema) && Plain(a.policy) == Plain(b.policy)
    && Plain(a.root) == Plain(b.root) && Plain(a.payloadHash) == Plain(b.payloadHash)
    && Plain(a.windowsRoot) == Plain(b.windowsRoot) && Plain(a.tasksRoot) == Plain(b.tasksRoot)
    && Plain(a.rowsRoot) == Plain(b.rowsRoot) && Plain(a.windowEnd) == Plain(b.windowEnd)
    && Amount(a.total) == Amount(b.total)
  }

  predicate SameMessages(a: seq<TypedMessage>, b: seq<TypedMessage>) {
    |a| == |b| && forall k :: 0 <= k < |a| ==> a[k].typeUrl == b[k].typeUrl && SameAnchor(a[k].value, b[k].value)
  }

  /** A decoder of anchor messages, field number by field number. */
  function AnchorIn(fs: seq<Field>): Anchor {
    Anchor(Some(BlobAt(fs, 1)), Some(BlobAt(fs, 2)), Some(BlobAt(fs, 3)), Some(BlobAt(fs, 4)), Some(BlobAt(fs, 5)),
           Some(BlobAt(fs, 6)), Some(BlobAt(fs, 7)), Some(BlobAt(fs, 8)), Some(BlobAt(fs, 9)), Some(BlobAt(fs, 10)),
           Some(BlobAt(fs, 11)), Some(BlobAt(fs, 12)), Some(CountAt(fs, 13)))
  }

  function DecodeAnchor(bs: Bytes): Option<Anchor> {
    var fs := ParseFields(bs);
    if fs.None? then None else Some(AnchorIn(fs.value))
  }

  lemma ReadsAll(m: Anchor, fs: seq<Field>)
    requires Amount(m.total) >= 0 && Reads(fs, AnchorSlots(m))
    ensures ReadsAs(fs, Field(1, Blob(Plain(m.submitter)))) && ReadsAs(fs, Field(2, Blob(Plain(m.batchId))))
    ensures ReadsAs(fs, Field(3, Blob(Plain(m.jobId)))) && ReadsAs(fs, Field(4, Blob(Plain(m.lane))))
    ensures ReadsAs(fs, Field(5, Blob(Plain(m.schema)))) && ReadsAs(fs, Field(6, Blob(Plain(m.policy))))
    ensures ReadsAs(fs, Field(7, Blob(Plain(m.root)))) && ReadsAs(fs, Field(8, Blob(Plain(m.payloadHash))))
    ensures ReadsAs(fs, Field(9, Blob(Plain(m.windowsRoot)))) && ReadsAs(fs, Field(10, Blob(Plain(m.tasksRoot))))
    ensures ReadsAs(fs, Field(11, Blob(Plain(m.rowsRoot)))) && ReadsAs(fs, Field(12, Blob(Plain(m.windowEnd))))
    ensures ReadsAs(fs, Field(13, Count(Amount(m.total))))
  {
    hide ReadsAs, Plain, Amount;
    var slots := AnchorSlots(m);
    assert ReadsAs(fs, slots[0]) && ReadsAs(fs, slots[1]) && ReadsAs(fs, slots[2]) && ReadsAs(fs, slots[3]);
    assert ReadsAs(fs, slots[4]) && ReadsAs(fs, slots[5]) && ReadsAs(fs, slots[6]) && ReadsAs(fs, slots[7]);
    assert ReadsAs(fs, slots[8]) && ReadsAs(fs, slots[9]) && ReadsAs(fs, slots[10]) && ReadsAs(fs, slots[11]);
    assert ReadsAs(fs, slots[12]);
  }

  /** Decoding an anchor message recovers each of its thirteen fields. */
  lemma AnchorReadBack(m: Anchor)
    requires Amount(m.total) >= 0
    ensures
      var decoded := DecodeAnchor(EncodeAnchor(m).value);
      decoded.Some? && SameAnchor(decoded.value, m)
  {
    hide EncodeMessage, ParseFields, AnchorIn, SameAnchor, Reads, AnchorSlots;
    AnchorNumbers(m);
    MessageReads(AnchorSlots(m));
    ReadsSame(m, ParseFields(EncodeMessage(AnchorSlots(m))).value);
  }

  lemma ReadsSame(m: Anchor, fs: seq<Field>)
    requires Amount(m.total) >= 0 && Reads(fs, AnchorSlots(m))
    ensures SameAnchor(AnchorIn(fs), m)
  {
    hide BlobAt, CountAt, Reads, AnchorSlots;
    ReadsAll(m, fs);
  }

  lemma AnchorNumbers(m: Anchor)
    requires Amount(m.total) >= 0
    ensures DistinctNumbers(AnchorSlots(m))
  {
    hide AnchorSlots;
  }

  // ---- Each message is determined by its bytes ---------------------------------------------------------

  /** Two messages of one layout with the same bytes are the same. */
  lemma SlotsAgree(a: seq<Field>, b: seq<Field>)
    requires DistinctNumbers(a) && DistinctNumbers(b) && |a| == |b| && EncodeMessage(a) == EncodeMessage(b)
    requires forall k :: 0 <= k < |a| ==> a[k].number == b[k].number && a[k].value.Blob? == b[k].value.Blob?
    ensures a == b
  {
    hide EncodeMessage;
    forall k | 0 <= k < |a| ensures a[k] == b[k] {
      SlotsInjective(a, b, k);
    }
  }

  lemma AnchorInjective(a: Anchor, b: Anchor)
    requires EncodeAnchor(a).Ok? && EncodeAnchor(a) == EncodeAnchor(b)
    ensures SameAnchor(a, b)
  {
    AnchorReadBack(a);
    AnchorReadBack(b);
    hide EncodeAnchor, DecodeAnchor;
  }

  lemma AnyInjective(u: Bytes, v: Bytes, u': Bytes, v': Bytes)
    requires EncodeAny(u, v) == EncodeAny(u', v')
    ensures u == u' && v == v'
  {
    hide EncodeMessage;
    SlotsAgree(AnySlots(u, v), AnySlots(u', v'));
    assert AnySlots(u, v)[0] == Field(1, Blob(u)) && AnySlots(u, v)[1] == Field(2, Blob(v));
    assert AnySlots(u', v')[0] == Field(1, Blob(u')) && AnySlots(u', v')[1] == Field(2, Blob(v'));
  }

  lemma AnyNonempty(u: Bytes, v: Bytes)
    requires u != []
    ensures EncodeAny(u, v) != []
  {
    assert EncodeSlot(AnySlots(u, v)[0]) != [];
    hide EncodeField;
  }

  lemma TypedInjective(a: TypedMessage, b: TypedMessage)
    requires EncodeTypedMessage(a).Ok? && EncodeTypedMessage(a) == EncodeTypedMessage(b)
    ensures a.typeUrl == b.typeUrl && SameAnchor(a.value, b.value)
  {
    hide EncodeAnchor, EncodeAny, SameAnchor;
    AnyInjective(a.typeUrl, EncodeAnchor(a.value).value, b.typeUrl, EncodeAnchor(b.value).value);
    AnchorInjective(a.value, b.value);
  }

  lemma {:induction false} MessagesInjective(a: seq<TypedMessage>, b: seq<TypedMessage>)
    requires EncodeTypedMessages(a).Ok? && EncodeTypedMessages(a) == EncodeTypedMessages(b)
    ensures SameMessages(a, b)
  {
    hide EncodeTypedMessage, SameAnchor;
    EncodedCount(a);
    EncodedCount(b);
    if a != [] {
      var xs, ys := EncodeTypedMessages(a).value, EncodeTypedMessages(b).value;
      assert xs[0] == EncodeTypedMessage(a[0]).value && ys[0] == EncodeTypedMessage(b[0]).value;
      assert xs[1..] == EncodeTypedMessages(a[1..]).value && ys[1..] == EncodeTypedMessages(b[1..]).value;
      TypedInjective(a[0], b[0]);
      MessagesInjective(a[1..], b[1..]);
      forall k | 0 < k < |a| ensures a[k].typeUrl == b[k].typeUrl && SameAnchor(a[k].value, b[k].value) {
        assert a[k] == a[1..][k - 1] && b[k] == b[1..][k - 1];
      }
    }
  }

  lemma {:induction false} EncodedCount(ms: seq<TypedMessage>)
    requires EncodeTypedMessages(ms).Ok?
    ensures |EncodeTypedMessages(ms).value| == |ms|
    ensures forall k :: 0 <= k < |ms| ==> EncodeTypedMessages(ms).value[k] != []
  {
    hide EncodeAnchor, EncodeAny;
    if ms != [] {
      EncodedCount(ms[1..]);
      AnyNonempty(ms[0].typeUrl, EncodeAnchor(ms[0].value).value);
      var bs := EncodeTypedMessages(ms).value;
      assert bs[1..] == EncodeTypedMessages(ms[1..]).value;
      forall k | 0 < k < |ms| ensures bs[k] != [] {
        assert bs[k] == bs[1..][k - 1];
      }
    }
  }

  // ---- The body: a repeated field ----------------------------------------------------------------------

  lemma {:induction false} PresentRepeated(number: nat, blobs: seq<Bytes>, slots: seq<Field>)
    requires forall k :: 0 <= k < |blobs| ==> blobs[k] != []
    ensures Present(Repeated(number, blobs) + slots) == Repeated(number, blobs) + Present(slots)
  {
    if blobs == [] {
      assert Repeated(number, blobs) + slots == slots;
    } else {
      var all := Repeated(number, blobs) + slots;
      assert Repeated(number, blobs) == [Field(number, Blob(blobs[0]))] + Repeated(number, blobs[1..]);
      assert all[1..] == Repeated(number, blobs[1..]) + slots;
      PresentRepeated(number, blobs[1..], slots);
    }
  }

  lemma {:induction false} BlobsRepeated(number: nat, blobs: seq<Bytes>, fs: seq<Field>)
    requires forall f :: f in fs ==> f.number != number
    ensures BlobsAt(Repeated(number, blobs) + fs, number) == blobs
  {
    if blobs == [] {
      assert Repeated(number, blobs) + fs == fs;
      NoBlobs(number, fs);
    } else {
      var all := Repeated(number, blobs) + fs;
      assert all[0] == Field(number, Blob(blobs[0])) && all[1..] == Repeated(number, blobs[1..]) + fs;
      BlobsRepeated(number, blobs[1..], fs);
    }
  }

  lemma {:induction false} NoBlobs(number: nat, fs: seq<Field>)
    requires forall f :: f in fs ==> f.number != number
    ensures BlobsAt(fs, number) == []
  {
    if fs != [] {
      NoBlobs(number, fs[1..]);
    }
  }

  lemma {:induction false} FoundAfter(a: seq<Field>, b: seq<Field>, number: nat)
    requires forall f :: f in a ==> f.number != number
    ensures BlobAt(a + b, number) == BlobAt(b, number) && CountAt(a + b, number) == CountAt(b, number)
  {
    if b == [] {
      assert a + b == a;
      NotFoundAt(a, number);
    } else {
      var n := |b| - 1;
      assert (a + b)[..|a + b| - 1] == a + b[..n];
      FoundAfter(a, b[..n], number);
    }
  }

  /** Parsing a transaction body recovers every message, in order, the memo and the timeout. */
  lemma BodyReadBack(anys: seq<Bytes>, memo: Text, timeout: nat)
    requires forall k :: 0 <= k < |anys| ==> anys[k] != []
    ensures
      var parsed := ParseFields(EncodeMessage(BodySlots(anys, memo, timeout)));
      parsed.Some? && BlobsAt(parsed.value, 1) == anys && BlobAt(parsed.value, 2) == Plain(memo)
        && CountAt(parsed.value, 3) == timeout
  {
    hide EncodeMessage, ParseFields, EncodeFields;
    var slots := BodySlots(anys, memo, timeout);
    var tail := [Field(2, Blob(Plain(memo))), Field(3, Count(timeout))];
    MessageIsPresent(slots);
    FieldsReadBack(Present(slots));
    PresentRepeated(1, anys, tail);
    BodyTail(memo, timeout, tail);
    hide Present, Repeated;
    BlobsRepeated(1, anys, Present(tail));
    RepeatedNumbers(1, anys);
    FoundAfter(Repeated(1, anys), Present(tail), 2);
    FoundAfter(Repeated(1, anys), Present(tail), 3);
  }

  lemma RepeatedNumbers(number: nat, blobs: seq<Bytes>)
    ensures forall f :: f in Repeated(number, blobs) ==> f.number == number
  {
  }

  lemma BodyTail(memo: Text, timeout: nat, tail: seq<Field>)
    requires tail == [Field(2, Blob(Plain(memo))), Field(3, Count(timeout))]
    ensures BlobAt(Present(tail), 2) == Plain(memo) && CountAt(Present(tail), 3) == timeout
    ensures forall f :: f in Present(tail) ==> f.number != 1
  {
    hide Present, BlobAt, CountAt, Plain;
    PresentFrom(tail);
    SlotRecovered(tail, 0);
    SlotRecovered(tail, 1);
    assert tail[0] == Field(2, Blob(Plain(memo))) && tail[1] == Field(3, Count(timeout));
    MessageIsPresent(tail);
    FieldsReadBack(Present(tail));
  }

  lemma BodyInjective(ms: seq<TypedMessage>, memo: Text, timeout: int, ms': seq<TypedMessage>, memo': Text,
                      timeout': int)
    requires EncodeBody(ms, memo, timeout).Ok? && EncodeBody(ms, memo, timeout) == EncodeBody(ms', memo', timeout')
    ensures SameMessages(ms, ms') && Plain(memo) == Plain(memo') && timeout == timeout'
  {
    hide EncodeMessage, ParseFields, BlobsAt, BlobAt, CountAt, EncodeTypedMessages, SameMessages;
    EncodedCount(ms);
    EncodedCount(ms');
    BodyReadBack(EncodeTypedMessages(ms).value, memo, timeout);
    BodyReadBack(EncodeTypedMessages(ms').value, memo', timeout');
    MessagesInjective(ms, ms');
  }

  // ---- The auth info -----------------------------------------------------------------------------------

  lemma ModeInjective(mode: int, mode': int)
    requires EncodeModeInfo(mode).Ok? && EncodeModeInfo(mode) == EncodeModeInfo(mode')
    ensures mode == mode'
  {
    hide EncodeMessage, EncodeField;
    var a, b := Field(1, Count(mode)), Field(1, Count(mode'));
    SlotsAgree([Field(1, Blob(EncodeField(a)))], [Field(1, Blob(EncodeField(b)))]);
    FieldReadBack(a, []);
    FieldReadBack(b, []);
    assert EncodeField(a) + [] == EncodeField(a) && EncodeField(b) + [] == EncodeField(b);
  }

  lemma SignerInjective(key: PublicKey, sequence: int, mode: int, key': PublicKey, sequence': int, mode': int)
    requires EncodeSigner(key, sequence, mode).Ok?
    requires EncodeSigner(key, sequence, mode) == EncodeSigner(key', sequence', mode')
    ensures key == key' && sequence == sequence' && mode == mode'
  {
    hide EncodeMessage, EncodeModeInfo, EncodeAny, KeyBytes;
    var m, m' := EncodeModeInfo(mode).value, EncodeModeInfo(mode').value;
    var a, b := SignerSlots(key.key.value, m, sequence), SignerSlots(key'.key.value, m', sequence');
    SlotsAgree(a, b);
    assert a[0] == b[0] && a[1] == b[1] && a[2] == b[2];
    AnyInjective(PUBKEY_TYPE_URL, KeyBytes(key.key.value), PUBKEY_TYPE_URL, KeyBytes(key'.key.value));
    KeyInjective(key.key.value, key'.key.value);
    ModeInjective(mode, mode');
  }

  lemma KeyInjective(key: Bytes, key': Bytes)
    requires KeyBytes(key) == KeyBytes(key')
    ensures key == key'
  {
    hide EncodeMessage;
    SlotsAgree([Field(1, Blob(key))], [Field(1, Blob(key'))]);
  }

  lemma FeeInjective(fee: Bytes, gas: int, fee': Bytes, gas': int)
    requires EncodeFee(fee, gas).Ok? && EncodeFee(fee, gas) == EncodeFee(fee', gas')
    ensures ParseCoin(fee) == ParseCoin(fee') && Strip(fee) == Strip(fee') && gas == gas'
  {
    hide EncodeMessage, ParseCoin;
    var c, c' := ParseCoin(fee).value, ParseCoin(fee').value;
    var a, b := FeeSlots(c.0, c.1, gas), FeeSlots(c'.0, c'.1, gas');
    SlotsAgree(a, b);
    assert a[0] == b[0] && a[1] == b[1];
    var x, y := CoinSlots(c.0, c.1), CoinSlots(c'.0, c'.1);
    SlotsAgree(x, y);
    assert x[0] == y[0] && x[1] == y[1];
    CoinWhole(fee);
    CoinWhole(fee');
  }

  /** The two parts of a coin make up the coin. */
  lemma CoinWhole(coin: Bytes)
    requires ParseCoin(coin).Ok?
    ensures ParseCoin(coin).value.0 + ParseCoin(coin).value.1 == Strip(coin)
  {
    hide Strip, Digits;
  }

  lemma AuthInjective(key: PublicKey, sequence: int, mode: int, fee: Bytes, gas: int,
                      key': PublicKey, sequence': int, mode': int, fee': Bytes, gas': int)
    requires EncodeAuthInfo(key, sequence, mode, fee, gas).Ok?
    requires EncodeAuthInfo(key, sequence, mode, fee, gas) == EncodeAuthInfo(key', sequence', mode', fee', gas')
    ensures key == key' && sequence == sequence' && mode == mode' && Strip(fee) == Strip(fee') && gas == gas'
  {
    hide EncodeMessage, EncodeSigner, EncodeFee, Strip;
    var s, s' := EncodeSigner(key, sequence, mode).value, EncodeSigner(key', sequence', mode').value;
    var f, f' := EncodeFee(fee, gas).value, EncodeFee(fee', gas').value;
    SlotsAgree(AuthSlots(s, f), AuthSlots(s', f'));
    assert AuthSlots(s, f)[0] == AuthSlots(s', f')[0] && AuthSlots(s, f)[1] == AuthSlots(s', f')[1];
    SignerInjective(key, sequence, mode, key', sequence', mode');
    FeeInjective(fee, gas, fee', gas');
  }

  // ---- The sign document -------------------------------------------------------------------------------

  /** Two transactions mean the same: every part is equal, None, empty and 0 being one, and spaces around
      the fee aside. */
  predicate SameTx(a: Tx, b: Tx) {
    && SameMessages(a.messages, b.messages) && Plain(a.memo) == Plain(b.memo) && a.timeout == b.timeout
    && a.key == b.key && a.sequence == b.sequence && a.mode == b.mode && Strip(a.fee) == Strip(b.fee) && a.gas == b.gas
    && Plain(a.chainId) == Plain(b.chainId) && a.account == b.account
  }

  /** What is signed determines the transaction: two transactions with one sign document are the same. */
  lemma SignDocInjective(a: Tx, b: Tx)
    requires EncodeSignDoc(a).Ok? && EncodeSignDoc(a) == EncodeSignDoc(b)
    ensures SameTx(a, b)
  {
    hide EncodeMessage, EncodeBody, EncodeAuthInfo, Strip, SameMessages, Plain;
    var body, body' := EncodeBody(a.messages, a.memo, a.timeout).value, EncodeBody(b.messages, b.memo, b.timeout).value;
    var auth := EncodeAuthInfo(a.key, a.sequence, a.mode, a.fee, a.gas).value;
    var auth' := EncodeAuthInfo(b.key, b.sequence, b.mode, b.fee, b.gas).value;
    var x, y := SignDocSlots(body, auth, a.chainId, a.account), SignDocSlots(body', auth', b.chainId, b.account);
    SlotsAgree(x, y);
    assert x[0] == y[0] && x[1] == y[1] && x[2] == y[2] && x[3] == y[3];
    BodyInjective(a.messages, a.memo, a.timeout, b.messages, b.memo, b.timeout);
    AuthInjective(a.key, a.sequence, a.mode, a.fee, a.gas, b.key, b.sequence, b.mode, b.fee, b.gas);
  }

  /** And transactions that mean the same have one sign document. */
  lemma SameTxSameSignDoc(a: Tx, b: Tx)
    requires SameTx(a, b)
    ensures EncodeSignDoc(a) == EncodeSignDoc(b)
  {
    hide EncodeMessage, EncodeAuthInfo, EncodeTypedMessages;
    SameMessagesSameBytes(a.messages, b.messages);
    SameFee(a.fee, b.fee);
    SameAuth(a, b);
  }

  lemma {:induction false} SameMessagesSameBytes(a: seq<TypedMessage>, b: seq<TypedMessage>)
    requires SameMessages(a, b)
    ensures EncodeTypedMessages(a) == EncodeTypedMessages(b)
  {
    hide EncodeMessage, EncodeAny;
    if a != [] {
      SameAnchorSameSlots(a[0].value, b[0].value);
      SameMessagesSameBytes(a[1..], b[1..]);
    }
  }

  lemma SameAnchorSameSlots(a: Anchor, b: Anchor)
    requires SameAnchor(a, b)
    ensures EncodeAnchor(a) == EncodeAnchor(b)
  {
    hide EncodeMessage;
    if Amount(a.total) >= 0 {
      assert AnchorSlots(a) == AnchorSlots(b);
    }
  }

  lemma SameFee(fee: Bytes, fee': Bytes)
    requires Strip(fee) == Strip(fee')
    ensures ParseCoin(fee) == ParseCoin(fee')
  {
    hide Strip, Digits;
  }

  lemma SameAuth(a: Tx, b: Tx)
    requires SameTx(a, b) && ParseCoin(a.fee) == ParseCoin(b.fee)
    ensures EncodeAuthInfo(a.key, a.sequence, a.mode, a.fee, a.gas)
              == EncodeAuthInfo(b.key, b.sequence, b.mode, b.fee, b.gas)
  {
    hide EncodeMessage, ParseCoin, SameMessages, Strip, EncodeSigner;
  }

  /** The unsigned transaction determines its two parts. */
  lemma TxRawInjective(body: Bytes, auth: Bytes, body': Bytes, auth': Bytes)
    requires EncodeTxRaw(body, auth) == EncodeTxRaw(body', auth')
    ensures body == body' && auth == auth'
  {
    hide EncodeMessage;
    var a, b := [Field(1, Blob(body)), Field(2, Blob(auth))], [Field(1, Blob(body')), Field(2, Blob(auth'))];
    SlotsAgree(a, b);
    assert a[0] == b[0] && a[1] == b[1];
  }
}
