/** Reading the transactions chain_adapter signs back by field number: what is found under each number of the sign
    document, the auth info, the signer, the fee and the messages, and that fields come in ascending order. */
module ProtobufReadBack {
  import opened Options
  import opened ProtobufWire
  import opened ProtobufTx

  predicate Ascending(fs: seq<Field>) {
    forall i, j :: 0 <= i < j < |fs| ==> fs[i].number <= fs[j].number
  }

  /** The fields of an encoded message; none if the bytes are not one. */
  function FieldsIn(bs: Bytes): seq<Field> {
    var fs := ParseFields(bs);
    if fs.Some? then fs.value else []
  }

  /** Nothing is written for an empty text or a zero. */
  predicate NoneEmpty(fs: seq<Field>) {
    forall k :: 0 <= k < |fs| ==> fs[k].value != Blob([]) && fs[k].value != Count(0)
  }

  /** The bytes are a message whose fields come in ascending order, none of them empty. */
  predicate WellFormed(bs: Bytes) {
    ParseFields(bs).Some? && Ascending(ParseFields(bs).value) && NoneEmpty(ParseFields(bs).value)
  }

  lemma PresentNonempty(slots: seq<Field>)
    ensures NoneEmpty(Present(slots))
  {
    PresentFrom(slots);
    forall k | 0 <= k < |Present(slots)|
      ensures Present(slots)[k].value != Blob([]) && Present(slots)[k].value != Count(0)
    {
      assert Present(slots)[k] in Present(slots);
    }
  }

  lemma {:induction false} PresentAscends(slots: seq<Field>)
    requires Ascending(slots)
    ensures Ascending(Present(slots))
  {
    if slots != [] {
      PresentAscends(slots[1..]);
      PresentFrom(slots[1..]);
      var fs := Present(slots);
      if !Empty(slots[0].value) {
        forall j | 0 < j < |fs| ensures slots[0].number <= fs[j].number {
          assert fs[j] == Present(slots[1..])[j - 1];
          assert fs[j] in slots[1..];
        }
      }
    }
  }

  /** A message whose fields have ascending numbers, each but once, reads back field by field. */
  lemma ReadsBack(slots: seq<Field>)
    requires Ascending(slots) && DistinctNumbers(slots)
    ensures WellFormed(EncodeMessage(slots)) && Reads(FieldsIn(EncodeMessage(slots)), slots)
  {
    hide EncodeMessage, ParseFields, ReadsAs, Present;
    MessageReads(slots);
    MessageIsPresent(slots);
    FieldsReadBack(Present(slots));
    PresentAscends(slots);
    PresentNonempty(slots);
  }

  lemma TwoRead(bs: Bytes, a: Field, b: Field)
    requires a.number < b.number && bs == EncodeMessage([a, b])
    ensures WellFormed(bs) && ReadsAs(FieldsIn(bs), a) && ReadsAs(FieldsIn(bs), b)
  {
    hide EncodeMessage, WellFormed, ReadsAs, FieldsIn;
    var slots := [a, b];
    ReadsBack(slots);
    assert slots[0] == a && slots[1] == b;
  }

  // ---- Coins -------------------------------------------------------------------------------------------

  /** Tab to carriage return, the four separators, and the space. */
  predicate IsBlank(b: Byte) {
    9 <= b <= 13 || 28 <= b <= 32
  }

  lemma BlankIs(c: Byte)
    ensures IsBlank(c) == IsSpace(c)
  {
  }

  /** Stripping takes blanks off both ends, and leaves none there. */
  lemma {:induction false} StripTakesBlanks(s: Bytes) returns (front: Bytes, back: Bytes)
    ensures s == front + Strip(s) + back
    ensures forall c :: c in front || c in back ==> IsBlank(c)
    ensures Strip(s) != [] ==> !IsBlank(Strip(s)[0]) && !IsBlank(Strip(s)[|Strip(s)| - 1])
  {
    hide IsSpace, IsBlank;
    if s == [] {
      front, back := [], [];
    } else if IsSpace(s[0]) {
      BlankIs(s[0]);
      front, back := StripTakesBlanks(s[1..]);
      assert s == [s[0]] + s[1..];
      front := [s[0]] + front;
    } else if IsSpace(s[|s| - 1]) {
      BlankIs(s[|s| - 1]);
      front, back := StripTakesBlanks(s[..|s| - 1]);
      assert s == s[..|s| - 1] + [s[|s| - 1]];
      back := back + [s[|s| - 1]];
    } else {
      BlankIs(s[0]);
      BlankIs(s[|s| - 1]);
      front, back := [], [];
    }
  }

  /** An amount, digits 0 to 9, in front of a denomination: a letter, then letters, digits or / : . _ -. */
  predicate IsCoin(amount: Bytes, denom: Bytes) {
    && amount != [] && (forall k :: 0 <= k < |amount| ==> 48 <= amount[k] <= 57)
    && denom != [] && (65 <= denom[0] <= 90 || 97 <= denom[0] <= 122)
    && forall k :: 0 <= k < |denom| ==>
         65 <= denom[k] <= 90 || 97 <= denom[k] <= 122 || 47 <= denom[k] <= 58 || denom[k] in {45, 46, 95}
  }

  lemma {:induction false} DigitsAre(s: Bytes)
    ensures forall k :: 0 <= k < Digits(s) ==> IsDigit(s[k])
    ensures Digits(s) < |s| ==> !IsDigit(s[Digits(s)])
  {
    if s != [] && IsDigit(s[0]) {
      DigitsAre(s[1..]);
      forall k | 0 < k < Digits(s) ensures IsDigit(s[k]) {
        assert s[k] == s[1..][k - 1];
      }
    }
  }

  /** A coin is accepted exactly if, blanks around it aside, it is an amount in front of a denomination, and these
      are what it is taken apart into. */
  lemma CoinParts(coin: Bytes)
    ensures ParseCoin(coin).Ok? == exists amount, denom :: IsCoin(amount, denom) && Strip(coin) == amount + denom
    ensures ParseCoin(coin).Ok? ==>
              IsCoin(ParseCoin(coin).value.0, ParseCoin(coin).value.1)
              && Strip(coin) == ParseCoin(coin).value.0 + ParseCoin(coin).value.1
  {
    hide Strip, Digits;
    var s := Strip(coin);
    DigitsAre(s);
    if ParseCoin(coin).Ok? {
      CoinWhole(coin);
      CutIsCoin(s, Digits(s));
    }
    if amount, denom :| IsCoin(amount, denom) && s == amount + denom {
      CoinCut(amount, denom);
    }
  }

  lemma CutIsCoin(s: Bytes, n: nat)
    requires 0 < n < |s| && IsLetter(s[n]) && forall k :: n <= k < |s| ==> InDenom(s[k])
    requires forall k :: 0 <= k < n ==> IsDigit(s[k])
    ensures IsCoin(s[..n], s[n..])
  {
  }

  lemma CoinCut(amount: Bytes, denom: Bytes)
    requires IsCoin(amount, denom)
    ensures
      var s := amount + denom;
      && Digits(s) == |amount| && 0 < |amount| < |s| && IsLetter(s[|amount|])
      && forall k :: |amount| <= k < |s| ==> InDenom(s[k])
  {
    var s := amount + denom;
    DigitsAre(s);
    var n := Digits(s);
    assert s[|amount|] == denom[0];
    forall k | |amount| <= k < |s| ensures InDenom(s[k]) {
      assert s[k] == denom[k - |amount|];
    }
  }

  // ---- Messages ----------------------------------------------------------------------------------------

  /** A missing text reads like an empty one. */
  function TextRead(t: Text): Bytes {
    match t
    case None => []
    case Some(bytes) => bytes
  }

  function TotalRead(n: Option<int>): int {
    match n
    case None => 0
    case Some(total) => total
  }

  /** The anchor's fields, number by number. */
  predicate AnchorReads(fs: seq<Field>, m: Anchor) {
    && BlobAt(fs, 1) == TextRead(m.submitter) && BlobAt(fs, 2) == TextRead(m.batchId)
    && BlobAt(fs, 3) == TextRead(m.jobId) && BlobAt(fs, 4) == TextRead(m.lane) && BlobAt(fs, 5) == TextRead(m.schema)
    && BlobAt(fs, 6) == TextRead(m.policy) && BlobAt(fs, 7) == TextRead(m.root)
    && BlobAt(fs, 8) == TextRead(m.payloadHash) && BlobAt(fs, 9) == TextRead(m.windowsRoot)
    && BlobAt(fs, 10) == TextRead(m.tasksRoot) && BlobAt(fs, 11) == TextRead(m.rowsRoot)
    && BlobAt(fs, 12) == TextRead(m.windowEnd) && CountAt(fs, 13) == TotalRead(m.total)
  }

  lemma AnchorFields(m: Anchor)
    requires EncodeAnchor(m).Ok?
    ensures
      var bs := EncodeAnchor(m).value;
      WellFormed(bs) && AnchorReads(FieldsIn(bs), m)
  {
    hide EncodeMessage, ParseFields, BlobAt, CountAt, Reads, AnchorSlots, ReadsAs, WellFormed;
    AnchorTotal(m);
    AnchorAscends(m);
    AnchorNumbers(m);
    ReadsBack(AnchorSlots(m));
    SlotsRead(m, FieldsIn(EncodeAnchor(m).value));
  }

  lemma AnchorAscends(m: Anchor)
    requires Amount(m.total) >= 0
    ensures Ascending(AnchorSlots(m))
  {
    hide AnchorSlots;
  }

  lemma SlotsRead(m: Anchor, fs: seq<Field>)
    requires Amount(m.total) >= 0 && Reads(fs, AnchorSlots(m))
    ensures AnchorReads(fs, m)
  {
    hide BlobAt, CountAt, Reads, AnchorSlots;
    ReadsAll(m, fs);
  }

  /** A message reads as the anchor's type under 1 and the anchor under 2. */
  lemma TypedReadBack(m: TypedMessage)
    requires EncodeTypedMessage(m).Ok?
    ensures
      var bs := EncodeTypedMessage(m).value;
      var fs := FieldsIn(bs);
      && WellFormed(bs) && BlobAt(fs, 1) == m.typeUrl == Ascii("/clawchain.settlement.v1.MsgAnchorSettlementBatch")
      && WellFormed(BlobAt(fs, 2)) && AnchorReads(FieldsIn(BlobAt(fs, 2)), m.value)
  {
    hide EncodeMessage, EncodeAnchor, WellFormed, FieldsIn, BlobAt, AnchorReads;
    var value := EncodeAnchor(m.value).value;
    TwoRead(EncodeAny(m.typeUrl, value), Field(1, Blob(m.typeUrl)), Field(2, Blob(value)));
    AnchorFields(m.value);
  }

  lemma AnchorTotal(m: Anchor)
    requires EncodeAnchor(m).Ok?
    ensures Amount(m.total) >= 0
  {
  }

  /** The body reads as the messages under 1, in order, the memo under 2 and the timeout under 3. */
  lemma BodyReads(anys: seq<Bytes>, memo: Text, timeout: nat)
    requires forall k :: 0 <= k < |anys| ==> anys[k] != []
    ensures
      var bs := EncodeMessage(BodySlots(anys, memo, timeout));
      var fs := FieldsIn(bs);
      && WellFormed(bs) && BlobsAt(fs, 1) == anys && BlobAt(fs, 2) == TextRead(memo) && CountAt(fs, 3) == timeout
  {
    hide EncodeMessage, ParseFields, EncodeFields, BlobsAt, BlobAt, CountAt, Present, NoneEmpty;
    var slots := BodySlots(anys, memo, timeout);
    BodyReadBack(anys, memo, timeout);
    MessageIsPresent(slots);
    FieldsReadBack(Present(slots));
    PresentAscends(slots);
    PresentNonempty(slots);
  }

  // ---- The auth info -----------------------------------------------------------------------------------

  /** The fee reads as a coin under 1, its denomination under 1 and its amount under 2, and the gas under 2. */
  lemma FeeReadBack(fee: Bytes, gas: int)
    requires EncodeFee(fee, gas).Ok?
    ensures
      var bs := EncodeFee(fee, gas).value;
      var coin := BlobAt(FieldsIn(bs), 1);
      && WellFormed(bs) && CountAt(FieldsIn(bs), 2) == gas && ParseCoin(fee).Ok?
      && WellFormed(coin) && BlobAt(FieldsIn(coin), 1) == ParseCoin(fee).value.1
      && BlobAt(FieldsIn(coin), 2) == ParseCoin(fee).value.0
  {
    hide EncodeMessage, ParseCoin, WellFormed, FieldsIn, BlobAt, CountAt;
    var parts := ParseCoin(fee).value;
    var coin := EncodeMessage(CoinSlots(parts.0, parts.1));
    TwoRead(coin, Field(1, Blob(parts.1)), Field(2, Blob(parts.0)));
    TwoRead(EncodeFee(fee, gas).value, Field(1, Blob(coin)), Field(2, Count(gas)));
  }

  /** The mode reads as a count under 1, within the blob under 1. */
  lemma ModeReadBack(mode: int)
    requires EncodeModeInfo(mode).Ok?
    ensures
      var bs := EncodeModeInfo(mode).value;
      && WellFormed(bs) && CountAt(FieldsIn(BlobAt(FieldsIn(bs), 1)), 1) == mode
  {
    hide EncodeMessage, EncodeField, ParseField;
    var single := EncodeField(Field(1, Count(mode)));
    var slots := [Field(1, Blob(single))];
    ReadsBack(slots);
    hide WellFormed;
    assert slots[0] == Field(1, Blob(single));
    assert BlobAt(FieldsIn(EncodeMessage(slots)), 1) == single by {
      assert ReadsAs(FieldsIn(EncodeMessage(slots)), slots[0]);
    }
    hide BlobAt;
    FieldsReadBack([Field(1, Count(mode))]);
    assert EncodeFields([Field(1, Count(mode))]) == single;
  }

  /** The signer reads as the key under 1, of its type and its bytes, the mode under 2 and the sequence under 3. */
  lemma SignerReadBack(key: PublicKey, sequence: int, mode: int)
    requires EncodeSigner(key, sequence, mode).Ok?
    ensures
      var bs := EncodeSigner(key, sequence, mode).value;
      var fs := FieldsIn(bs);
      var pubkey := FieldsIn(BlobAt(fs, 1));
      && WellFormed(bs) && CountAt(fs, 3) == sequence
      && BlobAt(pubkey, 1) == key.typeUrl == Ascii("/cosmos.crypto.secp256k1.PubKey")
      && key.key == Some(BlobAt(FieldsIn(BlobAt(pubkey, 2)), 1))
      && CountAt(FieldsIn(BlobAt(FieldsIn(BlobAt(fs, 2)), 1)), 1) == mode
  {
    hide EncodeMessage, EncodeModeInfo, FieldsIn, WellFormed, BlobAt, CountAt;
    var k, modeInfo := key.key.value, EncodeModeInfo(mode).value;
    ModeReadBack(mode);
    var inner := [Field(1, Blob(k))];
    ReadsBack(inner);
    assert ReadsAs(FieldsIn(KeyBytes(k)), inner[0]);
    var any := EncodeAny(PUBKEY_TYPE_URL, KeyBytes(k));
    TwoRead(any, Field(1, Blob(PUBKEY_TYPE_URL)), Field(2, Blob(KeyBytes(k))));
    var slots := SignerSlots(k, modeInfo, sequence);
    ReadsBack(slots);
    var fs := FieldsIn(EncodeMessage(slots));
    assert ReadsAs(fs, slots[0]) && ReadsAs(fs, slots[1]) && ReadsAs(fs, slots[2]);
  }

  /** The auth info reads as the signer under 1 and the fee under 2. */
  lemma AuthReadBack(key: PublicKey, sequence: int, mode: int, fee: Bytes, gas: int)
    requires EncodeAuthInfo(key, sequence, mode, fee, gas).Ok?
    ensures
      var bs := EncodeAuthInfo(key, sequence, mode, fee, gas).value;
      && WellFormed(bs) && EncodeSigner(key, sequence, mode) == Ok(BlobAt(FieldsIn(bs), 1))
      && EncodeFee(fee, gas) == Ok(BlobAt(FieldsIn(bs), 2))
  {
    hide EncodeMessage, EncodeSigner, EncodeFee, WellFormed, FieldsIn, BlobAt;
    var signer, f := EncodeSigner(key, sequence, mode).value, EncodeFee(fee, gas).value;
    TwoRead(EncodeMessage(AuthSlots(signer, f)), Field(1, Blob(signer)), Field(2, Blob(f)));
  }

  // ---- The sign document -------------------------------------------------------------------------------

  /** The sign document reads as the body under 1, the auth info under 2, the chain id under 3 and the account
      number under 4. */
  lemma SignDocReadBack(tx: Tx)
    requires EncodeSignDoc(tx).Ok?
    ensures
      var bs := EncodeSignDoc(tx).value;
      var fs := FieldsIn(bs);
      && WellFormed(bs) && BlobAt(fs, 3) == TextRead(tx.chainId) && CountAt(fs, 4) == tx.account
      && EncodeBody(tx.messages, tx.memo, tx.timeout) == Ok(BlobAt(fs, 1))
      && EncodeAuthInfo(tx.key, tx.sequence, tx.mode, tx.fee, tx.gas) == Ok(BlobAt(fs, 2))
  {
    hide EncodeMessage, EncodeBody, EncodeAuthInfo, WellFormed, FieldsIn, BlobAt, CountAt;
    var body := EncodeBody(tx.messages, tx.memo, tx.timeout).value;
    var auth := EncodeAuthInfo(tx.key, tx.sequence, tx.mode, tx.fee, tx.gas).value;
    var slots := SignDocSlots(body, auth, tx.chainId, tx.account);
    ReadsBack(slots);
    var fs := FieldsIn(EncodeMessage(slots));
    assert ReadsAs(fs, slots[0]) && ReadsAs(fs, slots[1]) && ReadsAs(fs, slots[2]) && ReadsAs(fs, slots[3]);
  }

  // ---- What is refused ---------------------------------------------------------------------------------

  /** Why a message cannot be encoded: its type, or else a negative total. */
  function MessageFault(m: TypedMessage): Option<EncodeError> {
    if m.typeUrl != Ascii("/clawchain.settlement.v1.MsgAnchorSettlementBatch") then Some(UnsupportedMessage)
    else if m.value.total.Some? && m.value.total.value < 0 then Some(NegativeVarint)
    else None
  }

  /** The first message that cannot be encoded decides. */
  ghost predicate MessagesFail(ms: seq<TypedMessage>, fault: EncodeError) {
    exists k :: 0 <= k < |ms| && MessageFault(ms[k]) == Some(fault)
                && forall j :: 0 <= j < k ==> MessageFault(ms[j]).None?
  }

  /** Why a transaction's own fields cannot be encoded: the first of these that applies. */
  ghost function TxFault(tx: Tx): Option<EncodeError> {
    if tx.timeout < 0 then Some(NegativeVarint)
    else if tx.key.typeUrl != Ascii("/cosmos.crypto.secp256k1.PubKey") then Some(UnsupportedKey)
    else if tx.key.key.None? then Some(MissingKey)
    else if tx.mode < 0 || tx.sequence < 0 then Some(NegativeVarint)
    else if !exists amount, denom :: IsCoin(amount, denom) && Strip(tx.fee) == amount + denom then Some(InvalidCoin)
    else if tx.gas < 0 || tx.account < 0 then Some(NegativeVarint)
    else None
  }

  /** A sign document is refused for the first message that cannot be encoded, else for the first of the other
      faults, and else not at all. */
  lemma SignDocRefused(tx: Tx)
    ensures
      var doc := EncodeSignDoc(tx);
      if exists fault :: MessagesFail(tx.messages, fault) then doc.Err? && MessagesFail(tx.messages, doc.error)
      else if TxFault(tx).Some? then doc == Err(TxFault(tx).value)
      else doc.Ok?
  {
    hide EncodeMessage, ParseCoin, Strip, MessagesFail, EncodeField;
    MessagesRefused(tx.messages);
    CoinParts(tx.fee);
    CoinFault(tx.fee);
    if fault :| MessagesFail(tx.messages, fault) {
      assert EncodeTypedMessages(tx.messages).Err?;
    }
  }

  lemma CoinFault(coin: Bytes)
    ensures ParseCoin(coin).Err? ==> ParseCoin(coin).error == InvalidCoin
  {
    hide Strip, Digits;
  }

  lemma MessageRefused(m: TypedMessage)
    ensures
      var r := EncodeTypedMessage(m);
      if MessageFault(m).Some? then r == Err(MessageFault(m).value) else r.Ok?
  {
    hide EncodeMessage;
  }

  lemma {:induction false} MessagesRefused(ms: seq<TypedMessage>)
    ensures
      var r := EncodeTypedMessages(ms);
      (if r.Err? then MessagesFail(ms, r.error) else !exists fault :: MessagesFail(ms, fault))
  {
    hide EncodeTypedMessage, MessageFault;
    if ms != [] {
      MessageRefused(ms[0]);
      MessagesRefused(ms[1..]);
      assert ms == [ms[0]] + ms[1..];
      if MessageFault(ms[0]).Some? {
        assert MessagesFail(ms, MessageFault(ms[0]).value);
      } else {
        forall fault ensures MessagesFail(ms, fault) == MessagesFail(ms[1..], fault) {
          LaterFault(ms, fault);
        }
      }
    }
  }

  lemma LaterFault(ms: seq<TypedMessage>, fault: EncodeError)
    requires ms != [] && MessageFault(ms[0]).None?
    ensures MessagesFail(ms, fault) == MessagesFail(ms[1..], fault)
  {
    hide MessageFault;
    var rest := ms[1..];
    if MessagesFail(rest, fault) {
      var k :| 0 <= k < |rest| && MessageFault(rest[k]) == Some(fault)
               && forall j :: 0 <= j < k ==> MessageFault(rest[j]).None?;
      forall j | 0 <= j < k + 1 ensures MessageFault(ms[j]).None? {
        assert j > 0 ==> ms[j] == rest[j - 1];
      }
      assert ms[k + 1] == rest[k];
    }
    if MessagesFail(ms, fault) {
      var k :| 0 <= k < |ms| && MessageFault(ms[k]) == Some(fault)
               && forall j :: 0 <= j < k ==> MessageFault(ms[j]).None?;
      assert k > 0 && rest[k - 1] == ms[k];
      forall j | 0 <= j < k - 1 ensures MessageFault(rest[j]).None? {
        assert rest[j] == ms[j + 1];
      }
    }
  }

  /** The unsigned transaction reads as the body under 1 and the auth info under 2. */
  lemma TxRawReadBack(body: Bytes, auth: Bytes)
    ensures
      var bs := EncodeTxRaw(body, auth);
      && WellFormed(bs) && BlobAt(FieldsIn(bs), 1) == body && BlobAt(FieldsIn(bs), 2) == auth
  {
    hide EncodeMessage, WellFormed, FieldsIn, BlobAt;
    TwoRead(EncodeTxRaw(body, auth), Field(1, Blob(body)), Field(2, Blob(auth)));
  }
}
