/** Bech32 addresses as crypto_auth writes them (BIP 173): human-readable part, separator, symbols,
    checksum. */
module Bech32 {
  import opened Bech32Register
  import opened Bech32Bits
  import opened Powers

  // ---- The checksum ------------------------------------------------------------------------------------

  function High(c: char): Word {
    (c as int / 32) as Word
  }

  function LowBits(c: char): Word {
    (c as int % 32) as Word
  }

  /** The human-readable part: the high bits of its characters, a zero, and their low bits. */
  function HrpExpand(hrp: string): seq<Word> {
    seq(|hrp|, k requires 0 <= k < |hrp| => High(hrp[k])) + [0]
    + seq(|hrp|, k requires 0 <= k < |hrp| => LowBits(hrp[k]))
  }

  const SIX_ZEROS: seq<Word> := [0, 0, 0, 0, 0, 0]

  function SymbolAt(x: Word, i: nat): Word
    requires i < 6
  {
    match i
    case 0 => (x >> 25) & 31
    case 1 => (x >> 20) & 31
    case 2 => (x >> 15) & 31
    case 3 => (x >> 10) & 31
    case 4 => (x >> 5) & 31
    case 5 => x & 31
  }

  function Symbols(x: Word): (s: seq<Word>)
    ensures |s| == 6
  {
    [SymbolAt(x, 0), SymbolAt(x, 1), SymbolAt(x, 2), SymbolAt(x, 3), SymbolAt(x, 4), SymbolAt(x, 5)]
  }

  function ChecksumOf(hrp: string, data: seq<Word>): (s: seq<Word>)
    ensures |s| == 6
  {
    Symbols(Plus(PolymodOf(HrpExpand(hrp) + data + SIX_ZEROS), 1))
  }

  method CreateChecksum(hrp: string, data: seq<Word>) returns (s: seq<Word>)
    ensures s == ChecksumOf(hrp, data)
  {
    var chk := Polymod(HrpExpand(hrp) + data + SIX_ZEROS);
    hide PolymodOf;
    var polymod := Xor(chk, 1);
    s := Symbols(polymod);
  }

  /** A word verifies when its checksum is one. */
  ghost predicate Verifies(hrp: string, word: seq<Word>) {
    PolymodOf(HrpExpand(hrp) + word) == 1
  }

  lemma SymbolsNarrow(x: Word)
    ensures AllSymbols(Symbols(x))
  {
    SymbolsSmall(x);
    hide SymbolAt;
  }

  lemma SymbolsSmall(x: Word)
    ensures SymbolAt(x, 0) < 32 && SymbolAt(x, 1) < 32 && SymbolAt(x, 2) < 32
    ensures SymbolAt(x, 3) < 32 && SymbolAt(x, 4) < 32 && SymbolAt(x, 5) < 32
  {
  }

  /** The first j symbols of x, as a register. */
  function Leading(x: Word, j: nat): Word {
    match j
    case 0 => 0
    case 1 => x >> 25
    case 2 => x >> 20
    case 3 => x >> 15
    case 4 => x >> 10
    case 5 => x >> 5
    case _ => x
  }

  /** s follows l in a register with room for it. */
  predicate Follows(l: Word, s: Word, next: Word) {
    l < 0x2000000 && (l << 5) ^ s == next
  }

  lemma LeadingFollows(x: Word, j: nat)
    requires j < 6
    ensures Follows(Leading(x, j), SymbolAt(x, j), Leading(x, j + 1))
  {
    match j
    case 0 => assert Follows(0, (x >> 25) & 31, x >> 25);
    case 1 => assert Follows(x >> 25, (x >> 20) & 31, x >> 20);
    case 2 => assert Follows(x >> 20, (x >> 15) & 31, x >> 15);
    case 3 => assert Follows(x >> 15, (x >> 10) & 31, x >> 10);
    case 4 => assert Follows(x >> 10, (x >> 5) & 31, x >> 5);
    case 5 => assert Follows(x >> 5, x & 31, x);
  }

  lemma FeedFollowing(l: Word, s: Word, next: Word)
    requires Follows(l, s, next)
    ensures Plus(Step(l), s) == next
  {
    NarrowStep(l);
    PlusIsXor(l << 5, s);
    hide Step, Plus;
  }

  lemma FeedLeading(x: Word, j: nat)
    requires j < 6
    ensures Plus(Step(Leading(x, j)), SymbolAt(x, j)) == Leading(x, j + 1)
  {
    hide Step, Plus, Leading, SymbolAt, Follows;
    LeadingFollows(x, j);
    FeedFollowing(Leading(x, j), SymbolAt(x, j), Leading(x, j + 1));
  }

  lemma LeadingWhole(x: Word)
    ensures Leading(x, 0) == 0 && Leading(x, 6) == x
  {
  }

  lemma {:induction false} RunLeading(x: Word, j: nat)
    requires j <= 6
    ensures Run(Leading(x, j), Symbols(x)[j..]) == x
    decreases 6 - j
  {
    hide Step, Plus, Leading, SymbolAt;
    if j == 6 {
      LeadingWhole(x);
    } else {
      FeedLeading(x, j);
      assert Symbols(x)[j..][0] == SymbolAt(x, j) && Symbols(x)[j..][1..] == Symbols(x)[j + 1..];
      RunLeading(x, j + 1);
    }
  }

  /** Six symbols run from zero spell the register they were cut from. */
  lemma RunSymbols(x: Word)
    ensures Run(0, Symbols(x)) == x
  {
    hide Leading, Symbols, Run;
    LeadingWhole(x);
    RunLeading(x, 0);
    assert Symbols(x)[0..] == Symbols(x);
  }

  lemma XorRest(x: Word, z: Word)
    requires Plus(x, z) == Plus(z, 1)
    ensures x == 1
  {
  }

  /** If s run from zero spells the run of zeros plus one, then s run from the same place gives one. */
  lemma ChecksumClears(c: Word, s: seq<Word>)
    requires |s| == 6 && Run(0, s) == Plus(Run(c, SIX_ZEROS), 1)
    ensures Run(c, s) == 1
  {
    hide Plus, Run;
    RunDifference(c, c, s, SIX_ZEROS);
    PlusCancels(c, c);
    forall k | 0 <= k < 6 ensures Sum(s, SIX_ZEROS)[k] == s[k] {
      PlusZero(s[k]);
    }
    assert Sum(s, SIX_ZEROS) == s;
    XorRest(Run(c, s), Run(c, SIX_ZEROS));
  }

  /** The appended checksum makes every word verify. */
  lemma ChecksumVerifies(hrp: string, data: seq<Word>)
    ensures Verifies(hrp, data + ChecksumOf(hrp, data))
  {
    hide Run, Plus, HrpExpand, Symbols;
    var values, s := HrpExpand(hrp) + data, ChecksumOf(hrp, data);
    RunSplit(1, values, SIX_ZEROS);
    RunSplit(1, values, s);
    RunSymbols(Plus(PolymodOf(values + SIX_ZEROS), 1));
    ChecksumClears(PolymodOf(values), s);
    assert HrpExpand(hrp) + (data + s) == values + s;
  }

  lemma ChecksumNarrow(hrp: string, data: seq<Word>)
    ensures AllSymbols(ChecksumOf(hrp, data))
  {
    hide AllSymbols, Symbols;
    SymbolsNarrow(Plus(PolymodOf(HrpExpand(hrp) + data + SIX_ZEROS), 1));
  }

  /** No other six symbols do. */
  lemma ChecksumUnique(hrp: string, data: seq<Word>, other: seq<Word>)
    requires |other| == 6 && AllSymbols(other) && Verifies(hrp, data + other)
    ensures other == ChecksumOf(hrp, data)
  {
    hide Run, Plus, HrpExpand, PolymodOf;
    var s := ChecksumOf(hrp, data);
    ChecksumNarrow(hrp, data);
    hide ChecksumOf;
    var values := HrpExpand(hrp) + data;
    ChecksumVerifies(hrp, data);
    assert HrpExpand(hrp) + (data + s) == values + (s + []);
    assert HrpExpand(hrp) + (data + other) == values + (other + []);
    if other != s {
      BurstDetected(values, s, other, []);
    }
  }

  /** Two words of one length that differ only inside six neighbouring symbols never both verify. */
  lemma BurstRejected(hrp: string, left: seq<Word>, xs: seq<Word>, ys: seq<Word>, right: seq<Word>)
    requires |xs| == |ys| <= 6 && xs != ys && AllSymbols(xs) && AllSymbols(ys)
    ensures !(Verifies(hrp, left + xs + right) && Verifies(hrp, left + ys + right))
  {
    hide PolymodOf, HrpExpand;
    var head := HrpExpand(hrp) + left;
    assert HrpExpand(hrp) + (left + xs + right) == head + (xs + right);
    assert HrpExpand(hrp) + (left + ys + right) == head + (ys + right);
    BurstDetected(head, xs, ys, right);
  }

  /** Two words of one length that differ in exactly one symbol never both verify. */
  lemma SubstitutionRejected(hrp: string, word: seq<Word>, k: nat, v: Word)
    requires k < |word| && AllSymbols(word) && Narrow(v, 1) && v != word[k]
    ensures !(Verifies(hrp, word) && Verifies(hrp, word[k := v]))
  {
    hide Narrow, Verifies;
    BurstRejected(hrp, word[..k], [word[k]], [v], word[k + 1..]);
    assert word == word[..k] + [word[k]] + word[k + 1..];
    assert word[k := v] == word[..k] + [v] + word[k + 1..];
  }

  // ---- The address -------------------------------------------------------------------------------------

  const CHARSET: string := "qpzry9x8gf2tvdw0s3jn54khce6mua7l"

  function ToWord(n: nat): Word
    requires n < 32
  {
    n as Word
  }

  function ToWords(symbols: seq<nat>): (ws: seq<Word>)
    requires forall k :: 0 <= k < |symbols| ==> symbols[k] < 32
    ensures |ws| == |symbols|
  {
    seq(|symbols|, k requires 0 <= k < |symbols| => ToWord(symbols[k]))
  }

  function CharOf(v: Word): char
    requires Narrow(v, 1)
  {
    CHARSET[v as nat]
  }

  function Chars(word: seq<Word>): (s: string)
    requires AllSymbols(word)
    ensures |s| == |word|
  {
    seq(|word|, k requires 0 <= k < |word| => CharOf(word[k]))
  }

  lemma ToWordFits(n: nat)
    requires n < 32
    ensures Narrow(ToWord(n), 1)
  {
  }

  lemma ToWordInjective(m: nat, n: nat)
    requires m < 32 && n < 32 && ToWord(m) == ToWord(n)
    ensures m == n
  {
    WordValue(m);
    WordValue(n);
    hide *;
  }

  lemma WordValue(n: nat)
    requires n < 32
    ensures (n as Word) as nat == n
  {
  }

  /** Where a character stands in the alphabet. */
  ghost function Place(c: char): int {
    if c == 'q' then 0 else if c == 'p' then 1 else if c == 'z' then 2 else if c == 'r' then 3
    else if c == 'y' then 4 else if c == '9' then 5 else if c == 'x' then 6 else if c == '8' then 7
    else if c == 'g' then 8 else if c == 'f' then 9 else if c == '2' then 10 else if c == 't' then 11
    else if c == 'v' then 12 else if c == 'd' then 13 else if c == 'w' then 14 else if c == '0' then 15
    else if c == 's' then 16 else if c == '3' then 17 else if c == 'j' then 18 else if c == 'n' then 19
    else if c == '5' then 20 else if c == '4' then 21 else if c == 'k' then 22 else if c == 'h' then 23
    else if c == 'c' then 24 else if c == 'e' then 25 else if c == '6' then 26 else if c == 'm' then 27
    else if c == 'u' then 28 else if c == 'a' then 29 else if c == '7' then 30 else if c == 'l' then 31 else -1
  }

  lemma CharsetDistinct(k: nat)
    requires k < 32
    ensures Place(CHARSET[k]) == k
  {
  }

  lemma CharOfPlace(v: Word)
    requires Narrow(v, 1)
    ensures Place(CharOf(v)) == v as nat && CharOf(v) != '1'
  {
    CharsetDistinct(v as nat);
    assert Place('1') == -1;
    hide Place;
  }

  /** Human-readable part, separator, data symbols, checksum. */
  ghost function Spell(hrp: string, data: seq<Word>): string
    requires AllSymbols(data)
  {
    ChecksumNarrow(hrp, data);
    hrp + "1" + Chars(data + ChecksumOf(hrp, data))
  }

  ghost predicate Small(symbols: seq<nat>) {
    forall k :: 0 <= k < |symbols| ==> symbols[k] < 32
  }

  lemma WordsFit(symbols: seq<nat>)
    requires Small(symbols)
    ensures AllSymbols(ToWords(symbols))
  {
    hide Narrow, ToWord;
    forall k | 0 <= k < |symbols| ensures Narrow(ToWords(symbols)[k], 1) {
      ToWordFits(symbols[k]);
    }
  }

  lemma WordsInjective(xs: seq<nat>, ys: seq<nat>)
    requires Small(xs) && Small(ys) && ToWords(xs) == ToWords(ys)
    ensures xs == ys
  {
    hide ToWord;
    forall k | 0 <= k < |xs| ensures xs[k] == ys[k] {
      assert ToWords(xs)[k] == ToWord(xs[k]) && ToWords(ys)[k] == ToWord(ys[k]);
      ToWordInjective(xs[k], ys[k]);
    }
  }

  /** s is the bech32 form of the bytes: symbols regroups them, and s spells the symbols. */
  ghost predicate Encodes(hrp: string, bytes: seq<nat>, s: string) {
    exists symbols :: Small(symbols) && EncodesBy(hrp, bytes, symbols, s)
  }

  ghost predicate EncodesBy(hrp: string, bytes: seq<nat>, symbols: seq<nat>, s: string)
    requires Small(symbols)
  {
    WordsFit(symbols);
    Regroups(bytes, 8, 5, true, symbols) && s == Spell(hrp, ToWords(symbols))
  }

  lemma RegroupedSmall(bytes: seq<nat>, symbols: seq<nat>)
    requires Regroups(bytes, 8, 5, true, symbols)
    ensures Small(symbols)
  {
    assert Pow2(5) == 32;
  }

  method Encode(hrp: string, bytes: seq<nat>) returns (s: string)
    requires AllBelow(bytes, 8)
    ensures Encodes(hrp, bytes, s)
  {
    var data5 := ConvertBits(bytes, 8, 5, true);
    RegroupedSmall(bytes, data5);
    hide Regroups, ToWords, ChecksumOf, Chars, Narrow;
    WordsFit(data5);
    var data := ToWords(data5);
    var checksum := CreateChecksum(hrp, data);
    ChecksumNarrow(hrp, data);
    s := hrp + "1" + Chars(data + checksum);
    assert EncodesBy(hrp, bytes, data5, s);
  }

  lemma CharsInjective(v: seq<Word>, w: seq<Word>)
    requires AllSymbols(v) && AllSymbols(w) && Chars(v) == Chars(w)
    ensures v == w
  {
    hide Narrow, CharOf;
    forall k | 0 <= k < |v| ensures v[k] == w[k] {
      assert Chars(v)[k] == CharOf(v[k]) && Chars(w)[k] == CharOf(w[k]);
      CharOfInjective(v[k], w[k]);
    }
  }

  lemma CharOfInjective(v: Word, w: Word)
    requires Narrow(v, 1) && Narrow(w, 1) && CharOf(v) == CharOf(w)
    ensures v == w
  {
    CharOfPlace(v);
    CharOfPlace(w);
    hide *;
    SameNumber(v, w);
  }

  lemma SameNumber(v: Word, w: Word)
    requires v as nat == w as nat
    ensures v == w
  {
    NumberWord(v);
    NumberWord(w);
  }

  lemma NumberWord(v: Word)
    ensures (v as nat) as Word == v
  {
  }

  lemma NoSeparator(w: seq<Word>, k: nat)
    requires AllSymbols(w) && k < |w|
    ensures Chars(w)[k] != '1'
  {
    CharOfPlace(w[k]);
    hide Place, CharOf, Narrow;
  }

  /** The last separator splits a bech32 string one way only. */
  lemma SplitsOneWay(h: string, v: seq<Word>, g: string, w: seq<Word>)
    requires AllSymbols(v) && AllSymbols(w) && h + "1" + Chars(v) == g + "1" + Chars(w)
    ensures h == g && v == w
  {
    hide Chars, Narrow;
    var s, t := h + "1" + Chars(v), g + "1" + Chars(w);
    assert |s| == |h| + 1 + |v| && |t| == |g| + 1 + |w|;
    if |h| < |g| {
      assert t[|g|] == '1' && s[|g|] == Chars(v)[|g| - |h| - 1];
      NoSeparator(v, |g| - |h| - 1);
    } else if |g| < |h| {
      assert s[|h|] == '1' && t[|h|] == Chars(w)[|h| - |g| - 1];
      NoSeparator(w, |h| - |g| - 1);
    }
    assert s[..|h|] == h && t[..|g|] == g && s[|h| + 1..] == Chars(v) && t[|g| + 1..] == Chars(w);
    CharsInjective(v, w);
  }

  lemma SpellInjective(h: string, v: seq<Word>, g: string, w: seq<Word>)
    requires AllSymbols(v) && AllSymbols(w) && Spell(h, v) == Spell(g, w)
    ensures h == g && v == w
  {
    hide Chars, Narrow, ChecksumOf;
    ChecksumNarrow(h, v);
    ChecksumNarrow(g, w);
    var cv, cw := ChecksumOf(h, v), ChecksumOf(g, w);
    SplitsOneWay(h, v + cv, g, w + cw);
    assert v == (v + cv)[..|v|] && w == (w + cw)[..|w|];
  }

  /** An address stands for one human-readable part and one byte string. */
  lemma EncodeInjective(h: string, a: seq<nat>, g: string, b: seq<nat>, s: string)
    requires AllBelow(a, 8) && AllBelow(b, 8) && Encodes(h, a, s) && Encodes(g, b, s)
    ensures h == g && a == b
  {
    hide Regroups, ToWords, Spell, AllSymbols, AllBelow;
    var xs :| Small(xs) && EncodesBy(h, a, xs, s);
    var ys :| Small(ys) && EncodesBy(g, b, ys, s);
    WordsFit(xs);
    WordsFit(ys);
    SpellInjective(h, ToWords(xs), g, ToWords(ys));
    WordsInjective(xs, ys);
    RegroupInjective(a, b, xs);
  }

  /** The word an address spells, checksum included, verifies. */
  lemma SpelledVerifies(hrp: string, data: seq<Word>)
    requires AllSymbols(data)
    ensures AllSymbols(data + ChecksumOf(hrp, data)) && Verifies(hrp, data + ChecksumOf(hrp, data))
  {
    hide ChecksumOf, Narrow, Verifies;
    ChecksumNarrow(hrp, data);
    ChecksumVerifies(hrp, data);
  }

  lemma OneCharacter(v: seq<Word>, w: seq<Word>, k: nat, c: char)
    requires AllSymbols(v) && AllSymbols(w) && k < |v| && Chars(w) == Chars(v)[k := c] && c != Chars(v)[k]
    ensures |w| == |v| && w == v[k := w[k]] && w[k] != v[k]
  {
    hide Narrow, CharOf;
    assert |w| == |v|;
    forall j | 0 <= j < |v| && j != k ensures w[j] == v[j] {
      assert Chars(w)[j] == CharOf(w[j]) && Chars(v)[j] == CharOf(v[j]);
      CharOfInjective(w[j], v[j]);
    }
    assert Chars(w)[k] == CharOf(w[k]) && Chars(v)[k] == CharOf(v[k]);
  }

  /** Mistyping one character after the separator (as anything but another separator) never gives
      another address. */
  lemma TypoRejected(h: string, v: seq<Word>, k: nat, c: char, g: string, w: seq<Word>)
    requires AllSymbols(v) && AllSymbols(w)
    requires |h| < k < |Spell(h, v)| && c != Spell(h, v)[k] && c != '1'
    ensures Spell(h, v)[k := c] != Spell(g, w)
  {
    hide Chars, Narrow, Verifies, ChecksumOf;
    SpelledVerifies(h, v);
    SpelledVerifies(g, w);
    var p, q := v + ChecksumOf(h, v), w + ChecksumOf(g, w);
    if Spell(h, v)[k := c] == Spell(g, w) {
      TypoSplits(h, p, k, c, g, q);
      OneCharacter(p, q, k - |h| - 1, c);
      SubstitutionRejected(h, p, k - |h| - 1, q[k - |h| - 1]);
    }
  }

  /** A changed character after the separator leaves the separator where it was. */
  lemma TypoSplits(h: string, p: seq<Word>, k: nat, c: char, g: string, q: seq<Word>)
    requires AllSymbols(p) && AllSymbols(q) && |h| < k < |h| + 1 + |p| && c != '1'
    requires (h + "1" + Chars(p))[k := c] == g + "1" + Chars(q)
    ensures g == h && Chars(q) == Chars(p)[k - |h| - 1 := c]
  {
    hide Chars, Narrow;
    var s, t := (h + "1" + Chars(p))[k := c], g + "1" + Chars(q);
    assert |s| == |h| + 1 + |p| && |t| == |g| + 1 + |q|;
    assert s[|h|] == '1' && t[|g|] == '1';
    if |h| < |g| {
      assert |g| != k ==> s[|g|] == Chars(p)[|g| - |h| - 1];
      NoSeparator(p, |g| - |h| - 1);
    } else if |g| < |h| {
      assert t[|h|] == Chars(q)[|h| - |g| - 1];
      NoSeparator(q, |h| - |g| - 1);
    }
    assert s[..|h|] == h && t[..|g|] == g;
    assert s[|h| + 1..] == Chars(p)[k - |h| - 1 := c] && t[|g| + 1..] == Chars(q);
  }
}
