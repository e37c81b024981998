/** The running bech32 checksum of crypto_auth as a linear register (BIP 173, "Checksum").

    Python's unbounded integer never exceeds 30 bits here: each step masks the word to 25 bits before
    shifting it by five, and symbols have five bits. */
module Bech32Register {
  type Word = bv30

  const GEN: seq<Word> := [0x3b6a57b2, 0x26508e6d, 0x1ea119fa, 0x3d4233dd, 0x2a1462b3]

  function Plus(a: Word, b: Word): Word {
    a ^ b
  }

  function Low(c: Word): Word {
    (c & 0x1ffffff) << 5
  }

  function Top(c: Word): Word {
    c >> 25
  }

  /** Bit i of the five bits shifted out, as a mask. */
  predicate BitAt(b: Word, i: nat)
    requires i < 5
  {
    match i
    case 0 => b & 1 == 1
    case 1 => b & 2 == 2
    case 2 => b & 4 == 4
    case 3 => b & 8 == 8
    case 4 => b & 16 == 16
  }

  function Term(b: Word, i: nat): Word
    requires i < 5
  {
    if BitAt(b, i) then GEN[i] else 0
  }

  /** The sum of the first n generators that b selects. */
  function Gather(b: Word, n: nat): Word
    requires n <= 5
  {
    if n == 0 then 0 else Plus(Gather(b, n - 1), Term(b, n - 1))
  }

  /** One step over a zero symbol: mask and shift, then feed back what was shifted out. */
  function Step(c: Word): Word {
    Plus(Low(c), Gather(Top(c), 5))
  }

  function Run(c: Word, vs: seq<Word>): Word
    decreases |vs|
  {
    if vs == [] then c else Run(Plus(Step(c), vs[0]), vs[1..])
  }

  function PolymodOf(vs: seq<Word>): Word {
    Run(1, vs)
  }

  // ---- The loops ---------------------------------------------------------------------------------------

  method TestBit(b: Word, i: nat) returns (on: bool)
    requires i < 5
    ensures on == BitAt(b, i)
  {
    if i == 0 {
      on := (b >> 0) & 1 == 1;
    } else if i == 1 {
      on := (b >> 1) & 1 == 1;
    } else if i == 2 {
      on := (b >> 2) & 1 == 1;
    } else if i == 3 {
      on := (b >> 3) & 1 == 1;
    } else {
      on := (b >> 4) & 1 == 1;
    }
  }

  /** The inner loop: add the selected generators to the shifted register. */
  method AddGenerators(shifted: Word, b: Word) returns (chk: Word)
    ensures chk == Plus(shifted, Gather(b, 5))
  {
    PlusZero(shifted);
    hide Plus, BitAt;
    chk := shifted;
    for i := 0 to 5
      invariant chk == Plus(shifted, Gather(b, i))
    {
      var on := TestBit(b, i);
      PlusAssoc(shifted, Gather(b, i), Term(b, i));
      chk := Xor(chk, if on then GEN[i] else 0);
    }
  }

  method Xor(a: Word, b: Word) returns (c: Word)
    ensures c == Plus(a, b)
  {
    c := a ^ b;
  }

  /** One pass of the outer loop. */
  method Feed(before: Word, value: Word) returns (chk: Word)
    ensures chk == Plus(Step(before), value)
  {
    var b := before >> 25;
    var shifted := Xor((before & 0x1ffffff) << 5, value);
    assert b == Top(before) && shifted == Plus(Low(before), value);
    hide Plus, Low, Top, Gather;
    chk := AddGenerators(shifted, b);
    PlusSwap(Low(before), value, Gather(b, 5));
  }

  method Polymod(values: seq<Word>) returns (chk: Word)
    ensures chk == PolymodOf(values)
  {
    hide Plus, Step;
    chk := 1;
    for k := 0 to |values|
      invariant PolymodOf(values) == Run(chk, values[k..])
    {
      chk := Feed(chk, values[k]);
      assert values[k..][1..] == values[k + 1..];
    }
    assert values[|values|..] == [];
  }

  // ---- Laws of the addition ----------------------------------------------------------------------------

  lemma XorLaws(a: Word, b: Word, x: Word, y: Word)
    ensures Plus(a ^ x, b ^ y) == Plus(a ^ b, x ^ y)
  {
  }

  lemma PlusPairs(a: Word, b: Word, x: Word, y: Word)
    ensures Plus(Plus(a, x), Plus(b, y)) == Plus(Plus(a, b), Plus(x, y))
  {
    hide Plus;
    XorLaws(a, b, x, y);
    PlusIsXor(a, x);
    PlusIsXor(b, y);
    PlusIsXor(a, b);
    PlusIsXor(x, y);
  }

  lemma PlusIsXor(a: Word, b: Word)
    ensures Plus(a, b) == a ^ b
  {
  }

  lemma PlusZero(a: Word)
    ensures Plus(a, 0) == a
    ensures Plus(0, a) == a
  {
  }

  lemma PlusAssoc(a: Word, b: Word, c: Word)
    ensures Plus(Plus(a, b), c) == Plus(a, Plus(b, c))
  {
    PlusZero(a);
    PlusPairs(a, 0, b, c);
    PlusZero(c);
    hide Plus;
  }

  lemma PlusSelf(a: Word)
    ensures Plus(a, a) == 0
  {
  }

  lemma PlusCancels(a: Word, b: Word)
    ensures Plus(a, b) == 0 <==> a == b
  {
    PlusSelf(b);
    PlusAssoc(a, b, b);
    PlusZero(a);
    PlusZero(b);
    hide Plus;
  }

  lemma PlusSwap(a: Word, b: Word, c: Word)
    ensures Plus(Plus(a, b), c) == Plus(Plus(a, c), b)
  {
    PlusZero(b);
    PlusZero(c);
    PlusPairs(a, 0, b, c);
    PlusPairs(a, 0, c, b);
    PlusPairs(0, b, c, 0);
    hide Plus;
  }

  // ---- Laws of the step --------------------------------------------------------------------------------

  lemma SplitLinear(a: Word, b: Word)
    ensures Low(a ^ b) == Low(a) ^ Low(b)
    ensures Top(a ^ b) == Top(a) ^ Top(b)
  {
  }

  lemma SplitPlus(a: Word, b: Word)
    ensures Low(Plus(a, b)) == Plus(Low(a), Low(b))
    ensures Top(Plus(a, b)) == Plus(Top(a), Top(b))
  {
    SplitLinear(a, b);
    assert Plus(a, b) == a ^ b;
    assert Plus(Low(a), Low(b)) == Low(a) ^ Low(b) && Plus(Top(a), Top(b)) == Top(a) ^ Top(b) by {
      hide Low, Top;
    }
    hide Plus, Low, Top;
  }

  lemma BitLinear(a: Word, b: Word, i: nat)
    requires i < 5
    ensures BitAt(a ^ b, i) <==> BitAt(a, i) != BitAt(b, i)
  {
  }

  lemma BitPlus(a: Word, b: Word, i: nat)
    requires i < 5
    ensures BitAt(Plus(a, b), i) <==> BitAt(a, i) != BitAt(b, i)
  {
    BitLinear(a, b, i);
    assert Plus(a, b) == a ^ b;
    hide Plus, BitAt;
  }

  lemma TermPlus(a: Word, b: Word, i: nat)
    requires i < 5
    ensures Term(Plus(a, b), i) == Plus(Term(a, i), Term(b, i))
  {
    BitPlus(a, b, i);
    PlusZero(GEN[i]);
    PlusZero(0);
    PlusCancels(GEN[i], GEN[i]);
    hide Plus, BitAt;
  }

  lemma {:induction false} GatherPlus(a: Word, b: Word, n: nat)
    requires n <= 5
    ensures Gather(Plus(a, b), n) == Plus(Gather(a, n), Gather(b, n))
  {
    hide Plus, Term;
    PlusZero(0);
    if n > 0 {
      GatherPlus(a, b, n - 1);
      TermPlus(a, b, n - 1);
      PlusPairs(Gather(a, n - 1), Gather(b, n - 1), Term(a, n - 1), Term(b, n - 1));
    }
  }

  /** The step is linear. */
  lemma StepPlus(a: Word, b: Word)
    ensures Step(Plus(a, b)) == Plus(Step(a), Step(b))
  {
    hide Plus, Gather, Low, Top;
    SplitPlus(a, b);
    GatherPlus(Top(a), Top(b), 5);
    PlusPairs(Low(a), Low(b), Gather(Top(a), 5), Gather(Top(b), 5));
  }

  /** Feedback with its five generators written out. */
  function Flat(b: Word): Word {
    (if b & 1 == 1 then 0x3b6a57b2 else 0) ^ (if b & 2 == 2 then 0x26508e6d else 0)
    ^ (if b & 4 == 4 then 0x1ea119fa else 0) ^ (if b & 8 == 8 then 0x3d4233dd else 0)
    ^ (if b & 16 == 16 then 0x2a1462b3 else 0)
  }

  lemma FlatTerms(b: Word, p2: Word, p3: Word, p4: Word, p5: Word)
    requires p2 == Plus(Term(b, 0), Term(b, 1)) && p3 == Plus(p2, Term(b, 2))
    requires p4 == Plus(p3, Term(b, 3)) && p5 == Plus(p4, Term(b, 4))
    ensures p5 == Flat(b)
  {
  }

  lemma GatherFlat(b: Word)
    ensures Gather(b, 5) == Flat(b)
  {
    hide Plus, Term, Flat;
    PlusZero(Term(b, 0));
    assert Gather(b, 1) == Term(b, 0);
    assert Gather(b, 3) == Plus(Gather(b, 2), Term(b, 2));
    assert Gather(b, 4) == Plus(Gather(b, 3), Term(b, 3));
    FlatTerms(b, Gather(b, 2), Gather(b, 3), Gather(b, 4), Gather(b, 5));
  }

  lemma StepFlat(c: Word)
    ensures Step(c) == Low(c) ^ Flat(Top(c))
  {
    hide Plus, Low, Top, Gather, Flat;
    PlusIsXor(Low(c), Flat(Top(c)));
    GatherFlat(Top(c));
  }

  lemma FlatLossless(c: Word)
    ensures Low(c) ^ Flat(Top(c)) == 0 <==> c == 0
  {
  }

  /** No nonzero register steps to zero: the lowest coefficient of the generator is odd. */
  lemma StepLossless(c: Word)
    ensures Step(c) == 0 <==> c == 0
  {
    StepFlat(c);
    FlatLossless(c);
    hide Step, Low, Top, Flat;
  }

  // ---- Runs --------------------------------------------------------------------------------------------

  ghost function Sum(xs: seq<Word>, ys: seq<Word>): (zs: seq<Word>)
    requires |xs| == |ys|
    ensures |zs| == |xs|
  {
    seq(|xs|, k requires 0 <= k < |xs| => Plus(xs[k], ys[k]))
  }

  ghost predicate Zeros(vs: seq<Word>) {
    forall k :: 0 <= k < |vs| ==> vs[k] == 0
  }

  lemma {:induction false} RunSplit(c: Word, xs: seq<Word>, ys: seq<Word>)
    ensures Run(c, xs + ys) == Run(Run(c, xs), ys)
    decreases |xs|
  {
    hide Plus, Step;
    if xs == [] {
      assert xs + ys == ys;
    } else {
      assert (xs + ys)[1..] == xs[1..] + ys;
      RunSplit(Plus(Step(c), xs[0]), xs[1..], ys);
    }
  }

  /** Runs over two words of one length differ by the run over their difference. */
  lemma {:induction false} RunDifference(a: Word, b: Word, xs: seq<Word>, ys: seq<Word>)
    requires |xs| == |ys|
    ensures Plus(Run(a, xs), Run(b, ys)) == Run(Plus(a, b), Sum(xs, ys))
    decreases |xs|
  {
    hide Plus, Step;
    if xs != [] {
      StepPlus(a, b);
      PlusPairs(Step(a), Step(b), xs[0], ys[0]);
      RunDifference(Plus(Step(a), xs[0]), Plus(Step(b), ys[0]), xs[1..], ys[1..]);
      assert Sum(xs, ys)[1..] == Sum(xs[1..], ys[1..]);
    }
  }

  /** A nonzero register stays nonzero over zeros. */
  lemma {:induction false} RunZeros(c: Word, vs: seq<Word>)
    requires Zeros(vs)
    ensures Run(c, vs) == 0 <==> c == 0
    decreases |vs|
  {
    hide Plus, Step;
    if vs != [] {
      StepLossless(c);
      PlusZero(Step(c));
      RunZeros(Step(c), vs[1..]);
    }
  }

  /** Different registers stay different over the same word. */
  lemma TailKeepsDifference(a: Word, b: Word, tail: seq<Word>)
    requires a != b
    ensures Run(a, tail) != Run(b, tail)
  {
    hide Plus, Run;
    RunDifference(a, b, tail, tail);
    forall k | 0 <= k < |tail| ensures Sum(tail, tail)[k] == 0 {
      PlusCancels(tail[k], tail[k]);
    }
    PlusCancels(a, b);
    PlusCancels(Run(a, tail), Run(b, tail));
    RunZeros(Plus(a, b), Sum(tail, tail));
  }

  // ---- Bursts ------------------------------------------------------------------------------------------

  /** c holds no more than j symbols of five bits. */
  predicate Narrow(c: Word, j: nat) {
    match j
    case 0 => c == 0
    case 1 => c < 0x20
    case 2 => c < 0x400
    case 3 => c < 0x8000
    case 4 => c < 0x100000
    case 5 => c < 0x2000000
    case _ => true
  }

  ghost predicate AllSymbols(vs: seq<Word>) {
    forall k :: 0 <= k < |vs| ==> Narrow(vs[k], 1)
  }

  lemma FlatNarrow(c: Word)
    requires c < 0x2000000
    ensures Low(c) ^ Flat(Top(c)) == c << 5
  {
  }

  lemma NarrowStep(c: Word)
    requires c < 0x2000000
    ensures Step(c) == c << 5
  {
    StepFlat(c);
    FlatNarrow(c);
    hide Step, Low, Top, Flat;
  }

  lemma NarrowXor(c: Word, j: nat, v: Word)
    requires j < 6 && Narrow(c, j) && v < 32
    ensures c < 0x2000000 && Narrow((c << 5) ^ v, j + 1)
    ensures (c << 5) ^ v == 0 ==> c == 0 && v == 0
  {
  }

  lemma NarrowFeed(c: Word, j: nat, v: Word)
    requires j < 6 && Narrow(c, j) && Narrow(v, 1)
    ensures Narrow(Plus(Step(c), v), j + 1)
    ensures Plus(Step(c), v) == 0 ==> c == 0 && v == 0
  {
    NarrowXor(c, j, v);
    NarrowStep(c);
    assert Plus(c << 5, v) == (c << 5) ^ v by {
      hide Narrow, Step;
    }
    hide Narrow, Step, Plus;
  }

  /** A word of up to six symbols run from zero vanishes only if all its symbols are zero. */
  lemma {:induction false} RunShort(c: Word, j: nat, vs: seq<Word>)
    requires Narrow(c, j) && j + |vs| <= 6 && AllSymbols(vs)
    ensures Run(c, vs) == 0 ==> c == 0 && Zeros(vs)
    decreases |vs|
  {
    hide Narrow, Step, Plus;
    if vs != [] {
      NarrowFeed(c, j, vs[0]);
      RunShort(Plus(Step(c), vs[0]), j + 1, vs[1..]);
      if Zeros(vs[1..]) && vs[0] == 0 {
        forall k | 0 < k < |vs| ensures vs[k] == 0 {
          assert vs[k] == vs[1..][k - 1];
        }
      }
    }
  }

  lemma XorSymbols(x: Word, y: Word)
    requires Narrow(x, 1) && Narrow(y, 1)
    ensures Narrow(Plus(x, y), 1)
  {
    assert x < 32 && y < 32;
    assert x ^ y < 32;
  }

  lemma SumSymbols(xs: seq<Word>, ys: seq<Word>)
    requires |xs| == |ys| && AllSymbols(xs) && AllSymbols(ys)
    ensures AllSymbols(Sum(xs, ys))
  {
    hide Narrow, Plus;
    forall k | 0 <= k < |xs| ensures Narrow(Sum(xs, ys)[k], 1) {
      XorSymbols(xs[k], ys[k]);
    }
  }

  /** Two different words of up to six symbols change the register differently. */
  lemma ShortDiffer(c: Word, xs: seq<Word>, ys: seq<Word>)
    requires |xs| == |ys| <= 6 && xs != ys && AllSymbols(xs) && AllSymbols(ys)
    ensures Run(c, xs) != Run(c, ys)
  {
    assert Narrow(0, 0);
    hide Plus, Narrow, Run;
    RunDifference(c, c, xs, ys);
    PlusCancels(c, c);
    SumSymbols(xs, ys);
    RunShort(0, 0, Sum(xs, ys));
    var k :| 0 <= k < |xs| && xs[k] != ys[k];
    PlusCancels(xs[k], ys[k]);
    assert Sum(xs, ys)[k] != 0;
    PlusCancels(Run(c, xs), Run(c, ys));
  }

  /** Two words of one length that differ only inside six neighbouring symbols have different
      checksums, wherever the six stand: no burst of up to six wrong symbols goes unnoticed. */
  lemma BurstDetected(head: seq<Word>, xs: seq<Word>, ys: seq<Word>, tail: seq<Word>)
    requires |xs| == |ys| <= 6 && xs != ys && AllSymbols(xs) && AllSymbols(ys)
    ensures PolymodOf(head + (xs + tail)) != PolymodOf(head + (ys + tail))
  {
    hide Run, Narrow;
    var c := Run(1, head);
    ShortDiffer(c, xs, ys);
    TailKeepsDifference(Run(c, xs), Run(c, ys), tail);
    RunSplit(1, head, xs + tail);
    RunSplit(1, head, ys + tail);
    RunSplit(c, xs, tail);
    RunSplit(c, ys, tail);
  }
}
