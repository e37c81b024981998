/** The bech32 checksum is a residue: the polynomial of the symbols modulo the generator of BIP 173, "Checksum
    design", over the field of 32 elements. Polynomials are lists of coefficients, highest degree first. */
module Bech32Residue {
  import opened Bech32Register
  import opened Bech32

  // ---- The field and the generator ---------------------------------------------------------------------

  /** Twice a in the field, in which x^5 = x^3 + 1. */
  function Doubled(a: Word): Word {
    if a < 16 then a << 1 else (a << 1) ^ 41
  }

  function Chosen(on: bool, a: Word): Word {
    if on then a else 0
  }

  /** The product in the field: the doublings of b that the bits of a select. */
  function Mul(a: Word, b: Word): Word {
    var b1 := Doubled(b);
    var b2 := Doubled(b1);
    var b3 := Doubled(b2);
    Chosen(a & 1 == 1, b) ^ Chosen(a & 2 == 2, b1) ^ Chosen(a & 4 == 4, b2) ^ Chosen(a & 8 == 8, b3)
    ^ Chosen(a & 16 == 16, Doubled(b3))
  }

  /** x^6 + 29 x^5 + 22 x^4 + 20 x^3 + 21 x^2 + 29 x + 18, times a constant. */
  function TimesGenerator(t: Word): (p: seq<Word>)
    ensures |p| == 7
  {
    [Mul(t, 1), Mul(t, 29), Mul(t, 22), Mul(t, 20), Mul(t, 21), Mul(t, 29), Mul(t, 18)]
  }

  ghost function Nulls(n: nat): (p: seq<Word>)
    ensures |p| == n
  {
    seq(n, k requires 0 <= k < n => 0 as Word)
  }

  /** The product of a polynomial with the generator, by Horner's rule. */
  ghost function Multiple(q: seq<Word>): (p: seq<Word>)
    ensures |p| == |q| + 6
  {
    if q == [] then Nulls(6)
    else
      var n := |q| - 1;
      Sum(Multiple(q[..n]) + [0], Nulls(n) + TimesGenerator(q[n]))
  }

  // ---- One step ----------------------------------------------------------------------------------------

  /** The constants of the feedback spell the generator's multiples. */
  lemma FlatProducts(t: Word)
    requires t < 32
    ensures SymbolAt(Flat(t), 0) == Mul(t, 29) && SymbolAt(Flat(t), 1) == Mul(t, 22)
    ensures SymbolAt(Flat(t), 2) == Mul(t, 20) && SymbolAt(Flat(t), 3) == Mul(t, 21)
    ensures SymbolAt(Flat(t), 4) == Mul(t, 29) && SymbolAt(Flat(t), 5) == Mul(t, 18) && Mul(t, 1) == t
  {
  }

  lemma XorBits(a: Word, b: Word)
    ensures ((a ^ b) >> 25) & 31 == ((a >> 25) & 31) ^ ((b >> 25) & 31)
    ensures ((a ^ b) >> 20) & 31 == ((a >> 20) & 31) ^ ((b >> 20) & 31)
    ensures ((a ^ b) >> 15) & 31 == ((a >> 15) & 31) ^ ((b >> 15) & 31)
    ensures ((a ^ b) >> 10) & 31 == ((a >> 10) & 31) ^ ((b >> 10) & 31)
    ensures ((a ^ b) >> 5) & 31 == ((a >> 5) & 31) ^ ((b >> 5) & 31)
    ensures (a ^ b) & 31 == (a & 31) ^ (b & 31)
  {
  }

  lemma SymbolXor(a: Word, b: Word, i: nat)
    requires i < 6
    ensures SymbolAt(a ^ b, i) == SymbolAt(a, i) ^ SymbolAt(b, i)
  {
    XorBits(a, b);
    match i
    case 0 =>
    case 1 =>
    case 2 =>
    case 3 =>
    case 4 =>
    case 5 =>
  }

  lemma SymbolPlus(a: Word, b: Word, i: nat)
    requires i < 6
    ensures SymbolAt(Plus(a, b), i) == Plus(SymbolAt(a, i), SymbolAt(b, i))
  {
    SymbolXor(a, b, i);
    PlusIsXor(a, b);
    PlusIsXor(SymbolAt(a, i), SymbolAt(b, i));
    hide *;
  }

  lemma SymbolLow(c: Word, i: nat)
    requires i < 6
    ensures SymbolAt(Low(c), i) == if i < 5 then SymbolAt(c, i + 1) else 0
  {
  }

  lemma SymbolSmall(v: Word, i: nat)
    requires v < 32 && i < 6
    ensures SymbolAt(v, i) == if i < 5 then 0 else v
  {
  }

  lemma ShiftedSymbol(c: Word, f: Word, v: Word, i: nat)
    requires v < 32 && i < 6
    ensures SymbolAt(Plus(Plus(Low(c), f), v), i) == Plus(if i < 5 then SymbolAt(c, i + 1) else v, SymbolAt(f, i))
  {
    SymbolPlus(Plus(Low(c), f), v, i);
    SymbolPlus(Low(c), f, i);
    SymbolLow(c, i);
    SymbolSmall(v, i);
    hide *;
    var x, y := SymbolAt(Low(c), i), SymbolAt(f, i);
    PlusZero(Plus(x, y));
    PlusZero(y);
    PlusSwap(x, y, SymbolAt(v, i));
    PlusZero(SymbolAt(v, i));
  }

  lemma TopSymbol(c: Word)
    ensures Top(c) < 32 && Top(c) == SymbolAt(c, 0)
  {
  }

  lemma FedIs(c: Word, v: Word)
    ensures Plus(Step(c), v) == Plus(Plus(Low(c), Flat(Top(c))), v)
  {
    GatherFlat(Top(c));
    hide Plus, Low, Top, Gather, Flat;
  }

  /** Coefficient i of the register after one more symbol, with the feedback taken off, is the next one before. */
  lemma NextSymbol(c: Word, v: Word, i: nat)
    requires v < 32 && i < 6
    ensures Plus(SymbolAt(Flat(Top(c)), i), SymbolAt(Plus(Step(c), v), i)) == if i < 5 then SymbolAt(c, i + 1) else v
  {
    ShiftedSymbol(c, Flat(Top(c)), v, i);
    FedIs(c, v);
    TakenOff(SymbolAt(Flat(Top(c)), i), if i < 5 then SymbolAt(c, i + 1) else v);
    hide *;
  }

  lemma TakenOff(a: Word, b: Word)
    ensures Plus(a, Plus(b, a)) == b
  {
  }

  /** The multiples of the generator's lower coefficients are the symbols of the feedback. */
  lemma GeneratorAt(t: Word, k: nat)
    requires t < 32 && k < 7
    ensures TimesGenerator(t)[k] == if k == 0 then t else SymbolAt(Flat(t), k - 1)
  {
    FlatProducts(t);
    hide Mul, Flat, SymbolAt;
    match k
    case 0 =>
    case 1 =>
    case 2 =>
    case 3 =>
    case 4 =>
    case 5 =>
    case 6 =>
  }

  lemma FeedAt(c: Word, v: Word, k: nat)
    requires v < 32 && k < 7
    ensures
      Plus(TimesGenerator(Top(c))[k], ([0] + Symbols(Plus(Step(c), v)))[k]) == (Symbols(c) + [v])[k]
  {
    hide *;
    TopSymbol(c);
    GeneratorAt(Top(c), k);
    SymbolsAre(c, v, k);
    if k == 0 {
      PlusZero(Top(c));
    } else {
      NextSymbol(c, v, k - 1);
      SymbolsAre(Plus(Step(c), v), v, k - 1);
    }
  }

  lemma SymbolsAre(c: Word, v: Word, k: nat)
    requires k < 7
    ensures (Symbols(c) + [v])[k] == if k < 6 then SymbolAt(c, k) else v
    ensures k < 6 ==> Symbols(c)[k] == SymbolAt(c, k)
  {
    hide SymbolAt;
  }

  /** Feeding one symbol shifts the six coefficients, and takes off the generator as often as the first says. */
  lemma FeedSymbols(c: Word, v: Word)
    requires v < 32
    ensures Symbols(c) + [v] == Sum(TimesGenerator(Top(c)), [0] + Symbols(Plus(Step(c), v)))
  {
    hide Step, Plus, Top, Symbols, TimesGenerator;
    forall k | 0 <= k < 7
      ensures Plus(TimesGenerator(Top(c))[k], ([0] + Symbols(Plus(Step(c), v)))[k]) == (Symbols(c) + [v])[k]
    {
      FeedAt(c, v, k);
    }
  }

  // ---- The residue -------------------------------------------------------------------------------------

  lemma SumAssoc(a: seq<Word>, b: seq<Word>, c: seq<Word>)
    requires |a| == |b| == |c|
    ensures Sum(Sum(a, b), c) == Sum(a, Sum(b, c))
  {
    hide Plus;
    forall k | 0 <= k < |a| ensures Sum(Sum(a, b), c)[k] == Sum(a, Sum(b, c))[k] {
      PlusAssoc(a[k], b[k], c[k]);
    }
  }

  lemma SumJoins(a: seq<Word>, b: seq<Word>, x: seq<Word>, y: seq<Word>)
    requires |a| == |b| && |x| == |y|
    ensures Sum(a + x, b + y) == Sum(a, b) + Sum(x, y)
  {
    hide Plus;
  }

  lemma SumNulls(a: seq<Word>)
    ensures Sum(Nulls(|a|), a) == a && Sum(a, Nulls(|a|)) == a
  {
    hide Plus;
    forall k | 0 <= k < |a| ensures Plus(0, a[k]) == a[k] == Plus(a[k], 0) {
      PlusZero(a[k]);
    }
  }

  lemma RunSnoc(values: seq<Word>, v: Word)
    ensures PolymodOf(values + [v]) == Plus(Step(PolymodOf(values)), v)
  {
    hide Step, Plus;
    RunSplit(1, values, [v]);
  }

  lemma FirstSymbols()
    ensures PolymodOf([]) == 1 && Symbols(1) == [0, 0, 0, 0, 0, 1]
  {
  }

  /** A one followed by the symbols is a multiple of the generator plus the checksum's six symbols. */
  lemma {:induction false} PolymodIsResidue(values: seq<Word>) returns (q: seq<Word>)
    requires AllSymbols(values)
    ensures |q| == |values|
    ensures [0, 0, 0, 0, 0, 1] + values == Sum(Multiple(q), Nulls(|values|) + Symbols(PolymodOf(values)))
  {
    if values == [] {
      q := [];
      NoResidue();
    } else {
      var n := |values| - 1;
      assert Narrow(values[n], 1) && AllSymbols(values[..n]);
      hide *;
      var before := PolymodIsResidue(values[..n]);
      q := ResidueStep(values[..n], values[n], before);
      assert values == values[..n] + [values[n]];
    }
  }

  lemma NoResidue()
    ensures [0, 0, 0, 0, 0, 1] + [] == Sum(Multiple([]), Nulls(0) + Symbols(PolymodOf([])))
  {
    FirstSymbols();
    hide Plus, PolymodOf, Symbols;
    SumNulls([0, 0, 0, 0, 0, 1]);
    assert Nulls(0) + Symbols(1) == Symbols(1);
  }

  lemma ResidueStep(values: seq<Word>, v: Word, before: seq<Word>) returns (q: seq<Word>)
    requires Narrow(v, 1) && |before| == |values|
    requires [0, 0, 0, 0, 0, 1] + values == Sum(Multiple(before), Nulls(|values|) + Symbols(PolymodOf(values)))
    ensures |q| == |values| + 1
    ensures [0, 0, 0, 0, 0, 1] + (values + [v])
              == Sum(Multiple(q), Nulls(|values| + 1) + Symbols(PolymodOf(values + [v])))
  {
    assert v < 32;
    hide *;
    var c := PolymodOf(values);
    RunSnoc(values, v);
    FeedSymbols(c, v);
    q := before + [Top(c)];
    ResidueNext(values, before, Symbols(c), v, Top(c), Symbols(PolymodOf(values + [v])));
  }

  lemma ResidueNext(values: seq<Word>, q: seq<Word>, r: seq<Word>, v: Word, t: Word, next: seq<Word>)
    requires |q| == |values| && |r| == |next| == 6
    requires [0, 0, 0, 0, 0, 1] + values == Sum(Multiple(q), Nulls(|values|) + r)
    requires r + [v] == Sum(TimesGenerator(t), [0] + next)
    ensures [0, 0, 0, 0, 0, 1] + (values + [v]) == Sum(Multiple(q + [t]), Nulls(|values| + 1) + next)
  {
    hide Plus, Sum, TimesGenerator, Multiple;
    var n := |values|;
    calc {
      [0, 0, 0, 0, 0, 1] + (values + [v]);
      { assert [0, 0, 0, 0, 0, 1] + (values + [v]) == ([0, 0, 0, 0, 0, 1] + values) + [v]; }
      Sum(Multiple(q), Nulls(n) + r) + [v];
      { SumNulls([v]); SumJoins(Multiple(q), Nulls(n) + r, Nulls(1), [v]); assert Nulls(1) == [0]; }
      Sum(Multiple(q) + [0], Nulls(n) + r + [v]);
      { assert Nulls(n) + r + [v] == Nulls(n) + (r + [v]); }
      Sum(Multiple(q) + [0], Nulls(n) + Sum(TimesGenerator(t), [0] + next));
      { SumNulls(Nulls(n)); SumJoins(Nulls(n), Nulls(n), TimesGenerator(t), [0] + next); }
      Sum(Multiple(q) + [0], Sum(Nulls(n) + TimesGenerator(t), Nulls(n) + ([0] + next)));
      { SumAssoc(Multiple(q) + [0], Nulls(n) + TimesGenerator(t), Nulls(n) + ([0] + next)); }
      Sum(Sum(Multiple(q) + [0], Nulls(n) + TimesGenerator(t)), Nulls(n) + ([0] + next));
      { MultipleNext(q, t); assert Nulls(n) + ([0] + next) == Nulls(n + 1) + next; }
      Sum(Multiple(q + [t]), Nulls(n + 1) + next);
    }
  }

  lemma MultipleNext(q: seq<Word>, t: Word)
    ensures Multiple(q + [t]) == Sum(Multiple(q) + [0], Nulls(|q|) + TimesGenerator(t))
  {
    hide TimesGenerator, Sum;
    assert (q + [t])[..|q|] == q;
  }

  // ---- Addresses ---------------------------------------------------------------------------------------

  /** The human-readable part enters as the high bits of its characters, a zero, and their low bits. */
  lemma HrpExpandIs(hrp: string)
    ensures
      var values, n := HrpExpand(hrp), |hrp|;
      && |values| == 2 * n + 1 && values[n] == 0
      && forall k :: 0 <= k < n ==>
           && values[k] == (hrp[k] as int / 32) as Word && values[n + 1 + k] == (hrp[k] as int % 32) as Word
  {
  }

  /** What verifies is, behind a one, a multiple of the generator plus one. */
  lemma VerifiedResidue(hrp: string, word: seq<Word>) returns (q: seq<Word>)
    requires Verifies(hrp, word) && AllSymbols(HrpExpand(hrp)) && AllSymbols(word)
    ensures |q| == |HrpExpand(hrp)| + |word|
    ensures [0, 0, 0, 0, 0, 1] + HrpExpand(hrp) + word == Sum(Multiple(q), Nulls(|q|) + [0, 0, 0, 0, 0, 1])
  {
    hide PolymodOf, HrpExpand, Narrow, Sum, Symbols, Multiple;
    var values := HrpExpand(hrp) + word;
    q := PolymodIsResidue(values);
    FirstSymbols();
    assert [0, 0, 0, 0, 0, 1] + HrpExpand(hrp) + word == [0, 0, 0, 0, 0, 1] + values;
  }
}
