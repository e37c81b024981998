/** Regrouping of bits, as crypto_auth regroups address bytes into 5-bit symbols. */
module Bech32Bits {
  import opened Powers

  /** How many groups of `to` bits hold n groups of `from` bits: rounded up when padding, else down. */
  function GroupCount(n: nat, from: nat, to: nat, pad: bool): nat
    requires to > 0
  {
    if pad then (from * n + (to - 1)) / to else from * n / to
  }

  /** xs is data regrouped: the groups fit, there are GroupCount of them, and they spell the bits of
      data followed by zero bits (padding) or cut short (no padding). */
  ghost predicate Regroups(data: seq<nat>, from: nat, to: nat, pad: bool, xs: seq<nat>)
    requires to > 0
  {
    var have, need := from * |data|, to * |xs|;
    && AllBelow(xs, to) && |xs| == GroupCount(|data|, from, to, pad)
    && if pad then have <= need && Value(xs, to) == Value(data, from) * Pow2(need - have)
       else need <= have && Value(xs, to) == Value(data, from) / Pow2(have - need)
  }

  /** acc holds the number read so far, ret its groups taken out, the low `bits` bits are pending. */
  ghost predicate Pending(acc: nat, bits: nat, to: nat, ret: seq<nat>) {
    AllBelow(ret, to) && Value(ret, to) == acc / Pow2(bits)
  }

  method ConvertBits(data: seq<nat>, from: nat, to: nat, pad: bool) returns (ret: seq<nat>)
    requires from > 0 && to > 0 && AllBelow(data, from)
    ensures Regroups(data, from, to, pad, ret)
  {
    EmptySpells(from, to);
    hide Pow2, Value;
    var acc: nat := 0;
    var bits: nat := 0;
    ret := [];
    for i := 0 to |data|
      invariant acc == Value(data[..i], from)
      invariant bits < to && to * |ret| + bits == from * i
      invariant Pending(acc, bits, to, ret)
    {
      assert data[..i + 1] == data[..i] + [data[i]];
      ValueSnoc(data[..i], data[i], from);
      ShiftIn(acc, acc * Pow2(from) + data[i], data[i], from, bits);
      acc := acc * Pow2(from) + data[i];
      bits := bits + from;
      MulSucc(from, i);
      while bits >= to
        invariant to * |ret| + bits == from * (i + 1)
        invariant Pending(acc, bits, to, ret)
      {
        bits := bits - to;
        TakeGroup(acc, bits, to, ret);
        MulSucc(to, |ret|);
        ret := ret + [acc / Pow2(bits) % Pow2(to)];
      }
    }
    assert data[..|data|] == data;
    if pad && bits > 0 {
      PadGroup(acc, bits, to);
      MulSucc(to, |ret|);
      CeilUnique(from * |data|, to, |ret| + 1);
      ValueSnoc(ret, acc * Pow2(to - bits) % Pow2(to), to);
      ret := ret + [acc * Pow2(to - bits) % Pow2(to)];
    } else {
      Aligned(from * |data|, to, |ret|, bits);
    }
  }

  lemma EmptySpells(from: nat, to: nat)
    ensures Value([], from) == 0 && Pending(0, 0, to, []) && Pow2(0) == 1
  {
  }

  lemma MulSucc(a: nat, n: nat)
    ensures a * (n + 1) == a * n + a
  {
  }

  lemma Aligned(x: nat, to: nat, n: nat, bits: nat)
    requires to > 0 && x == to * n + bits && bits < to
    ensures x / to == n && (bits == 0 ==> (x + (to - 1)) / to == n)
  {
    DivUnique(x, to, n, bits);
    if bits == 0 {
      CeilUnique(x, to, n);
    }
  }

  lemma CeilUnique(x: nat, to: nat, n: nat)
    requires to > 0 && x <= to * n < x + to
    ensures (x + (to - 1)) / to == n
  {
    DivUnique(x + (to - 1), to, n, x + (to - 1) - to * n);
  }

  /** Bits taken in on the right do not change the groups already taken out on the left. */
  lemma ShiftIn(before: nat, acc: nat, d: nat, from: nat, bits: nat)
    requires acc == before * Pow2(from) + d && d < Pow2(from)
    ensures acc / Pow2(bits + from) == before / Pow2(bits)
  {
    DivUnique(acc, Pow2(from), before, d);
    DivDiv(acc, Pow2(from), Pow2(bits));
    Pow2Add(from, bits);
  }

  lemma TakeGroup(acc: nat, bits: nat, to: nat, ret: seq<nat>)
    requires Pending(acc, bits + to, to, ret)
    ensures Pending(acc, bits, to, ret + [acc / Pow2(bits) % Pow2(to)])
  {
    hide Pow2, Value, AllBelow;
    var q, d := acc / Pow2(bits), Pow2(to);
    assert Value(ret, to) == q / d by {
      DivDiv(acc, Pow2(bits), Pow2(to));
      Pow2Add(bits, to);
    }
    SnocGroup(ret, q, to);
  }

  lemma SnocGroup(ret: seq<nat>, q: nat, to: nat)
    requires AllBelow(ret, to) && Value(ret, to) == q / Pow2(to)
    ensures AllBelow(ret + [q % Pow2(to)], to) && Value(ret + [q % Pow2(to)], to) == q
  {
    ValueSnoc(ret, q % Pow2(to), to);
    LastGroup(q, Pow2(to));
  }

  lemma LastGroup(q: nat, d: nat)
    requires d > 0
    ensures q / d * d + q % d == q && q % d < d
  {
  }

  lemma PadGroup(acc: nat, bits: nat, to: nat)
    requires 0 < bits < to
    ensures acc / Pow2(bits) * Pow2(to) + acc * Pow2(to - bits) % Pow2(to) == acc * Pow2(to - bits)
    ensures acc * Pow2(to - bits) % Pow2(to) < Pow2(to)
  {
    Pow2Add(to - bits, bits);
    PadQuotient(acc, Pow2(bits), Pow2(to - bits), Pow2(to));
  }

  lemma PadQuotient(acc: nat, b: nat, p: nat, t: nat)
    requires b > 0 && p > 0 && t == p * b
    ensures acc / b * t + acc * p % t == acc * p && acc * p % t < t
  {
    var q, r := acc / b, acc % b;
    MulDistributes(q, b, r, p);
    SmallerProduct(r, b, p);
    DivUnique(acc * p, t, q, r * p);
  }

  lemma SmallerProduct(r: nat, b: nat, p: nat)
    requires r < b && p > 0
    ensures 0 <= r * p < p * b
  {
    MulAtLeast(b - r, p);
    MulMinus(b, r, p);
  }

  lemma MulDistributes(q: nat, b: nat, r: nat, p: nat)
    ensures (q * b + r) * p == q * (p * b) + r * p
  {
  }

  /** Regrouping into groups no wider than the originals, padded, and back again without padding
      gives the original groups. */
  lemma RegroupRoundTrip(data: seq<nat>, from: nat, to: nat, xs: seq<nat>, back: seq<nat>)
    requires 0 < to <= from && AllBelow(data, from)
    requires Regroups(data, from, to, true, xs) && Regroups(xs, to, from, false, back)
    ensures back == data
  {
    var have, need := from * |data|, to * |xs|;
    assert (have + (to - 1)) / to == |xs|;
    assert need <= have + (to - 1);
    DivUnique(need, from, |data|, need - have);
    DivMul(Value(data, from), Pow2(need - have));
    ValueInjective(back, data, from);
  }

  /** Address bytes survive 8 to 5 and 5 to 8; the 5-bit form has the ceiling of 8n/5 symbols. */
  lemma BytesSurvive(bytes: seq<nat>, symbols: seq<nat>, back: seq<nat>)
    requires AllBelow(bytes, 8)
    requires Regroups(bytes, 8, 5, true, symbols) && Regroups(symbols, 5, 8, false, back)
    ensures back == bytes
    ensures (forall k :: 0 <= k < |symbols| ==> symbols[k] < 32) && 8 * |bytes| <= 5 * |symbols| < 8 * |bytes| + 5
  {
    RegroupRoundTrip(bytes, 8, 5, symbols, back);
    assert Pow2(5) == 32;
  }

  /** Different bytes never regroup to the same symbols. */
  lemma RegroupInjective(a: seq<nat>, b: seq<nat>, symbols: seq<nat>)
    requires AllBelow(a, 8) && AllBelow(b, 8)
    requires Regroups(a, 8, 5, true, symbols) && Regroups(b, 8, 5, true, symbols)
    ensures a == b
  {
    assert |a| == |b|;
    DivMul(Value(a, 8), Pow2(5 * |symbols| - 8 * |a|));
    DivMul(Value(b, 8), Pow2(5 * |symbols| - 8 * |b|));
    ValueInjective(a, b, 8);
  }
}
