// Powers of two and numbers written in base 2^w, most significant digit first.
module Powers {
  function Pow2(n: nat): (p: nat)
    ensures p >= 1
  {
    if n == 0 then 1 else 2 * Pow2(n - 1)
  }

  lemma {:induction false} Pow2Add(a: nat, b: nat)
    ensures Pow2(a + b) == Pow2(a) * Pow2(b)
  {
    if a > 0 {
      Pow2Add(a - 1, b);
      assert Pow2(a + b) == 2 * (Pow2(a - 1) * Pow2(b));
    }
  }

  lemma DivMul(v: nat, p: nat)
    requires p > 0
    ensures v * p / p == v
  {
    DivUnique(v * p, p, v, 0);
  }

  lemma MulAtLeast(a: int, d: int)
    requires a >= 1 && d > 0
    ensures a * d >= d
  {
    assert a * d == (a - 1) * d + d;
  }

  lemma MulMinus(a: int, b: int, d: int)
    ensures (a - b) * d == a * d - b * d
  {
  }

  /** Quotient and remainder are unique. */
  lemma DivUnique(x: int, d: int, q: int, r: int)
    requires d > 0 && x == q * d + r && 0 <= r < d
    ensures x / d == q && x % d == r
  {
    var q', r' := x / d, x % d;
    assert x == q' * d + r';
    MulMinus(q, q', d);
    MulMinus(q', q, d);
    if q > q' {
      MulAtLeast(q - q', d);
    } else if q < q' {
      MulAtLeast(q' - q, d);
    }
  }

  lemma Nested(q: int, b: int, s: int, a: int, r: int)
    ensures (q * b + s) * a + r == q * (a * b) + (s * a + r)
  {
    assert (q * b + s) * a == q * b * a + s * a;
    assert q * b * a == q * (a * b);
  }

  lemma BelowProduct(s: nat, b: nat, a: nat, r: nat)
    requires s < b && r < a
    ensures 0 <= s * a + r < a * b
  {
    MulAtLeast(b - s, a);
    MulMinus(b, s, a);
  }

  lemma DivDiv(v: nat, a: nat, b: nat)
    requires a > 0 && b > 0
    ensures a * b > 0 && v / a / b == v / (a * b)
  {
    var q := v / a;
    var r := v % a;
    var q2 := q / b;
    var r2 := q % b;
    Nested(q2, b, r2, a, r);
    BelowProduct(r2, b, a, r);
    DivUnique(v, a * b, q2, r2 * a + r);
  }

  ghost predicate AllBelow(ds: seq<nat>, w: nat) {
    forall k :: 0 <= k < |ds| ==> ds[k] < Pow2(w)
  }

  /** The number whose base 2^w digits are ds. */
  ghost function Value(ds: seq<nat>, w: nat): nat {
    if ds == [] then 0 else Value(ds[..|ds| - 1], w) * Pow2(w) + ds[|ds| - 1]
  }

  lemma ValueSnoc(ds: seq<nat>, d: nat, w: nat)
    ensures Value(ds + [d], w) == Value(ds, w) * Pow2(w) + d
  {
    assert (ds + [d])[..|ds|] == ds;
  }

  /** Digits of one width and equal length are determined by their value. */
  lemma {:induction false} ValueInjective(xs: seq<nat>, ys: seq<nat>, w: nat)
    requires |xs| == |ys| && AllBelow(xs, w) && AllBelow(ys, w) && Value(xs, w) == Value(ys, w)
    ensures xs == ys
  {
    if xs != [] {
      var n := |xs| - 1;
      DivUnique(Value(xs, w), Pow2(w), Value(xs[..n], w), xs[n]);
      DivUnique(Value(ys, w), Pow2(w), Value(ys[..n], w), ys[n]);
      ValueInjective(xs[..n], ys[..n], w);
      assert xs == xs[..n] + [xs[n]] && ys == ys[..n] + [ys[n]];
    }
  }
}
