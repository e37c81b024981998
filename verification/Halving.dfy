/** The halving schedule of rewards.py and its exact relation to the promised supply. Amounts are in
    uclaw, a millionth of a CLAW. */
module Halving {
  import opened Powers

  const INITIAL_MINER_POOL := 50_000_000
  const INITIAL_VALIDATOR_POOL := 0
  const HALVING_EPOCHS := 210_000
  const MIN_REWARD := 1

  /** 21 million CLAW. */
  const SUPPLY := 21_000_000_000_000

  function Halvings(epoch: int): nat {
    if epoch < 0 then 0 else epoch / HALVING_EPOCHS
  }

  /** The pool after some halvings: floored at every step, and never below the minimum once halved. */
  function Pool(initial: nat, halvings: nat): nat {
    if halvings == 0 then initial
    else if initial / Pow2(halvings) < MIN_REWARD then MIN_REWARD
    else initial / Pow2(halvings)
  }

  /** The halving loop: one floored halving per era, until the minimum is reached. */
  method HalvedPool(initial: nat, epoch: int) returns (reward: nat)
    ensures reward == Pool(initial, Halvings(epoch))
  {
    hide Pow2;
    var halvings := epoch / HALVING_EPOCHS;
    assert halvings == Halvings(epoch) || (halvings < 0 && Halvings(epoch) == 0);
    hide Halvings;
    PoolNow(initial, 0);
    reward := initial;
    for k := 0 to if halvings < 0 then 0 else halvings
      invariant reward == Pool(initial, k)
    {
      PoolNow(initial, k);
      HalfAgain(initial, k);
      reward := reward / 2;
      if reward < MIN_REWARD {
        StaysBelow(initial, k + 1, halvings);
        reward := MIN_REWARD;
        return;
      }
    }
  }

  lemma PoolNow(initial: nat, k: nat)
    ensures Pow2(0) == 1 && initial / 1 == initial
    ensures k > 0 && initial / Pow2(k) >= MIN_REWARD ==> Pool(initial, k) == initial / Pow2(k)
  {
  }

  lemma HalfAgain(initial: nat, k: nat)
    ensures initial / Pow2(k + 1) == initial / Pow2(k) / 2
  {
    DivDiv(initial, Pow2(k), 2);
    assert Pow2(k + 1) == Pow2(k) * 2;
  }

  lemma {:induction false} StaysBelow(initial: nat, k: nat, n: nat)
    requires k <= n && initial / Pow2(k) == 0
    ensures initial / Pow2(n) == 0
  {
    if k < n {
      StaysBelow(initial, k, n - 1);
      HalfAgain(initial, n - 1);
    }
  }

  method MinerPool(epoch: int) returns (reward: nat)
    ensures reward == Pool(INITIAL_MINER_POOL, Halvings(epoch))
    ensures epoch < HALVING_EPOCHS ==> reward == INITIAL_MINER_POOL
    ensures 1 <= reward <= INITIAL_MINER_POOL
  {
    reward := HalvedPool(INITIAL_MINER_POOL, epoch);
    PoolBounds(INITIAL_MINER_POOL, Halvings(epoch));
  }

  lemma PoolBounds(initial: nat, k: nat)
    requires initial >= 1
    ensures 1 <= Pool(initial, k) <= initial
  {
    DivShrinks(initial, Pow2(k));
  }

  lemma DivShrinks(x: nat, d: nat)
    requires d >= 1
    ensures x / d <= x
  {
    assert x == x / d * d + x % d;
    if x / d > 0 {
      MulAtLeast(d, x / d);
    }
  }

  /** The validators' pool, which the schedule gives nothing at first: the minimum lifts it to one uclaw
      an epoch from the first halving on. */
  method ValidatorPool(epoch: int) returns (reward: nat)
    ensures reward == if epoch < HALVING_EPOCHS then 0 else 1
  {
    reward := HalvedPool(INITIAL_VALIDATOR_POOL, epoch);
    if epoch >= HALVING_EPOCHS {
      NothingHalved(Pow2(Halvings(epoch)));
    }
  }

  lemma NothingHalved(d: nat)
    requires d >= 1
    ensures 0 / d == 0
  {
  }

  // ---- The supply --------------------------------------------------------------------------------------

  /** What miners get in the first n epochs. */
  function Emitted(n: nat): nat {
    if n == 0 then 0 else Emitted(n - 1) + Pool(INITIAL_MINER_POOL, Halvings(n - 1))
  }

  /** One epoch's share of each of the first k eras. */
  function EraSum(k: nat): nat {
    if k == 0 then 0 else EraSum(k - 1) + Pool(INITIAL_MINER_POOL, k - 1)
  }

  lemma EraOf(k: nat, r: nat)
    requires r < HALVING_EPOCHS
    ensures Halvings(HALVING_EPOCHS * k + r) == k
  {
    DivUnique(HALVING_EPOCHS * k + r, HALVING_EPOCHS, k, r);
  }

  /** Inside one era every epoch emits the same. */
  lemma {:induction false} EmittedIntoEra(k: nat, r: nat)
    requires r <= HALVING_EPOCHS
    ensures Emitted(HALVING_EPOCHS * k + r) == HALVING_EPOCHS * EraSum(k) + r * Pool(INITIAL_MINER_POOL, k)
    decreases k, r
  {
    hide Pool;
    if r > 0 {
      EmittedIntoEra(k, r - 1);
      EraOf(k, r - 1);
      assert r * Pool(INITIAL_MINER_POOL, k) == (r - 1) * Pool(INITIAL_MINER_POOL, k) + Pool(INITIAL_MINER_POOL, k);
    } else if k > 0 {
      EmittedIntoEra(k - 1, HALVING_EPOCHS);
      assert HALVING_EPOCHS * (k - 1) + HALVING_EPOCHS == HALVING_EPOCHS * k;
    }
  }

  /** From the 26th halving on the pool is the minimum. */
  lemma {:induction false} LateEras(k: nat)
    requires k >= 26
    ensures Pool(INITIAL_MINER_POOL, k) == 1
  {
    EarlyEras();
    assert INITIAL_MINER_POOL / Pow2(26) == 0;
    StaysBelow(INITIAL_MINER_POOL, 26, k);
  }

  lemma EraStep(k: nat, p: nat, before: nat)
    requires Pow2(k) == p && EraSum(k) == before && p <= INITIAL_MINER_POOL
    ensures Pow2(k + 1) == 2 * p && EraSum(k + 1) == before + INITIAL_MINER_POOL / p
  {
    MinimumReached(p);
  }

  lemma MinimumReached(p: nat)
    requires 1 <= p <= INITIAL_MINER_POOL
    ensures INITIAL_MINER_POOL / p >= 1
  {
  }

  lemma EarlyEras()
    ensures Pow2(26) == 67_108_864 && EraSum(26) == 99_999_988
  {
    hide Pow2, EraSum;
    EraStart();
    EraStep(0, 1, 0);
    EraStep(1, 2, 50_000_000);
    EraStep(2, 4, 75_000_000);
    EraStep(3, 8, 87_500_000);
    EraStep(4, 16, 93_750_000);
    EraStep(5, 32, 96_875_000);
    EraStep(6, 64, 98_437_500);
    EraStep(7, 128, 99_218_750);
    EraStep(8, 256, 99_609_375);
    EraStep(9, 512, 99_804_687);
    EraStep(10, 1_024, 99_902_343);
    EraStep(11, 2_048, 99_951_171);
    EraStep(12, 4_096, 99_975_585);
    EraStep(13, 8_192, 99_987_792);
    EraStep(14, 16_384, 99_993_895);
    EraStep(15, 32_768, 99_996_946);
    EraStep(16, 65_536, 99_998_471);
    EraStep(17, 131_072, 99_999_233);
    EraStep(18, 262_144, 99_999_614);
    EraStep(19, 524_288, 99_999_804);
    EraStep(20, 1_048_576, 99_999_899);
    EraStep(21, 2_097_152, 99_999_946);
    EraStep(22, 4_194_304, 99_999_969);
    EraStep(23, 8_388_608, 99_999_980);
    EraStep(24, 16_777_216, 99_999_985);
    EraStep(25, 33_554_432, 99_999_987);
  }

  lemma EraStart()
    ensures Pow2(0) == 1 && EraSum(0) == 0
  {
  }

  /** After 26 eras each epoch emits one uclaw. */
  lemma {:induction false} LateEmission(m: nat)
    ensures Emitted(HALVING_EPOCHS * 26 + m) == HALVING_EPOCHS * 99_999_988 + m
  {
    if m == 0 {
      EmittedIntoEra(26, 0);
      EarlyEras();
    } else {
      LateEmission(m - 1);
      var e := HALVING_EPOCHS * 26 + m - 1;
      LateEra(e);
      LateEras(Halvings(e));
    }
  }

  lemma LateEra(e: nat)
    requires e >= HALVING_EPOCHS * 26
    ensures Halvings(e) >= 26
  {
  }

  lemma {:induction false} EmissionGrows(m: nat, n: nat)
    requires m <= n
    ensures Emitted(m) <= Emitted(n)
  {
    if m < n {
      EmissionGrows(m, n - 1);
    }
  }

  /** The pools of the first n epochs stay within the promised 21 million CLAW exactly as long as n is at
      most 7,980,000, and reach it to the uclaw there. */
  lemma SupplyBound(n: nat)
    ensures Emitted(n) <= SUPPLY <==> n <= 7_980_000
    ensures Emitted(7_980_000) == SUPPLY
  {
    hide Emitted, Halvings, Pool;
    LateEmission(2_520_000);
    assert HALVING_EPOCHS * 26 + 2_520_000 == 7_980_000;
    if n <= 7_980_000 {
      EmissionGrows(n, 7_980_000);
    } else {
      LateEmission(n - HALVING_EPOCHS * 26);
    }
  }
}
