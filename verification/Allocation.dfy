/** Largest-remainder allocation of an integer pool (forecast_engine._allocate_integer_pool_by_weights),
    in exact arithmetic. */
module Allocation {
  import opened Ordering

  datatype Item = Item(id: string, weight: real)

  /** One item's rounded-down share and what was rounded away. */
  datatype Share = Share(id: string, base: int, part: real)

  // ---- Sums --------------------------------------------------------------------------------------------

  function Sum(xs: seq<real>): real {
    if xs == [] then 0.0 else xs[0] + Sum(xs[1..])
  }

  lemma {:induction false} SumCut(xs: seq<real>, k: nat)
    requires k < |xs|
    ensures Sum(xs) == xs[k] + Sum(xs[..k] + xs[k + 1..])
  {
    if k == 0 {
      assert xs[..0] + xs[1..] == xs[1..];
    } else {
      SumCut(xs[1..], k - 1);
      assert (xs[..k] + xs[k + 1..])[1..] == xs[1..][..k - 1] + xs[1..][k..];
    }
  }

  lemma {:induction false} SumPermutes(xs: seq<real>, ys: seq<real>)
    requires multiset(xs) == multiset(ys)
    ensures Sum(xs) == Sum(ys)
  {
    SameLength(xs, ys);
    if xs != [] {
      var k := Plucked(xs, ys);
      SumCut(ys, k);
      SumPermutes(xs[1..], ys[..k] + ys[k + 1..]);
    }
  }

  // ---- Weights and shares ------------------------------------------------------------------------------

  function Positive(w: real): real {
    if w > 0.0 then w else 0.0
  }

  function Weights(items: seq<Item>): (ws: seq<real>)
    ensures |ws| == |items|
  {
    seq(|items|, k requires 0 <= k < |items| => Positive(items[k].weight))
  }

  /** Negative weights count as zero; when none is positive all count the same. */
  function Effective(items: seq<Item>): (ws: seq<real>)
    ensures |ws| == |items|
  {
    if Sum(Weights(items)) > 0.0 then Weights(items) else seq(|items|, k => 1.0)
  }

  function Quota(w: real, all: real, total: int): real
    requires all > 0.0
  {
    w / all * (total as real)
  }

  function ShareOf(id: string, quota: real): Share {
    Share(id, quota.Floor, quota - quota.Floor as real)
  }

  lemma {:induction false} SumNonNegative(xs: seq<real>)
    requires forall k :: 0 <= k < |xs| ==> xs[k] >= 0.0
    ensures Sum(xs) >= 0.0
    ensures forall k :: 0 <= k < |xs| ==> xs[k] <= Sum(xs)
  {
    if xs != [] {
      SumNonNegative(xs[1..]);
      forall k | 1 <= k < |xs| ensures xs[k] <= Sum(xs) {
        assert xs[k] == xs[1..][k - 1];
      }
    }
  }

  lemma EffectivePositive(items: seq<Item>)
    requires items != []
    ensures Sum(Effective(items)) > 0.0
    ensures forall k :: 0 <= k < |items| ==> Effective(items)[k] >= 0.0
  {
    if Sum(Weights(items)) <= 0.0 {
      var ones := seq(|items|, k => 1.0);
      SumNonNegative(ones);
      assert ones[0] == 1.0;
    }
  }

  /** The spec of the shares, given the effective weights and their sum. */
  function SharesOf(items: seq<Item>, ws: seq<real>, all: real, total: int): (shares: seq<Share>)
    requires |ws| == |items| && all > 0.0
    ensures |shares| == |items|
  {
    seq(|items|, k requires 0 <= k < |items| => ShareOf(items[k].id, Quota(ws[k], all, total)))
  }

  function Shares(items: seq<Item>, total: int): (shares: seq<Share>)
    requires items != []
    ensures |shares| == |items|
  {
    EffectivePositive(items);
    SharesOf(items, Effective(items), Sum(Effective(items)), total)
  }

  function Parts(shares: seq<Share>): (ps: seq<real>)
    ensures |ps| == |shares|
  {
    seq(|shares|, k requires 0 <= k < |shares| => shares[k].part)
  }

  function BaseSum(shares: seq<Share>): int {
    if shares == [] then 0 else shares[0].base + BaseSum(shares[1..])
  }

  lemma QuotaAdds(a: real, b: real, all: real, total: int)
    requires all > 0.0
    ensures Quota(a + b, all, total) == Quota(a, all, total) + Quota(b, all, total)
  {
    assert (a + b) / all == a / all + b / all;
    Distributes(a / all, b / all, total as real);
  }

  lemma Distributes(x: real, y: real, t: real)
    ensures (x + y) * t == x * t + y * t
  {
  }

  lemma {:induction false} SharesAdd(items: seq<Item>, ws: seq<real>, all: real, total: int)
    requires |ws| == |items| && all > 0.0
    ensures
      var shares := SharesOf(items, ws, all, total);
      BaseSum(shares) as real + Sum(Parts(shares)) == Quota(Sum(ws), all, total)
  {
    var shares := SharesOf(items, ws, all, total);
    if items == [] {
      assert Quota(0.0, all, total) == 0.0;
    } else {
      SharesAdd(items[1..], ws[1..], all, total);
      hide Quota;
      assert shares[1..] == SharesOf(items[1..], ws[1..], all, total);
      assert Parts(shares)[1..] == Parts(shares[1..]);
      QuotaAdds(ws[0], Sum(ws[1..]), all, total);
    }
  }

  lemma QuotaOfAll(all: real, total: int)
    requires all > 0.0
    ensures Quota(all, all, total) == total as real
  {
    assert all / all == 1.0;
  }

  /** Bases and parts together make the pool. */
  lemma SharesMakeTotal(items: seq<Item>, total: int)
    requires items != []
    ensures BaseSum(Shares(items, total)) as real + Sum(Parts(Shares(items, total))) == total as real
  {
    EffectivePositive(items);
    hide Effective, Sum, SharesOf, BaseSum, Parts, Quota;
    var ws := Effective(items);
    SharesAdd(items, ws, Sum(ws), total);
    QuotaOfAll(Sum(ws), total);
  }

  /** Item k's exact share of the pool. */
  function QuotaOf(items: seq<Item>, total: int, k: nat): real
    requires k < |items|
  {
    EffectivePositive(items);
    Quota(Effective(items)[k], Sum(Effective(items)), total)
  }

  lemma PartsBelowOne(items: seq<Item>, total: int, k: nat)
    requires k < |items|
    ensures 0.0 <= Shares(items, total)[k].part < 1.0
  {
    hide Quota, Effective;
  }

  // ---- Who gets one more -------------------------------------------------------------------------------

  /** Larger part first, then the smaller id. */
  predicate Sooner(a: Share, b: Share) {
    a.part > b.part || (a.part == b.part && a.id != b.id && StringLeq(a.id, b.id))
      || (a.part == b.part && a.id == b.id && a.base <= b.base)
  }

  lemma SoonerTotal()
    ensures TotalOrder(Sooner)
  {
    StringsOrdered();
    hide StringLeq;
  }

  function Ranked(shares: seq<Share>): seq<Share> {
    Sort(shares, Sooner)
  }

  function BaseTotal(items: seq<Item>, total: int): int
    requires items != []
  {
    BaseSum(Shares(items, total))
  }

  /** How many items get one more: what the bases leave of the pool. */
  function Extra(items: seq<Item>, total: int): (e: nat)
    requires items != []
    ensures e < |items|
  {
    ExtraBounds(items, total);
    total - BaseTotal(items, total)
  }

  lemma {:induction false} SumBelowLength(xs: seq<real>)
    requires forall k :: 0 <= k < |xs| ==> 0.0 <= xs[k] < 1.0
    ensures 0.0 <= Sum(xs) <= |xs| as real
    ensures xs != [] ==> Sum(xs) < |xs| as real
  {
    if xs != [] {
      SumBelowLength(xs[1..]);
    }
  }

  lemma ExtraBounds(items: seq<Item>, total: int)
    requires items != []
    ensures 0 <= total - BaseTotal(items, total) < |items|
    ensures (total - BaseTotal(items, total)) as real == Sum(Parts(Shares(items, total)))
  {
    SharesMakeTotal(items, total);
    forall k | 0 <= k < |items| ensures 0.0 <= Parts(Shares(items, total))[k] < 1.0 {
      PartsBelowOne(items, total, k);
    }
    SumBelowLength(Parts(Shares(items, total)));
  }

  function Winners(items: seq<Item>, total: int): (w: seq<Share>)
    requires items != []
    ensures |w| == Extra(items, total)
  {
    SortKeeps(Shares(items, total), Sooner);
    Ranked(Shares(items, total))[..Extra(items, total)]
  }

  function Give(s: Share, winners: seq<Share>): int {
    s.base + if s in winners then 1 else 0
  }

  ghost predicate DistinctIds(items: seq<Item>) {
    forall i, j :: 0 <= i < j < |items| ==> items[i].id != items[j].id
  }

  /** What the allocation is, for distinct ids: the rounded-down share, and one more for the winners. */
  ghost predicate Allotment(items: seq<Item>, total: int, allocations: map<string, int>)
    requires items != []
  {
    && (forall id :: id in allocations <==> exists k :: 0 <= k < |items| && items[k].id == id)
    && forall k :: 0 <= k < |items| ==>
         items[k].id in allocations
         && allocations[items[k].id] == Give(Shares(items, total)[k], Winners(items, total))
  }

  // ---- The pool is spent exactly -----------------------------------------------------------------------

  function GiveSum(shares: seq<Share>, winners: seq<Share>): int {
    if shares == [] then 0 else Give(shares[0], winners) + GiveSum(shares[1..], winners)
  }

  lemma {:induction false} GiveSumSplit(xs: seq<Share>, ys: seq<Share>, winners: seq<Share>)
    ensures GiveSum(xs + ys, winners) == GiveSum(xs, winners) + GiveSum(ys, winners)
  {
    if xs == [] {
      assert xs + ys == ys;
    } else {
      assert (xs + ys)[1..] == xs[1..] + ys;
      GiveSumSplit(xs[1..], ys, winners);
    }
  }

  lemma {:induction false} GiveSumPermutes(xs: seq<Share>, ys: seq<Share>, winners: seq<Share>)
    requires multiset(xs) == multiset(ys)
    ensures GiveSum(xs, winners) == GiveSum(ys, winners)
  {
    SameLength(xs, ys);
    if xs != [] {
      var k := Plucked(xs, ys);
      GiveSumPermutes(xs[1..], ys[..k] + ys[k + 1..], winners);
      GiveSumCut(ys, k, winners);
    }
  }

  lemma GiveSumCut(ys: seq<Share>, k: nat, winners: seq<Share>)
    requires k < |ys|
    ensures GiveSum(ys, winners) == Give(ys[k], winners) + GiveSum(ys[..k] + ys[k + 1..], winners)
  {
    hide Give;
    GiveSumSplit(ys[..k], ys[k + 1..], winners);
    GiveSumSplit(ys[..k], ys[k..], winners);
    assert ys == ys[..k] + ys[k..] && ys[k..][0] == ys[k] && ys[k..][1..] == ys[k + 1..];
  }

  /** Everyone in the list wins, or no one does. */
  lemma {:induction false} GiveAll(shares: seq<Share>, winners: seq<Share>)
    requires forall k :: 0 <= k < |shares| ==> shares[k] in winners
    ensures GiveSum(shares, winners) == BaseSum(shares) + |shares|
  {
    if shares != [] {
      assert shares[0] in winners;
      forall k | 0 <= k < |shares[1..]| ensures shares[1..][k] in winners {
        assert shares[1..][k] == shares[k + 1];
      }
      GiveAll(shares[1..], winners);
    }
  }

  lemma {:induction false} GiveNone(shares: seq<Share>, winners: seq<Share>)
    requires forall k :: 0 <= k < |shares| ==> shares[k] !in winners
    ensures GiveSum(shares, winners) == BaseSum(shares)
  {
    if shares != [] {
      assert shares[0] !in winners;
      forall k | 0 <= k < |shares[1..]| ensures shares[1..][k] !in winners {
        assert shares[1..][k] == shares[k + 1];
      }
      GiveNone(shares[1..], winners);
    }
  }

  lemma GiveLeading(ranked: seq<Share>, e: nat)
    requires e <= |ranked| && Distinct(ranked)
    ensures GiveSum(ranked, ranked[..e]) == BaseSum(ranked) + e
  {
    var winners := ranked[..e];
    forall k | e <= k < |ranked| ensures ranked[k] !in winners {
    }
    GiveAll(ranked[..e], winners);
    GiveNone(ranked[e..], winners);
    GiveSumSplit(ranked[..e], ranked[e..], winners);
    GiveSumSplit(ranked[..e], ranked[e..], []);
    GiveNone(ranked[..e], []);
    GiveNone(ranked[e..], []);
    GiveNone(ranked, []);
    assert ranked == ranked[..e] + ranked[e..];
  }

  lemma SharesDistinct(items: seq<Item>, total: int)
    requires items != [] && DistinctIds(items)
    ensures Distinct(Shares(items, total))
  {
    hide Quota, Effective;
    var shares := Shares(items, total);
    forall i, j | 0 <= i < j < |shares| ensures shares[i] != shares[j] {
      assert shares[i].id == items[i].id && shares[j].id == items[j].id;
    }
  }

  /** The shares given add up to the pool. */
  lemma SharesSpendPool(items: seq<Item>, total: int)
    requires items != [] && DistinctIds(items)
    ensures GiveSum(Shares(items, total), Winners(items, total)) == total
  {
    var shares := Shares(items, total);
    var ranked := Ranked(shares);
    SharesDistinct(items, total);
    hide Shares, Sort, Sooner;
    SortKeeps(shares, Sooner);
    KeepsDistinct(shares, ranked);
    GiveLeading(ranked, Extra(items, total));
    GiveSumPermutes(shares, ranked, Winners(items, total));
    GiveSumPermutes(shares, ranked, []);
    GiveNone(shares, []);
    GiveNone(ranked, []);
  }

  function AllocatedTo(items: seq<Item>, allocations: map<string, int>): int {
    if items == [] then 0
    else (if items[0].id in allocations then allocations[items[0].id] else 0) + AllocatedTo(items[1..], allocations)
  }

  lemma {:induction false} AllocatedIsGiven(items: seq<Item>, allocations: map<string, int>, shares: seq<Share>,
                                            winners: seq<Share>)
    requires |shares| == |items|
    requires forall k :: 0 <= k < |items| ==>
              items[k].id in allocations && allocations[items[k].id] == Give(shares[k], winners)
    ensures AllocatedTo(items, allocations) == GiveSum(shares, winners)
  {
    hide Give;
    if items != [] {
      AllocatedIsGiven(items[1..], allocations, shares[1..], winners);
    }
  }

  /** The allocation spends exactly the pool. */
  lemma PoolIsSpent(items: seq<Item>, total: int, allocations: map<string, int>)
    requires items != [] && DistinctIds(items) && Allotment(items, total, allocations)
    ensures AllocatedTo(items, allocations) == total
  {
    hide Give, Shares, Winners;
    AllocatedIsGiven(items, allocations, Shares(items, total), Winners(items, total));
    SharesSpendPool(items, total);
  }

  // ---- Each share is its quota rounded -----------------------------------------------------------------

  lemma {:induction false} SortedPrefixBelow(ranked: seq<Share>, k: nat)
    requires k <= |ranked| && forall i :: 0 <= i < |ranked| ==> 0.0 <= ranked[i].part < 1.0
    requires forall i :: k <= i < |ranked| ==> ranked[i].part == 0.0
    ensures Sum(Parts(ranked)) <= k as real
    ensures k > 0 ==> Sum(Parts(ranked)) < k as real
  {
    if ranked != [] {
      assert Parts(ranked)[1..] == Parts(ranked[1..]);
      if k > 0 {
        SortedPrefixBelow(ranked[1..], k - 1);
      } else {
        assert ranked[0].part == 0.0;
        SortedPrefixBelow(ranked[1..], 0);
      }
    }
  }

  lemma PartsPermute(xs: seq<Share>, ys: seq<Share>)
    requires multiset(xs) == multiset(ys)
    ensures Sum(Parts(xs)) == Sum(Parts(ys))
  {
    MapPermutes(xs, ys, PartOf);
    assert Parts(xs) == Map(PartOf, xs) && Parts(ys) == Map(PartOf, ys);
    SumPermutes(Parts(xs), Parts(ys));
  }

  function PartOf(s: Share): real {
    s.part
  }

  function Map<A, B>(f: A -> B, xs: seq<A>): (ys: seq<B>)
    ensures |ys| == |xs|
  {
    seq(|xs|, k requires 0 <= k < |xs| => f(xs[k]))
  }

  lemma MapCut<A, B>(ys: seq<A>, k: nat, f: A -> B)
    requires k < |ys|
    ensures multiset(Map(f, ys)) == multiset{f(ys[k])} + multiset(Map(f, ys[..k] + ys[k + 1..]))
  {
    assert Map(f, ys) == Map(f, ys[..k]) + [f(ys[k])] + Map(f, ys[k + 1..]);
    assert Map(f, ys[..k] + ys[k + 1..]) == Map(f, ys[..k]) + Map(f, ys[k + 1..]);
  }

  lemma {:induction false} MapPermutes<A, B>(xs: seq<A>, ys: seq<A>, f: A -> B)
    requires multiset(xs) == multiset(ys)
    ensures multiset(Map(f, xs)) == multiset(Map(f, ys))
  {
    SameLength(xs, ys);
    if xs != [] {
      var k := Plucked(xs, ys);
      var rest := ys[..k] + ys[k + 1..];
      MapPermutes(xs[1..], rest, f);
      MapCut(ys, k, f);
      assert Map(f, xs) == [f(xs[0])] + Map(f, xs[1..]);
    } else {
      assert ys == [];
    }
  }

  /** Only items with something rounded away can win. */
  lemma WinnersRoundUp(items: seq<Item>, total: int, k: nat)
    requires items != [] && k < Extra(items, total)
    ensures Winners(items, total)[k].part > 0.0
  {
    var shares := Shares(items, total);
    forall i | 0 <= i < |shares| ensures 0.0 <= shares[i].part < 1.0 {
      PartsBelowOne(items, total, i);
    }
    ExtraBounds(items, total);
    hide Shares, StringLeq, Sort;
    var ranked := Ranked(shares);
    SortKeeps(shares, Sooner);
    SoonerTotal();
    SortSorts(shares, Sooner);
    forall i | 0 <= i < |ranked| ensures 0.0 <= ranked[i].part < 1.0 {
      MemberOf(ranked, i);
      assert ranked[i] in shares;
    }
    if ranked[k].part == 0.0 {
      forall i | k <= i < |ranked| ensures ranked[i].part == 0.0 {
        assert i == k || Sooner(ranked[k], ranked[i]);
      }
      PartsPermute(shares, ranked);
      SortedPrefixBelow(ranked, k);
    }
  }

  /** Each amount is its quota rounded down, or rounded up when the quota is not whole. */
  lemma SharesAreRounded(items: seq<Item>, total: int, allocations: map<string, int>, k: nat)
    requires items != [] && Allotment(items, total, allocations) && k < |items|
    ensures
      var quota := QuotaOf(items, total, k);
      var amount := allocations[items[k].id] as real;
      amount == quota || quota - 1.0 < amount < quota + 1.0
  {
    var s := Shares(items, total)[k];
    hide Quota, Effective;
    PartsBelowOne(items, total, k);
    if s in Winners(items, total) {
      var j :| 0 <= j < |Winners(items, total)| && Winners(items, total)[j] == s;
      WinnersRoundUp(items, total, j);
    }
  }

  /** A weight that does not count gets nothing. */
  lemma ZeroGetsNothing(items: seq<Item>, total: int, allocations: map<string, int>, k: nat)
    requires items != [] && Allotment(items, total, allocations) && k < |items|
    requires Sum(Weights(items)) > 0.0 && items[k].weight <= 0.0
    ensures allocations[items[k].id] == 0
  {
    SharesAreRounded(items, total, allocations, k);
    EffectivePositive(items);
    assert Effective(items)[k] == 0.0;
    assert Quota(0.0, Sum(Effective(items)), total) == 0.0;
  }

  // ---- Heavier items -----------------------------------------------------------------------------------

  lemma QuotaGrows(v: real, w: real, all: real, total: int)
    requires all > 0.0 && total > 0 && v < w
    ensures Quota(v, all, total) < Quota(w, all, total)
  {
    assert v / all < w / all;
    Scales(v / all, w / all, total as real);
  }

  lemma Scales(x: real, y: real, t: real)
    requires x < y && t > 0.0
    ensures x * t < y * t
  {
  }

  /** Of two items with one base, the one with the larger part wins whenever the other does. */
  lemma LargerPartWins(items: seq<Item>, total: int, s: Share, t: Share)
    requires items != [] && s in Shares(items, total) && t in Winners(items, total) && s.part > t.part
    ensures s in Winners(items, total)
  {
    hide Shares, StringLeq, Sort;
    var shares := Shares(items, total);
    var ranked := Ranked(shares);
    SortKeeps(shares, Sooner);
    SoonerTotal();
    SortSorts(shares, Sooner);
    assert s in multiset(ranked);
    var b :| 0 <= b < |ranked| && ranked[b] == s;
    var a :| 0 <= a < Extra(items, total) && ranked[a] == t;
    if b < a {
      assert Winners(items, total)[b] == s;
    }
  }

  /** When some weight counts, a strictly heavier item never gets less. */
  lemma HeavierGetsNoLess(items: seq<Item>, total: int, allocations: map<string, int>, i: nat, j: nat)
    requires items != [] && total > 0 && Allotment(items, total, allocations) && i < |items| && j < |items|
    requires Sum(Weights(items)) > 0.0 && items[i].weight > items[j].weight
    ensures allocations[items[i].id] >= allocations[items[j].id]
  {
    if items[i].weight <= 0.0 {
      ZeroGetsNothing(items, total, allocations, i);
      ZeroGetsNothing(items, total, allocations, j);
    } else {
      EffectivePositive(items);
      assert Effective(items)[i] > Effective(items)[j];
      hide Effective;
      QuotaGrows(Effective(items)[j], Effective(items)[i], Sum(Effective(items)), total);
      var s, t := Shares(items, total)[i], Shares(items, total)[j];
      FloorGrows(QuotaOf(items, total, j), QuotaOf(items, total, i));
      if s.base == t.base && t in Winners(items, total) {
        assert s in Shares(items, total);
        hide Winners, Shares;
        LargerPartWins(items, total, s, t);
      }
    }
  }

  lemma FloorGrows(x: real, y: real)
    requires x < y
    ensures x.Floor <= y.Floor
  {
  }

  // ---- Input order -------------------------------------------------------------------------------------

  function WeightOf(item: Item): real {
    Positive(item.weight)
  }

  function EffectiveOf(item: Item, counts: bool): real {
    if counts then WeightOf(item) else 1.0
  }

  lemma EffectiveMaps(items: seq<Item>)
    ensures Weights(items) == Map(WeightOf, items)
    ensures forall k :: 0 <= k < |items| ==> Effective(items)[k] == EffectiveOf(items[k], Sum(Weights(items)) > 0.0)
  {
    hide Sum;
    forall k | 0 <= k < |items| ensures Map(WeightOf, items)[k] == Weights(items)[k] {
      assert Map(WeightOf, items)[k] == WeightOf(items[k]);
    }
  }

  lemma EffectivePermutes(items: seq<Item>, others: seq<Item>)
    requires multiset(items) == multiset(others)
    ensures (Sum(Weights(items)) > 0.0) == (Sum(Weights(others)) > 0.0)
    ensures Sum(Effective(items)) == Sum(Effective(others))
  {
    SameLength(items, others);
    EffectiveMaps(items);
    EffectiveMaps(others);
    MapPermutes(items, others, WeightOf);
    SumPermutes(Weights(items), Weights(others));
    var counts := Sum(Weights(items)) > 0.0;
    var f := (item: Item) => EffectiveOf(item, counts);
    hide Sum;
    MapPermutes(items, others, f);
    assert Effective(items) == Map(f, items) && Effective(others) == Map(f, others);
    SumPermutes(Effective(items), Effective(others));
  }

  function ShareFor(item: Item, counts: bool, all: real, total: int): Share
    requires all > 0.0
  {
    ShareOf(item.id, Quota(EffectiveOf(item, counts), all, total))
  }

  lemma SharesPermute(items: seq<Item>, others: seq<Item>, total: int)
    requires items != [] && others != [] && multiset(items) == multiset(others)
    ensures multiset(Shares(items, total)) == multiset(Shares(others, total))
  {
    EffectivePermutes(items, others);
    EffectivePositive(items);
    EffectivePositive(others);
    var counts, all := Sum(Weights(items)) > 0.0, Sum(Effective(items));
    var f := (item: Item) => if all > 0.0 then ShareFor(item, counts, all, total) else Share("", 0, 0.0);
    SharesMap(items, total, counts, all, f);
    SharesMap(others, total, counts, all, f);
    MapPermutes(items, others, f);
  }

  lemma SharesMap(items: seq<Item>, total: int, counts: bool, all: real, f: Item -> Share)
    requires items != [] && counts == (Sum(Weights(items)) > 0.0) && all == Sum(Effective(items)) && all > 0.0
    requires forall item :: f(item) == ShareFor(item, counts, all, total)
    ensures Shares(items, total) == Map(f, items)
  {
    hide Quota;
    forall k | 0 <= k < |items| ensures Shares(items, total)[k] == f(items[k]) {
      assert Effective(items)[k] == EffectiveOf(items[k], counts);
    }
  }

  lemma WinnersPermute(items: seq<Item>, others: seq<Item>, total: int)
    requires items != [] && others != [] && multiset(items) == multiset(others)
    ensures Winners(items, total) == Winners(others, total)
  {
    var xs, ys := Shares(items, total), Shares(others, total);
    SharesPermute(items, others, total);
    ExtraBounds(items, total);
    ExtraBounds(others, total);
    hide Shares, Sort, Sooner;
    PartsPermute(xs, ys);
    SoonerTotal();
    SortForgets(xs, ys, Sooner);
  }

  /** The order of the items does not matter. */
  lemma OrderIsForgotten(items: seq<Item>, others: seq<Item>, total: int, a: map<string, int>, b: map<string, int>)
    requires items != [] && others != [] && multiset(items) == multiset(others)
    requires Allotment(items, total, a) && Allotment(others, total, b)
    ensures a == b
  {
    hide Allotment;
    SharesPermute(items, others, total);
    WinnersPermute(items, others, total);
    PermutedGiven(items, others, total, a, b);
    PermutedGiven(others, items, total, b, a);
  }

  /** What one order gives an item, the other gives it too. */
  lemma PermutedGiven(items: seq<Item>, others: seq<Item>, total: int, a: map<string, int>, b: map<string, int>)
    requires items != [] && others != [] && Allotment(items, total, a) && Allotment(others, total, b)
    requires multiset(Shares(items, total)) == multiset(Shares(others, total))
    requires Winners(items, total) == Winners(others, total)
    ensures forall id :: id in a ==> id in b && a[id] == b[id]
  {
    hide Winners, Give, Shares;
    forall id | id in a ensures id in b && a[id] == b[id] {
      var i :| 0 <= i < |items| && items[i].id == id;
      SameShare(items, others, total, i);
      var j :| 0 <= j < |others| && Shares(others, total)[j] == Shares(items, total)[i];
      ShareHasId(items, total, i);
      ShareHasId(others, total, j);
    }
  }

  lemma ShareHasId(items: seq<Item>, total: int, i: nat)
    requires i < |items|
    ensures Shares(items, total)[i].id == items[i].id
  {
    hide Quota, Effective;
  }

  lemma SameShare(items: seq<Item>, others: seq<Item>, total: int, i: nat)
    requires items != [] && others != [] && i < |items|
    requires multiset(Shares(items, total)) == multiset(Shares(others, total))
    ensures exists j :: 0 <= j < |others| && Shares(others, total)[j] == Shares(items, total)[i]
  {
    hide Shares;
    MemberOf(Shares(items, total), i);
    assert Shares(items, total)[i] in Shares(others, total);
  }

  // ---- The algorithm -----------------------------------------------------------------------------------

  method AllocatePool(items: seq<Item>, total: int) returns (allocations: map<string, int>)
    ensures items != [] && total > 0 && DistinctIds(items) ==> Allotment(items, total, allocations)
    ensures items == [] || total <= 0 ==> forall id :: id in allocations ==> allocations[id] == 0
    ensures forall id :: id in allocations <==> exists k :: 0 <= k < |items| && items[k].id == id
  {
    allocations := map k | 0 <= k < |items| :: items[k].id := 0;
    if total <= 0 || items == [] {
      return;
    }
    var ws, all := WeighAll(items);
    EffectivePositive(items);
    hide Effective, Sum;
    var spent, remainders;
    allocations, spent, remainders := RoundDown(items, ws, all, total, allocations);
    assert remainders == Shares(items, total);
    hide SharesOf, Shares;
    ExtraBounds(items, total);
    SortKeeps(remainders, Sooner);
    var winners := Ranked(remainders)[..total - spent];
    assert winners == Winners(items, total);
    allocations := HandOut(items, total, allocations, winners);
  }

  /** Give every item its share rounded down, and note what was rounded away. */
  method RoundDown(items: seq<Item>, ws: seq<real>, all: real, total: int, zeros: map<string, int>)
    returns (allocations: map<string, int>, spent: int, remainders: seq<Share>)
    requires |ws| == |items| && all > 0.0
    requires forall k :: 0 <= k < |items| ==> items[k].id in zeros
    ensures remainders == SharesOf(items, ws, all, total) && spent == BaseSum(remainders)
    ensures allocations.Keys == zeros.Keys
    ensures DistinctIds(items) ==> forall i :: 0 <= i < |items| ==> allocations[items[i].id] == remainders[i].base
  {
    hide Quota, BaseSum;
    allocations, spent, remainders := zeros, 0, [];
    BaseSumNone();
    for k := 0 to |items|
      invariant remainders == SharesOf(items[..k], ws[..k], all, total) && spent == BaseSum(remainders)
      invariant allocations.Keys == zeros.Keys
      invariant DistinctIds(items) ==> forall i :: 0 <= i < k ==> allocations[items[i].id] == remainders[i].base
    {
      var s := ShareOf(items[k].id, Quota(ws[k], all, total));
      allocations := allocations[items[k].id := s.base];
      spent := spent + s.base;
      BaseSumSnoc(remainders, s);
      remainders := remainders + [s];
      assert items[..k + 1] == items[..k] + [items[k]] && ws[..k + 1] == ws[..k] + [ws[k]];
    }
    assert items[..|items|] == items && ws[..|items|] == ws;
  }

  lemma BaseSumNone()
    ensures BaseSum([]) == 0
  {
  }

  lemma {:induction false} BaseSumSnoc(shares: seq<Share>, s: Share)
    ensures BaseSum(shares + [s]) == BaseSum(shares) + s.base
  {
    if shares != [] {
      assert (shares + [s])[1..] == shares[1..] + [s];
      BaseSumSnoc(shares[1..], s);
    }
  }

  /** The weights the shares are taken by, and their sum. */
  method WeighAll(items: seq<Item>) returns (ws: seq<real>, all: real)
    requires items != []
    ensures ws == Effective(items) && all == Sum(ws)
  {
    ws, all := [], 0.0;
    for k := 0 to |items|
      invariant ws == Weights(items)[..k] && all == Sum(ws)
    {
      SumSnoc(ws, Positive(items[k].weight));
      ws, all := ws + [Positive(items[k].weight)], all + Positive(items[k].weight);
    }
    assert ws == Weights(items);
    if all <= 0.0 {
      ws := seq(|items|, k => 1.0);
      all := |items| as real;
      SumOnes(|items|);
    }
  }

  lemma {:induction false} SumSnoc(xs: seq<real>, x: real)
    ensures Sum(xs + [x]) == Sum(xs) + x
  {
    if xs != [] {
      assert (xs + [x])[1..] == xs[1..] + [x];
      SumSnoc(xs[1..], x);
    }
  }

  lemma {:induction false} SumOnes(n: nat)
    ensures Sum(seq(n, k => 1.0)) == n as real
  {
    if n > 0 {
      assert seq(n, k => 1.0)[1..] == seq(n - 1, k => 1.0);
      SumOnes(n - 1);
    }
  }

  /** The leading remainders get one more each. */
  method HandOut(items: seq<Item>, ghost total: int, bases: map<string, int>, winners: seq<Share>)
    returns (allocations: map<string, int>)
    requires items != [] && winners == Winners(items, total)
    requires forall id :: id in bases <==> exists k :: 0 <= k < |items| && items[k].id == id
    requires DistinctIds(items) ==> forall k :: 0 <= k < |items| ==> bases[items[k].id] == Shares(items, total)[k].base
    ensures forall id :: id in allocations <==> exists k :: 0 <= k < |items| && items[k].id == id
    ensures DistinctIds(items) ==> Allotment(items, total, allocations)
  {
    hide Shares, Winners, Distinct, Give;
    allocations := bases;
    WinnersAreShares(items, total);
    GiveNoWinners(items, total);
    for t := 0 to |winners|
      invariant allocations.Keys == bases.Keys
      invariant DistinctIds(items) ==>
        forall k :: 0 <= k < |items| ==> allocations[items[k].id] == Give(Shares(items, total)[k], winners[..t])
    {
      ghost var before := allocations;
      var id := winners[t].id;
      assert id in allocations;
      allocations := allocations[id := allocations[id] + 1];
      if DistinctIds(items) {
        forall k | 0 <= k < |items|
          ensures allocations[items[k].id] == Give(Shares(items, total)[k], winners[..t + 1])
        {
          GiveNext(items, total, winners, t, k);
        }
      }
    }
    assert winners[..|winners|] == winners;
  }

  lemma WinnersAreShares(items: seq<Item>, total: int)
    requires items != []
    ensures forall t :: 0 <= t < |Winners(items, total)| ==> Winners(items, total)[t] in Shares(items, total)
    ensures forall k :: 0 <= k < |items| ==> Shares(items, total)[k].id == items[k].id
    ensures forall t :: 0 <= t < |Winners(items, total)| ==>
              exists k :: 0 <= k < |items| && items[k].id == Winners(items, total)[t].id
    ensures DistinctIds(items) ==> Distinct(Winners(items, total))
  {
    hide Quota, Effective, Sort, Sooner;
    var shares, ranked := Shares(items, total), Ranked(Shares(items, total));
    SortKeeps(shares, Sooner);
    forall t | 0 <= t < |ranked| ensures ranked[t] in shares {
      MemberOf(ranked, t);
    }
    if DistinctIds(items) {
      SharesDistinct(items, total);
      KeepsDistinct(shares, ranked);
    }
    forall t | 0 <= t < |Winners(items, total)|
      ensures exists k :: 0 <= k < |items| && items[k].id == Winners(items, total)[t].id
    {
      assert ranked[t] in shares;
      var k :| 0 <= k < |shares| && shares[k] == ranked[t];
      assert items[k].id == Winners(items, total)[t].id;
    }
  }

  lemma GiveNoWinners(items: seq<Item>, total: int)
    requires items != []
    ensures forall k :: 0 <= k < |items| ==> Give(Shares(items, total)[k], []) == Shares(items, total)[k].base
  {
    hide Shares;
  }

  lemma GiveNext(items: seq<Item>, total: int, winners: seq<Share>, t: nat, k: nat)
    requires items != [] && DistinctIds(items) && t < |winners| && k < |items| && Distinct(winners)
    requires winners[t] in Shares(items, total)
    requires forall i :: 0 <= i < |items| ==> Shares(items, total)[i].id == items[i].id
    ensures Give(Shares(items, total)[k], winners[..t + 1])
              == Give(Shares(items, total)[k], winners[..t]) + if items[k].id == winners[t].id then 1 else 0
  {
    hide Shares;
    var s := Shares(items, total)[k];
    assert winners[..t + 1] == winners[..t] + [winners[t]];
    var i :| 0 <= i < |items| && Shares(items, total)[i] == winners[t];
    assert s == winners[t] <==> i == k;
    assert winners[t] !in winners[..t];
  }
}
