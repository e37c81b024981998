/** The allocation when no weight is positive, and exactly when a heavier item can get less. */
module EqualAllocation {
  import opened Ordering
  import opened Allocation

  predicate SomeCounts(items: seq<Item>) {
    exists k :: 0 <= k < |items| && items[k].weight > 0.0
  }

  lemma SomeCountsSums(items: seq<Item>)
    ensures Sum(Weights(items)) > 0.0 <==> SomeCounts(items)
  {
    SumNonNegative(Weights(items));
    if SomeCounts(items) {
      var k :| 0 <= k < |items| && items[k].weight > 0.0;
      assert Weights(items)[k] > 0.0;
    } else {
      NoneSums(Weights(items));
    }
  }

  lemma {:induction false} NoneSums(xs: seq<real>)
    requires forall k :: 0 <= k < |xs| ==> xs[k] == 0.0
    ensures Sum(xs) == 0.0
  {
    if xs != [] {
      NoneSums(xs[1..]);
    }
  }

  // ---- One share for all -------------------------------------------------------------------------------

  /** What is left of an even split, to one of n items. */
  function EvenPart(total: int, n: nat): real
    requires n > 0
  {
    1.0 / (n as real) * ((total % n) as real)
  }

  lemma PartBelow(x: real, n: real, r: real, all: real)
    requires x * n == all && x > 0.0 && 0.0 <= r < n
    ensures 0.0 <= x * r < all
  {
    assert x * (n - r) > 0.0;
    assert x * (n - r) == x * n - x * r;
  }

  lemma EvenQuota(total: int, n: nat)
    requires n > 0
    ensures Quota(1.0, n as real, total) == (total / n) as real + EvenPart(total, n)
    ensures 0.0 <= EvenPart(total, n) < 1.0
  {
    var x, q, r := 1.0 / (n as real), total / n, total % n;
    assert x * (n as real) == 1.0;
    PartBelow(x, n as real, r as real, 1.0);
    assert total == n * q + r;
    NatProduct(n, q);
    assert total as real == (n as real) * (q as real) + r as real;
    Regroup(x, n as real, q as real, r as real);
  }

  lemma NatProduct(n: int, q: int)
    ensures (n * q) as real == (n as real) * (q as real)
  {
  }

  lemma Regroup(x: real, n: real, q: real, r: real)
    requires x * n == 1.0
    ensures x * (n * q + r) == q + x * r
  {
    assert x * (n * q + r) == x * (n * q) + x * r;
    assert x * (n * q) == (x * n) * q;
  }

  /** Without a positive weight every share is the even split. */
  lemma EvenShares(items: seq<Item>, total: int, k: nat)
    requires k < |items| && Sum(Weights(items)) <= 0.0
    ensures Shares(items, total)[k] == Share(items[k].id, total / |items|, EvenPart(total, |items|))
  {
    SumOnes(|items|);
    assert Effective(items) == seq(|items|, k => 1.0);
    hide Sum, Weights, Quota, EvenPart;
    EvenQuota(total, |items|);
  }

  lemma {:induction false} EvenBases(shares: seq<Share>, base: int)
    requires forall k :: 0 <= k < |shares| ==> shares[k].base == base
    ensures BaseSum(shares) == |shares| * base
  {
    if shares != [] {
      EvenBases(shares[1..], base);
      assert |shares| * base == base + (|shares| - 1) * base;
    }
  }

  /** As many get one more as the even split leaves over. */
  lemma EvenExtra(items: seq<Item>, total: int)
    requires items != [] && Sum(Weights(items)) <= 0.0
    ensures Extra(items, total) == total % |items|
  {
    forall k | 0 <= k < |items| ensures Shares(items, total)[k].base == total / |items| {
      EvenShares(items, total, k);
    }
    hide Shares, Weights, Sum;
    EvenBases(Shares(items, total), total / |items|);
  }

  // ---- Who gets one more -------------------------------------------------------------------------------

  function IdOf(item: Item): string {
    item.id
  }

  function ShareId(s: Share): string {
    s.id
  }

  function Ids(items: seq<Item>): (ids: seq<string>)
    ensures |ids| == |items| && forall k :: 0 <= k < |items| ==> ids[k] == items[k].id
  {
    Map(IdOf, items)
  }

  function ShareIds(shares: seq<Share>): (ids: seq<string>)
    ensures |ids| == |shares| && forall k :: 0 <= k < |shares| ==> ids[k] == shares[k].id
  {
    Map(ShareId, shares)
  }

  /** The id is among the smallest, as many as the even split leaves over. */
  predicate Favoured(items: seq<Item>, total: int, id: string)
    requires items != []
  {
    SortKeeps(Ids(items), StringLeq);
    id in SortStrings(Ids(items))[..total % |items|]
  }

  /** Equal shares are ranked by their ids. */
  lemma RankedIds(items: seq<Item>, total: int)
    requires items != [] && Sum(Weights(items)) <= 0.0
    ensures ShareIds(Ranked(Shares(items, total))) == SortStrings(Ids(items))
  {
    var shares := Shares(items, total);
    var ranked := Ranked(shares);
    forall k | 0 <= k < |shares| ensures shares[k] == Share(items[k].id, total / |items|, EvenPart(total, |items|)) {
      EvenShares(items, total, k);
    }
    hide Shares, Sort, Weights, Sum, StringLeq, EvenPart;
    SortKeeps(shares, Sooner);
    SoonerTotal();
    SortSorts(shares, Sooner);
    IdsSorted(ranked, shares, total / |items|, EvenPart(total, |items|));
    assert ShareIds(shares) == Ids(items);
    MapPermutes(shares, ranked, ShareId);
    StringsOrdered();
    SortKeeps(Ids(items), StringLeq);
    SortSorts(Ids(items), StringLeq);
    SortedUnique(ShareIds(ranked), SortStrings(Ids(items)), StringLeq);
  }

  lemma IdsSorted(ranked: seq<Share>, shares: seq<Share>, base: int, part: real)
    requires Sorted(ranked, Sooner) && multiset(ranked) == multiset(shares)
    requires forall k :: 0 <= k < |shares| ==> shares[k].base == base && shares[k].part == part
    ensures Sorted(ShareIds(ranked), StringLeq)
  {
    hide StringLeq;
    StringsOrdered();
    forall k | 0 <= k < |ranked| ensures ranked[k].base == base && ranked[k].part == part {
      MemberOf(ranked, k);
      assert ranked[k] in shares;
    }
    var ids := ShareIds(ranked);
    forall i, j | 0 <= i < j < |ids| ensures StringLeq(ids[i], ids[j]) {
      assert Sooner(ranked[i], ranked[j]);
    }
  }

  lemma SharesById(items: seq<Item>, total: int)
    requires items != [] && DistinctIds(items)
    ensures forall i :: 0 <= i < |items| ==> Shares(items, total)[i].id == items[i].id
    ensures forall i, s :: 0 <= i < |items| && s in Shares(items, total) && s.id == items[i].id ==>
              s == Shares(items, total)[i]
  {
    hide Quota, Effective;
  }

  lemma WinnersById(items: seq<Item>, total: int, i: nat)
    requires i < |items| && DistinctIds(items)
    requires Extra(items, total) == total % |items|
    requires ShareIds(Ranked(Shares(items, total))) == SortStrings(Ids(items))
    ensures Shares(items, total)[i] in Winners(items, total) <==> Favoured(items, total, items[i].id)
  {
    SharesById(items, total);
    hide Shares, Sort, Sooner, StringLeq;
    SortKeeps(Shares(items, total), Sooner);
    LeadingById(Ranked(Shares(items, total)), Shares(items, total), SortStrings(Ids(items)), Extra(items, total), i);
  }

  /** A share stands among the leading ones exactly when its id stands among the leading ids. */
  lemma LeadingById(ranked: seq<Share>, shares: seq<Share>, ids: seq<string>, e: nat, i: nat)
    requires multiset(ranked) == multiset(shares) && ShareIds(ranked) == ids && e <= |ranked| && i < |shares|
    requires forall s :: s in shares && s.id == shares[i].id ==> s == shares[i]
    ensures shares[i] in ranked[..e] <==> shares[i].id in ids[..e]
  {
    if shares[i].id in ids[..e] {
      var k :| 0 <= k < e && ids[k] == shares[i].id;
      MemberOf(ranked, k);
      assert ranked[k] in shares;
      assert ranked[..e][k] == shares[i];
    }
    if shares[i] in ranked[..e] {
      var k :| 0 <= k < e && ranked[k] == shares[i];
      assert ids[..e][k] == shares[i].id;
    }
  }

  /** Without a positive weight every item gets the even split, and the smallest ids get what it leaves
      over, one each. */
  lemma EvenSplit(items: seq<Item>, total: int, allocations: map<string, int>, i: nat)
    requires i < |items| && DistinctIds(items) && Allotment(items, total, allocations) && !SomeCounts(items)
    ensures allocations[items[i].id] == total / |items| + if Favoured(items, total, items[i].id) then 1 else 0
  {
    SomeCountsSums(items);
    hide Weights, Sum, SomeCounts;
    EvenShares(items, total, i);
    EvenExtra(items, total);
    RankedIds(items, total);
    WinnersById(items, total, i);
  }

  /** A heavier item gets no less exactly when some weight is positive, or the lighter one is not favoured
      over it by what the even split leaves over. */
  lemma HeavierGetsNoLessIff(items: seq<Item>, total: int, allocations: map<string, int>, i: nat, j: nat)
    requires i < |items| && j < |items| && total > 0 && DistinctIds(items) && Allotment(items, total, allocations)
    requires items[i].weight > items[j].weight
    ensures allocations[items[i].id] >= allocations[items[j].id]
              <==>
              || SomeCounts(items)
              || !(Favoured(items, total, items[j].id) && !Favoured(items, total, items[i].id))
  {
    hide Weights, Sum, Favoured, SomeCounts, Allotment;
    SomeCountsSums(items);
    if SomeCounts(items) {
      HeavierGetsNoLess(items, total, allocations, i, j);
    } else {
      EvenSplit(items, total, allocations, i);
      EvenSplit(items, total, allocations, j);
    }
  }

  /** The heavier of two items can lose to the smaller id: -1 gets nothing while -2 gets the pool. */
  lemma HeavierCanLose(allocations: map<string, int>)
    requires Allotment([Item("a", -2.0), Item("b", -1.0)], 1, allocations)
    ensures "a" in allocations && allocations["a"] == 1 && "b" in allocations && allocations["b"] == 0
  {
    var items := [Item("a", -2.0), Item("b", -1.0)];
    hide Give, Shares, Winners, SortStrings;
    SortedPair();
    assert Ids(items) == ["a", "b"];
    assert items[0].id in allocations && items[1].id in allocations;
    assert "a" != "b" && ["a", "b"][..1] == ["a"];
    EvenSplit(items, 1, allocations, 0);
    EvenSplit(items, 1, allocations, 1);
  }

  lemma SortedPair()
    ensures SortStrings(["a", "b"]) == ["a", "b"]
  {
    assert StringLeq("a", "b");
    assert ["a", "b"][1..] == ["b"];
    assert Sort(["b"], StringLeq) == ["b"];
  }
}
