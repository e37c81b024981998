/** Which units that registration can store share their seed with another such unit. */
module UnitSeeds {
  import opened Ordering
  import opened Clusters

  /** A unit as it can be stored: distinct registered addresses in order. */
  predicate Storable(u: Unit) {
    && u != [] && (forall k :: 0 <= k < |u| ==> "claw1" <= u[k])
    && forall i, j :: 0 <= i < j < |u| ==> StringLeq(u[i], u[j]) && u[i] != u[j]
  }

  /** Every unit of registered miners is storable. */
  lemma UnitsStorable(ms: set<Signal>, m: Signal)
    requires m in ms && forall n :: n in ms ==> "claw1" <= n.address
    ensures Storable(UnitOf(ms, m))
  {
    LinkedSelf(ms, m);
    hide Linked, StringLeq;
    var u := UnitOf(ms, m);
    assert m.address in Mates(ms, m);
    assert m.address in u;
    forall k | 0 <= k < |u| ensures "claw1" <= u[k] {
      assert u[k] in Mates(ms, m);
    }
  }

  /** The address can be cut at a separator into two addresses in order. */
  predicate CutsAt(a: string, i: nat) {
    && i < |a| && a[i] == '|' && "claw1" <= a[i + 1..]
    && StringLeq(a[..i], a[i + 1..]) && a[..i] != a[i + 1..]
  }

  lemma SeedOfOne(a: string)
    ensures Seed([a]) == a
  {
  }

  lemma SingleIsSeed(u: Unit)
    ensures |u| == 1 ==> u == [Seed(u)]
  {
  }

  lemma SeedOfTwo(a: string, b: string)
    ensures Seed([a, b]) == a + "|" + b
  {
    assert [a, b][1..] == [b];
  }

  lemma SeedStarts(u: Unit)
    requires Storable(u)
    ensures "claw1" <= Seed(u) && u[0] <= Seed(u)
  {
  }

  lemma {:induction false} PrefixLeq(a: string, b: string)
    requires a <= b
    ensures StringLeq(a, b)
  {
    if a != [] {
      PrefixLeq(a[1..], b[1..]);
    }
  }

  lemma CutIsStorable(a: string, i: nat)
    requires "claw1" <= a && CutsAt(a, i)
    ensures Storable([a[..i], a[i + 1..]]) && Seed([a[..i], a[i + 1..]]) == a
  {
    hide StringLeq;
    SeedOfTwo(a[..i], a[i + 1..]);
    assert a == a[..i] + "|" + a[i + 1..];
    assert forall j :: 0 <= j < 5 ==> a[j] == "claw1"[j] != '|';
    assert i >= 5;
  }

  /** A longer unit with this seed shows where to cut. */
  lemma LongerCuts(v: Unit)
    requires Storable(v) && |v| > 1
    ensures CutsAt(Seed(v), |v[0]|)
  {
    var a, i, tail := Seed(v), |v[0]|, v[1..];
    assert Storable(tail);
    SeedStarts(tail);
    assert a == v[0] + "|" + Seed(tail);
    assert a[i] == '|' && a[..i] == v[0] && a[i + 1..] == Seed(tail);
    hide Seed, StringLeq;
    PrefixLeq(v[1], Seed(tail));
    StringTransitive(v[0], v[1], Seed(tail));
    if v[0] == Seed(tail) {
      StringAntisymmetric(v[0], v[1]);
    }
  }

  /** The storable units with this unit's seed. */
  ghost predicate OtherWithSeed(u: Unit, v: Unit) {
    Storable(v) && v != u && Seed(v) == Seed(u)
  }

  /** A unit shares its seed with another unit that can be stored exactly if it has two members or more
      (then one miner may be registered under the whole seed), or its one address can be cut at a separator
      into two addresses in order. */
  lemma SharesSeedIff(u: Unit)
    requires Storable(u)
    ensures (exists v :: OtherWithSeed(u, v)) <==> |u| > 1 || exists i: nat :: CutsAt(u[0], i)
  {
    hide StringLeq;
    if |u| > 1 {
      SeedStarts(u);
      SeedOfOne(Seed(u));
      assert OtherWithSeed(u, [Seed(u)]);
    } else {
      assert u == [u[0]];
      SeedOfOne(u[0]);
      if i: nat :| CutsAt(u[0], i) {
        CutIsStorable(u[0], i);
        assert OtherWithSeed(u, [u[0][..i], u[0][i + 1..]]);
      }
      if v :| OtherWithSeed(u, v) {
        SingleIsSeed(v);
        LongerCuts(v);
      }
    }
  }
}
