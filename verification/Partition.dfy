/** The stored economic units: what registration and cluster refreshes keep in step with a
    recomputation from the stored signals (forecast_engine.register_miner and _refresh_miner_cluster
    over FakeRepository). */
module Partition {
  import opened Options
  import opened Ordering
  import opened Clusters

  // ---- Dropping an IP ----------------------------------------------------------------------------------

  function IpEvidence(m: Signal): seq<string> {
    Evidences(m.(agent := None))
  }

  ghost predicate SharesIp(m: Signal, n: Signal) {
    exists e :: e in IpEvidence(m) && e in Evidences(n)
  }

  /** The other miner has the same address, or a client digest that reads like it. */
  lemma SharesIpIff(m: Signal, n: Signal)
    ensures SharesIp(m, n) == (SameAddress(m, n) || NamesAddress(n, m))
  {
    hide Strip, Lower, Evidences;
    AdjacentIff(m.(agent := None), n);
  }

  /** The partition of rest and s is that of rest and c. */
  ghost predicate SameUnits(rest: set<Signal>, s: Signal, c: Signal) {
    && UnitOf(rest + {s}, s) == UnitOf(rest + {c}, c)
    && forall m :: m in rest ==> UnitOf(rest + {s}, m) == UnitOf(rest + {c}, m)
  }

  /** Everyone who shares s's address stays linked to it when s loses the address. */
  ghost predicate StayLinked(rest: set<Signal>, s: Signal, c: Signal) {
    forall m :: m in rest && SharesIp(s, m) ==> Linked(rest + {c}, c, m)
  }

  ghost predicate Apart(rest: set<Signal>, s: Signal) {
    forall m :: m in rest ==> m.address != s.address
  }

  function Swap(m: Signal, s: Signal, c: Signal): Signal {
    if m == s then c else m
  }

  lemma DroppedEvidence(s: Signal, c: Signal, e: string)
    requires c == s.(ip := None)
    ensures e in Evidences(c) ==> e in Evidences(s)
    ensures e in Evidences(s) ==> e in Evidences(c) || e in IpEvidence(s)
  {
  }

  /** A chain with the address dropped is a chain with it kept. */
  lemma KeptLinks(rest: set<Signal>, s: Signal, c: Signal, m: Signal, n: Signal)
    requires c == s.(ip := None) && Apart(rest, s)
    requires Linked(rest + {c}, m, n)
    ensures Linked(rest + {s}, Swap(m, c, s), Swap(n, c, s))
  {
    hide Evidences, IpEvidence;
    var path :| Joins(rest + {c}, path, m, n);
    var kept := seq(|path|, k requires 0 <= k < |path| => Swap(path[k], c, s));
    forall k | 0 <= k < |kept| - 1 ensures Adjacent(kept[k], kept[k + 1]) {
      assert Adjacent(path[k], path[k + 1]);
      var e :| e in Evidences(path[k]) && e in Evidences(path[k + 1]);
      DroppedEvidence(s, c, e);
      assert e in Evidences(kept[k]) && e in Evidences(kept[k + 1]);
    }
    assert Joins(rest + {s}, kept, Swap(m, c, s), Swap(n, c, s));
  }

  lemma StepDrops(rest: set<Signal>, s: Signal, c: Signal, m: Signal, n: Signal)
    requires c == s.(ip := None) && Apart(rest, s) && StayLinked(rest, s, c)
    requires m in rest + {s} && n in rest + {s} && Adjacent(m, n)
    ensures Linked(rest + {c}, Swap(m, s, c), Swap(n, s, c))
  {
    hide Evidences, IpEvidence, Linked;
    var ms := rest + {c};
    var e :| e in Evidences(m) && e in Evidences(n);
    DroppedEvidence(s, c, e);
    if Adjacent(Swap(m, s, c), Swap(n, s, c)) {
      LinkedAdjacent(ms, Swap(m, s, c), Swap(n, s, c));
    } else if m == n {
      LinkedSelf(ms, Swap(m, s, c));
    } else if m == s {
      assert SharesIp(s, n);
    } else {
      assert n == s && SharesIp(s, m);
      LinkedBack(ms, c, m);
    }
  }

  /** A chain with the address kept links the same miners with it dropped, if its sharers stay linked. */
  lemma {:induction false} DroppedPath(rest: set<Signal>, s: Signal, c: Signal, path: seq<Signal>, m: Signal, n: Signal)
    requires c == s.(ip := None) && Apart(rest, s) && StayLinked(rest, s, c)
    requires Joins(rest + {s}, path, m, n)
    ensures Linked(rest + {c}, Swap(m, s, c), Swap(n, s, c))
    decreases |path|
  {
    hide Linked, StayLinked, Adjacent;
    if |path| == 1 {
      LinkedSelf(rest + {c}, Swap(m, s, c));
    } else {
      assert Adjacent(path[0], path[1]);
      StepDrops(rest, s, c, m, path[1]);
      TailJoins(rest + {s}, path, m, n);
      DroppedPath(rest, s, c, path[1..], path[1], n);
      LinkedOn(rest + {c}, Swap(m, s, c), Swap(path[1], s, c), Swap(n, s, c));
    }
  }

  lemma TailJoins(ms: set<Signal>, path: seq<Signal>, m: Signal, n: Signal)
    requires Joins(ms, path, m, n) && |path| > 1
    ensures Joins(ms, path[1..], path[1], n)
  {
    hide Adjacent;
  }

  lemma DroppedLinks(rest: set<Signal>, s: Signal, c: Signal, m: Signal, n: Signal)
    requires c == s.(ip := None) && Apart(rest, s) && StayLinked(rest, s, c)
    requires m in rest + {s} && n in rest + {s}
    ensures Linked(rest + {s}, m, n) <==> Linked(rest + {c}, Swap(m, s, c), Swap(n, s, c))
  {
    hide Joins, StayLinked;
    if Linked(rest + {s}, m, n) {
      var path :| Joins(rest + {s}, path, m, n);
      DroppedPath(rest, s, c, path, m, n);
    }
    if Linked(rest + {c}, Swap(m, s, c), Swap(n, s, c)) {
      KeptLinks(rest, s, c, Swap(m, s, c), Swap(n, s, c));
      assert Swap(Swap(m, s, c), c, s) == m && Swap(Swap(n, s, c), c, s) == n;
    }
  }

  lemma DroppedMates(rest: set<Signal>, s: Signal, c: Signal, m: Signal)
    requires c == s.(ip := None) && Apart(rest, s) && StayLinked(rest, s, c) && m in rest + {s}
    ensures Mates(rest + {s}, m) == Mates(rest + {c}, Swap(m, s, c))
  {
    hide Linked, StayLinked;
    var kept, dropped := Mates(rest + {s}, m), Mates(rest + {c}, Swap(m, s, c));
    forall a ensures a in kept <==> a in dropped {
      if a in kept {
        var n :| n in rest + {s} && Linked(rest + {s}, m, n) && n.address == a;
        DroppedLinks(rest, s, c, m, n);
        assert Swap(n, s, c) in rest + {c} && Swap(n, s, c).address == a;
      }
      if a in dropped {
        var n :| n in rest + {c} && Linked(rest + {c}, Swap(m, s, c), n) && n.address == a;
        var back := Swap(n, c, s);
        assert Swap(back, s, c) == n && back.address == a;
        DroppedLinks(rest, s, c, m, back);
      }
    }
  }

  /** Dropping an address leaves every unit as it was exactly when its sharers stay linked. */
  lemma DropKeepsUnits(rest: set<Signal>, s: Signal, c: Signal)
    requires c == s.(ip := None) && Apart(rest, s) && DistinctAddresses(rest)
    ensures SameUnits(rest, s, c) <==> StayLinked(rest, s, c)
  {
    hide Linked, SharesIp;
    if StayLinked(rest, s, c) {
      DroppedMates(rest, s, c, s);
      forall m | m in rest ensures UnitOf(rest + {s}, m) == UnitOf(rest + {c}, m) {
        DroppedMates(rest, s, c, m);
      }
    }
    if SameUnits(rest, s, c) {
      forall m | m in rest && SharesIp(s, m) ensures Linked(rest + {c}, c, m) {
        SharerLinked(rest, s, c, m);
      }
    }
  }

  lemma SharerLinked(rest: set<Signal>, s: Signal, c: Signal, m: Signal)
    requires c == s.(ip := None) && Apart(rest, s) && DistinctAddresses(rest)
    requires UnitOf(rest + {s}, s) == UnitOf(rest + {c}, c) && m in rest && SharesIp(s, m)
    ensures Linked(rest + {c}, c, m)
  {
    var e :| e in IpEvidence(s) && e in Evidences(m);
    assert e in Evidences(s);
    hide Linked, Evidences, IpEvidence;
    assert Adjacent(s, m);
    LinkedAdjacent(rest + {s}, s, m);
    assert m.address in Mates(rest + {s}, s);
    assert m.address in UnitOf(rest + {c}, c);
    assert m.address in Mates(rest + {c}, c);
    var n :| n in rest + {c} && Linked(rest + {c}, c, n) && n.address == m.address;
    assert n == m;
  }

  lemma NoEvidenceAlone(ms: set<Signal>, c: Signal, m: Signal)
    requires Evidences(c) == [] && m != c
    ensures !Linked(ms, c, m)
  {
    hide Adjacent;
    if Linked(ms, c, m) {
      var path :| Joins(ms, path, c, m);
      AdjacentNeeds(path[0], path[1]);
    }
  }

  lemma AdjacentNeeds(m: Signal, n: Signal)
    ensures Adjacent(m, n) ==> Evidences(m) != []
  {
  }

  /** Two miners behind one address: when one of them is next seen from the loopback, which counts as
      no address, the stored units split although the stored addresses still match. */
  lemma DropSplitsUnits()
    ensures
      var s := Signal("claw1a", Some("9.9.9.9"), None);
      var m := Signal("claw1b", Some("9.9.9.9"), None);
      !SameUnits({m}, s, s.(ip := None))
  {
    var s := Signal("claw1a", Some("9.9.9.9"), None);
    var m := Signal("claw1b", Some("9.9.9.9"), None);
    var c := s.(ip := None);
    assert IpEvidence(s) == Evidences(m) != [];
    assert Evidences(m)[0] in IpEvidence(s);
    assert SharesIp(s, m);
    hide Linked, Evidences, SharesIp;
    assert s.address != m.address;
    DropKeepsUnits({m}, s, c);
    assert Evidences(c) == [] by {
      NoSignals(c);
    }
    NoEvidenceAlone({m} + {c}, c, m);
  }

  lemma NoSignals(c: Signal)
    requires c.ip == None && c.agent == None
    ensures Evidences(c) == []
  {
  }

  // ---- The stored miners -------------------------------------------------------------------------------

  datatype Miner = Miner(signal: Signal, unit: Unit)

  type Table = map<string, Miner>

  datatype MinerError = InvalidAddress | VersionTooLow | AlreadyRegistered | NotRegistered

  /** The signals of a table of miners. */
  ghost function SignalsIn(miners: Table): set<Signal> {
    set a | a in miners :: miners[a].signal
  }

  /** Every stored unit is the one recomputed from the stored signals. */
  ghost predicate UnitsFollow(miners: Table, signals: set<Signal>) {
    forall a :: a in miners ==> miners[a].unit == UnitOf(signals, miners[a].signal)
  }

  ghost predicate ByAddress(miners: Table) {
    forall a :: a in miners ==> miners[a].signal.address == a
  }

  /** The service and its in-memory miner table. The signal normalizers are given: one turns an address
      into its canonical form or nothing, the other a client string into its digest or nothing. */
  class Registry {
    const normalizeIp: string -> Option<string>
    const hashAgent: string -> Option<string>
    var order: seq<string>
    var miners: Table

    constructor (normalizeIp: string -> Option<string>, hashAgent: string -> Option<string>)
      ensures Valid() && InStep() && miners == map[]
      ensures this.normalizeIp == normalizeIp && this.hashAgent == hashAgent
    {
      this.normalizeIp, this.hashAgent := normalizeIp, hashAgent;
      order, miners := [], map[];
    }

    ghost predicate Valid()
      reads this
    {
      ListsSet(order, miners.Keys) && ByAddress(miners)
    }

    ghost predicate InStep()
      reads this
    {
      UnitsFollow(miners, SignalsIn(miners))
    }

    function Normal(ip: Option<string>): Option<string> {
      if ip.None? then None else normalizeIp(ip.value)
    }

    function Hashed(userAgent: Option<string>): Option<string> {
      if userAgent.None? then None else hashAgent(userAgent.value)
    }

    /** list_miners: the stored signals in insertion order. */
    method ListSignals() returns (listed: seq<Signal>)
      requires Valid()
      ensures |listed| == |order| && forall k :: 0 <= k < |order| ==>
                order[k] in miners && listed[k] == miners[order[k]].signal
    {
      listed := seq(|order|, k requires 0 <= k < |order| && order[k] in miners reads this => miners[order[k]].signal);
    }

    /** update_miner_cluster_identity: an absent field is left alone. */
    method UpdateIdentity(address: string, unit: Option<Unit>, ip: Option<string>, agent: Option<string>)
      requires Valid() && address in miners
      modifies this`miners
      ensures Valid() && miners == old(miners)[address := miners[address]]
      ensures
        var m, m' := old(miners)[address], miners[address];
        && m'.signal.address == m.signal.address
        && (unit.None? ==> m'.unit == m.unit) && (unit.Some? ==> m'.unit == unit.value)
        && (ip.None? ==> m'.signal.ip == m.signal.ip) && (ip.Some? ==> m'.signal.ip == ip)
        && (agent.None? ==> m'.signal.agent == m.signal.agent) && (agent.Some? ==> m'.signal.agent == agent)
    {
      miners := miners[address := Revised(miners[address], unit, ip, agent)];
      assert miners.Keys == old(miners).Keys;
    }

    /** Give the listed miners their computed units. */
    method StoreUnits(listed: seq<Signal>, units: Units)
      requires Valid() && forall k :: 0 <= k < |listed| ==> listed[k].address in miners
      modifies this`miners
      ensures Valid() && UnitsStored(old(miners), miners, listed, units)
    {
      for k := 0 to |listed|
        invariant Valid() && SameSignals(old(miners), miners)
        invariant forall i :: 0 <= i < k && listed[i].address in units ==>
                    miners[listed[i].address].unit == units[listed[i].address]
        invariant forall a :: a in miners && miners[a].unit != old(miners)[a].unit ==>
                  a in units && miners[a].unit == units[a]
      {
        var a := listed[k].address;
        if a in units && units[a] != miners[a].unit {
          UpdateIdentity(a, Some(units[a]), None, None);
        }
      }
    }

    /** register_miner: the new miner joins the table and every unit follows the stored signals. */
    method Register(address: string, versionAllowed: bool, ip: Option<string>, userAgent: Option<string>)
      returns (r: Result<Miner, MinerError>)
      requires Valid()
      modifies this
      ensures Valid()
      ensures r.Ok? <==> "claw1" <= address && versionAllowed && address !in old(miners)
      ensures r.Err? ==> miners == old(miners) && order == old(order)
      ensures r.Ok? ==> address in miners && r.value == miners[address] && InStep()
      ensures r.Ok? ==>
                && order == old(order) + [address]
                && Joined(old(miners), miners, Signal(address, Normal(ip), Hashed(userAgent)))
    {
      if !("claw1" <= address) {
        return Err(InvalidAddress);
      }
      if !versionAllowed {
        return Err(VersionTooLow);
      }
      var existing := ListSignals();
      var s := Signal(address, Normal(ip), Hashed(userAgent));
      hide UnitsOf, InOrder, UnitOf;
      var units := Components(existing + [s]);
      if address in miners {
        return Err(AlreadyRegistered);
      }
      Admit(s, existing, units);
      return Ok(miners[address]);
    }

    /** The rest of a registration: store the new miner, then bring the others' units up to date. */
    method Admit(s: Signal, existing: seq<Signal>, units: Units)
      requires ListedIn(order, miners, existing) && s.address !in miners
      requires OneEach(existing + [s]) ==> UnitsOf(SetOf(existing + [s]), units)
      modifies this
      ensures Valid() && InStep()
      ensures order == old(order) + [s.address] && Joined(old(miners), miners, s)
    {
      ListedKeys(order, miners, existing);
      assert Valid();
      var m := Miner(s, if s.address in units then units[s.address] else [s.address]);
      ListedApart(order, miners, existing, m);
      hide UnitsOf, OneEach, ListedIn, SignalsIn, ListsSet, ByAddress;
      Insert(m);
      ghost var stored := miners;
      StoreUnits(existing, units);
      hide UnitsStored, UnitsFollow, Joined;
      Admitted(order, stored, existing, s, units, miners);
      JoinedBy(old(miners), m, units, existing, miners);
    }

    /** What a refresh takes the miner's signals to be: the new ones where given, else the stored ones. */
    function Seen(m: Signal, ip: Option<string>, userAgent: Option<string>): Signal {
      Signal(m.address, Normal(if ip.Some? then ip else m.ip),
             if Given(Hashed(userAgent)) then Hashed(userAgent) else m.agent)
    }

    /** _refresh_miner_cluster: store what is new about one miner and recompute every unit. */
    method Refresh(address: string, ip: Option<string>, userAgent: Option<string>)
      returns (r: Result<Miner, MinerError>)
      requires Valid()
      modifies this`miners
      ensures Valid() && (r.Ok? <==> address in old(miners))
      ensures r.Err? ==> miners == old(miners)
      ensures r.Ok? ==>
                var cur := old(miners)[address].signal;
                && r.value == miners[address]
                && Restored(old(miners), miners, address, Seen(cur, ip, userAgent))
                && (InStep() <==> if Seen(cur, ip, userAgent) == cur then old(InStep())
                                  else KeepsUnits(old(miners), address, Seen(cur, ip, userAgent)))
    {
      if address !in miners {
        return Err(NotRegistered);
      }
      var current := miners[address].signal;
      var seen := Signal(current.address, Normal(current.ip), Hashed(userAgent));
      if ip.Some? {
        seen := seen.(ip := Normal(ip));
      }
      if !Given(seen.agent) {
        seen := seen.(agent := current.agent);
      }
      assert seen == Seen(current, ip, userAgent);
      if seen.ip == current.ip && seen.agent == current.agent {
        return Ok(miners[address]);
      }
      Recompute(address, current, seen);
      r := Ok(miners[address]);
    }

    /** The part of a refresh that changes something. */
    method Recompute(address: string, current: Signal, seen: Signal)
      requires Valid() && address in miners && miners[address].signal == current && seen.address == address
      requires seen.agent.None? ==> current.agent.None?
      modifies this`miners
      ensures Valid() && Restored(old(miners), miners, address, seen)
      ensures InStep() <==> KeepsUnits(old(miners), address, seen)
    {
      hide UnitsOf, OneEach, UnitOf, SignalsIn, KeepsUnits, Restored, Given, ListedIn, UnitsFollow;
      var listed := ListSignals();
      ListedAll(order, miners, listed);
      var candidates := Replaced(listed, address, seen);
      ListedCandidates(order, miners, listed, address, seen, candidates);
      CandidatesStored(order, miners, listed, address, candidates);
      var units := Components(candidates);
      hide ListsSet, ByAddress;
      StoreRefreshed(candidates, units, address, current, seen);
      Refreshed(order, old(miners), candidates, units, address, seen, miners);
    }

    /** Write back what a refresh changed, miner by miner. */
    method StoreRefreshed(listed: seq<Signal>, units: Units, address: string, current: Signal, seen: Signal)
      requires Valid() && address in miners && miners[address].signal == current && seen.address == address
      requires seen.agent.None? ==> current.agent.None?
      requires forall k :: 0 <= k < |listed| ==> listed[k].address in miners
      requires exists k :: 0 <= k < |listed| && listed[k].address == address
      modifies this`miners
      ensures Valid() && Restored(old(miners), miners, address, seen)
      ensures forall k :: 0 <= k < |listed| && listed[k].address in units ==>
                listed[k].address in miners && miners[listed[k].address].unit == units[listed[k].address]
    {
      assert current.address == address;
      hide ListsSet, ByAddress, Revised, Midway, Restored, UnitChange, IpChange, AgentChange;
      MidwayStarts(miners, listed, units, address, current, seen);
      for k := 0 to |listed|
        invariant Valid() && Midway(old(miners), miners, listed, k, units, address, current, seen)
        invariant miners.Keys == old(miners).Keys
      {
        ghost var before := miners;
        RefreshOne(listed[k].address, units, address, current, seen);
        MidwayNext(old(miners), before, listed, k, units, address, current, seen);
      }
      MidwayEnds(old(miners), miners, listed, units, address, current, seen);
    }

    /** What a refresh changes about one of the listed miners. */
    method RefreshOne(a: string, units: Units, address: string, current: Signal, seen: Signal)
      requires Valid() && a in miners && seen.address == address == current.address
      modifies this`miners
      ensures Valid() && miners.Keys == old(miners).Keys
      ensures
        var m := old(miners)[a];
        miners == old(miners)[a := Revised(m, UnitChange(units, m), IpChange(a, current, seen),
                                           AgentChange(a, current, seen))]
    {
      hide ListsSet, ByAddress, Revised, UnitChange;
      ghost var before := miners;
      var unit, ip, agent := UnitChange(units, miners[a]), None, None;
      if a == address {
        if seen.ip != current.ip {
          ip := seen.ip;
        }
        if seen.agent != current.agent {
          agent := seen.agent;
        }
      }
      if unit.Some? || (a == address && seen != current) {
        UpdateIdentity(a, unit, ip, agent);
        RevisedIs(before[a], miners[a], unit, ip, agent);
      } else {
        NothingRevised(miners[a]);
      }
    }

    /** repo.register_miner */
    method Insert(m: Miner)
      requires Valid() && m.signal.address !in miners
      modifies this
      ensures Valid()
      ensures order == old(order) + [m.signal.address] && miners == old(miners)[m.signal.address := m]
    {
      order := order + [m.signal.address];
      miners := miners[m.signal.address := m];
    }
  }

  lemma ListedKeys(order: seq<string>, miners: Table, listed: seq<Signal>)
    requires ListedIn(order, miners, listed)
    ensures forall k :: 0 <= k < |listed| ==> listed[k].address in miners
  {
    forall k | 0 <= k < |listed| ensures listed[k].address in miners {
      assert order[k] in miners;
    }
  }

  /** Every miner has the unit computed for it as a candidate. */
  lemma CandidateUnits(order: seq<string>, mid: Table, candidates: seq<Signal>, units: Units,
                       after: Table)
    requires ListedIn(order, mid, candidates) && after.Keys == mid.Keys
    requires OneEach(candidates) ==> UnitsOf(SetOf(candidates), units)
    requires forall k :: 0 <= k < |candidates| && candidates[k].address in units ==>
               candidates[k].address in after && after[candidates[k].address].unit == units[candidates[k].address]
    ensures forall a :: a in mid ==> after[a].unit == UnitOf(SignalsIn(mid), mid[a].signal)
  {
    hide UnitsOf, UnitOf, OneEach;
    ListedWhole(order, mid, candidates);
    UnitsCover(SignalsIn(mid), units);
    forall a | a in mid ensures after[a].unit == UnitOf(SignalsIn(mid), mid[a].signal) {
      assert a in order;
      var k :| 0 <= k < |order| && order[k] == a;
      assert candidates[k] == mid[a].signal && mid[a].signal in SignalsIn(mid);
    }
  }

  lemma OthersApart(before: Table, address: string)
    requires ByAddress(before)
    ensures DistinctAddresses(SignalsIn(before - {address}))
    ensures forall s: Signal :: s.address == address ==> Apart(SignalsIn(before - {address}), s)
  {
  }

  lemma SplitSignals(table: Table, before: Table, address: string)
    requires address in table && table.Keys == before.Keys
    requires forall a :: a in before && a != address ==> table[a].signal == before[a].signal
    ensures SignalsIn(table) == SignalsIn(before - {address}) + {table[address].signal}
  {
    var rest := SignalsIn(before - {address});
    forall a | a in before && a != address ensures before[a].signal in rest && table[a].signal == before[a].signal {
      assert a in before - {address};
    }
    forall m | m in rest ensures m in SignalsIn(table) {
      var a :| a in before - {address} && before[a].signal == m;
      assert table[a].signal == m;
    }
  }

  lemma SplitUnits(before: Table, mid: Table, after: Table, address: string)
    requires address in before && before.Keys == mid.Keys == after.Keys
    requires forall a :: a in before && a != address ==> mid[a].signal == before[a].signal == after[a].signal
    requires forall a :: a in mid ==> after[a].unit == UnitOf(SignalsIn(mid), mid[a].signal)
    requires SignalsIn(mid) == SignalsIn(before - {address}) + {mid[address].signal}
    requires SignalsIn(after) == SignalsIn(before - {address}) + {after[address].signal}
    ensures UnitsFollow(after, SignalsIn(after)) <==>
              SameUnits(SignalsIn(before - {address}), after[address].signal, mid[address].signal)
  {
    hide UnitOf;
    var rest, s, c := SignalsIn(before - {address}), after[address].signal, mid[address].signal;
    if UnitsFollow(after, SignalsIn(after)) {
      forall m | m in rest ensures UnitOf(rest + {s}, m) == UnitOf(rest + {c}, m) {
        var a :| a in before - {address} && before[a].signal == m;
        assert after[a].signal == m;
      }
    }
    if SameUnits(rest, s, c) {
      forall a | a in after ensures after[a].unit == UnitOf(rest + {s}, after[a].signal) {
        if a != address {
          assert a in before - {address};
          assert after[a].signal in rest;
        }
      }
    }
  }

  /** The table after a refresh: one miner's signals as seen, except that an address seen to be
      missing is not taken away. */
  ghost predicate Restored(before: Table, after: Table, address: string, seen: Signal) {
    && after.Keys == before.Keys && address in before
    && after[address].signal == seen.(ip := if seen.ip.Some? then seen.ip else before[address].signal.ip)
    && forall a :: a in before && a != address ==> after[a].signal == before[a].signal
  }

  /** A refresh keeps the table in step: it does not drop an address, or everyone who shares the
      dropped address is still linked to the miner. */
  ghost predicate KeepsUnits(miners: Table, address: string, seen: Signal)
    requires address in miners
  {
    var ip := miners[address].signal.ip;
    seen.ip.Some? || ip.None? || StayLinked(SignalsIn(miners - {address}), seen.(ip := ip), seen)
  }

  function UnitChange(units: Units, m: Miner): Option<Unit> {
    if m.signal.address in units && units[m.signal.address] != m.unit then Some(units[m.signal.address]) else None
  }

  function IpChange(a: string, current: Signal, seen: Signal): Option<string> {
    if a == seen.address && seen.ip != current.ip then seen.ip else None
  }

  function AgentChange(a: string, current: Signal, seen: Signal): Option<string> {
    if a == seen.address && seen.agent != current.agent then seen.agent else None
  }

  lemma NothingRevised(m: Miner)
    ensures Revised(m, None, None, None) == m
  {
  }

  ghost predicate Midway(before: Table, now: Table, listed: seq<Signal>, k: nat,
                         units: Units, address: string, current: Signal, seen: Signal)
    requires k <= |listed|
  {
    var kept := seen.(ip := if seen.ip.Some? then seen.ip else current.ip);
    && now.Keys == before.Keys && address in before
    && (forall a :: a in now && a != address ==> now[a].signal == before[a].signal)
    && (now[address].signal == current || now[address].signal == kept)
    && (forall i :: 0 <= i < k && listed[i].address == address ==> now[address].signal == kept)
    && (forall i :: 0 <= i < k && listed[i].address in units ==>
          listed[i].address in now && now[listed[i].address].unit == units[listed[i].address])
  }

  lemma MidwayStarts(before: Table, listed: seq<Signal>, units: Units, address: string, current: Signal, seen: Signal)
    requires address in before && before[address].signal == current
    ensures Midway(before, before, listed, 0, units, address, current, seen)
  {
  }

  lemma MidwayNext(before: Table, now: Table, listed: seq<Signal>, k: nat,
                   units: Units, address: string, current: Signal, seen: Signal)
    requires k < |listed| && Midway(before, now, listed, k, units, address, current, seen)
    requires listed[k].address in now && ByAddress(now) && seen.address == address == current.address
    requires seen.agent.None? ==> current.agent.None?
    ensures
      var a := listed[k].address;
      var next := now[a := Revised(now[a], UnitChange(units, now[a]), IpChange(a, current, seen),
                                   AgentChange(a, current, seen))];
      Midway(before, next, listed, k + 1, units, address, current, seen)
  {
  }

  lemma MidwayEnds(before: Table, now: Table, listed: seq<Signal>, units: Units,
                   address: string, current: Signal, seen: Signal)
    requires Midway(before, now, listed, |listed|, units, address, current, seen)
    requires before[address].signal == current
    requires exists k :: 0 <= k < |listed| && listed[k].address == address
    ensures Restored(before, now, address, seen)
    ensures forall k :: 0 <= k < |listed| && listed[k].address in units ==>
              listed[k].address in now && now[listed[k].address].unit == units[listed[k].address]
  {
  }

  lemma ListedCandidates(order: seq<string>, miners: Table, listed: seq<Signal>, address: string,
                         seen: Signal, candidates: seq<Signal>)
    requires ListedIn(order, miners, listed) && address in miners && seen.address == address
    requires |candidates| == |listed| && forall k :: 0 <= k < |listed| ==>
               candidates[k] == if listed[k].address == address then seen else listed[k]
    ensures ListedIn(order, miners[address := miners[address].(signal := seen)], candidates)
  {
    assert miners[address := miners[address].(signal := seen)].Keys == miners.Keys;
  }

  lemma CandidatesStored(order: seq<string>, miners: Table, listed: seq<Signal>, address: string,
                         candidates: seq<Signal>)
    requires ListedIn(order, miners, listed) && address in miners && |candidates| == |listed|
    requires forall k :: 0 <= k < |listed| ==> candidates[k].address == listed[k].address
    ensures forall k :: 0 <= k < |candidates| ==> candidates[k].address in miners
    ensures exists k :: 0 <= k < |candidates| && candidates[k].address == address
  {
    assert address in order;
    var p :| 0 <= p < |order| && order[p] == address;
    assert candidates[p].address == address;
    forall k | 0 <= k < |candidates| ensures candidates[k].address in miners {
      assert order[k] in miners;
    }
  }

  /** After a refresh the units follow the candidates' signals, which are the stored ones unless an
      address was dropped. */
  lemma Refreshed(order: seq<string>, before: Table, candidates: seq<Signal>, units: Units,
                  address: string, seen: Signal, after: Table)
    requires address in before && seen.address == address && ByAddress(before) && ByAddress(after)
    requires ListedIn(order, before[address := before[address].(signal := seen)], candidates)
    requires OneEach(candidates) ==> UnitsOf(SetOf(candidates), units)
    requires Restored(before, after, address, seen)
    requires forall k :: 0 <= k < |candidates| && candidates[k].address in units ==>
               candidates[k].address in after && after[candidates[k].address].unit == units[candidates[k].address]
    ensures UnitsFollow(after, SignalsIn(after)) <==> KeepsUnits(before, address, seen)
  {
    hide ListedIn, UnitsOf, UnitOf, OneEach, SignalsIn, StayLinked, SameUnits, UnitsFollow, ByAddress, Apart;
    var mid := before[address := before[address].(signal := seen)];
    CandidateUnits(order, mid, candidates, units, after);
    assert after.Keys == before.Keys == mid.Keys;
    var rest := SignalsIn(before - {address});
    OthersApart(before, address);
    SplitSignals(mid, before, address);
    SplitSignals(after, before, address);
    SplitUnits(before, mid, after, address);
    SeenKeepsUnits(rest, after[address].signal, seen, before[address].signal.ip);
  }

  lemma SeenKeepsUnits(rest: set<Signal>, s: Signal, seen: Signal, ip: Option<string>)
    requires s == seen.(ip := if seen.ip.Some? then seen.ip else ip) && Apart(rest, s) && DistinctAddresses(rest)
    ensures SameUnits(rest, s, seen) <==> seen.ip.Some? || ip.None? || StayLinked(rest, seen.(ip := ip), seen)
  {
    if seen.ip.None? && ip.Some? {
      DropKeepsUnits(rest, s, seen);
    } else {
      assert s == seen;
    }
    hide StayLinked, UnitOf;
  }

  /** The table after a newcomer: its signal joins, the others stay as they were. */
  ghost predicate Joined(before: Table, after: Table, s: Signal) {
    && after.Keys == before.Keys + {s.address} && after[s.address].signal == s
    && forall a :: a in before && a != s.address ==> after[a].signal == before[a].signal
  }

  lemma JoinedBy(before: Table, m: Miner, units: Units, listed: seq<Signal>,
                 after: Table)
    requires UnitsStored(before[m.signal.address := m], after, listed, units)
    ensures Joined(before, after, m.signal)
  {
  }

  lemma Admitted(order: seq<string>, stored: Table, existing: seq<Signal>, s: Signal,
                 units: Units, after: Table)
    requires ListedIn(order, stored, existing + [s]) && (s.address in units ==>
              s.address in stored && stored[s.address].unit == units[s.address])
    requires OneEach(existing + [s]) ==> UnitsOf(SetOf(existing + [s]), units)
    requires UnitsStored(stored, after, existing, units)
    ensures UnitsFollow(after, SignalsIn(after)) && ByAddress(after)
  {
    hide UnitsOf, InOrder, UnitOf, OneEach;
    ListedWhole(order, stored, existing + [s]);
    UnitsCover(SignalsIn(stored), units);
    forall k | 0 <= k < |order| ensures order[k] in units && after[order[k]].unit == units[order[k]] {
      assert stored[order[k]].signal in SignalsIn(stored);
      if k < |existing| {
        assert (existing + [s])[k] == existing[k];
      } else {
        assert (existing + [s])[k] == s;
      }
    }
    hide ListsSet, SignalsIn;
    UnitsSettled(order, stored, after, units);
  }

  /** The listed miners have their computed units; otherwise the table is as it was. */
  ghost predicate UnitsStored(before: Table, after: Table, listed: seq<Signal>,
                              units: Units) {
    && SameSignals(before, after)
    && (forall k :: 0 <= k < |listed| && listed[k].address in units ==>
          listed[k].address in after && after[listed[k].address].unit == units[listed[k].address])
    && (forall a :: a in after && after[a].unit != before[a].unit ==> a in units && after[a].unit == units[a])
  }

  method Replaced(listed: seq<Signal>, address: string, seen: Signal) returns (candidates: seq<Signal>)
    ensures |candidates| == |listed|
    ensures forall k :: 0 <= k < |listed| ==> candidates[k] == if listed[k].address == address then seen else listed[k]
  {
    candidates := seq(|listed|, k requires 0 <= k < |listed| =>
      if listed[k].address == address then seen else listed[k]);
  }

  lemma ListedAll(order: seq<string>, miners: Table, listed: seq<Signal>)
    requires ListsSet(order, miners.Keys) && ByAddress(miners) && |listed| == |order|
    requires forall k :: 0 <= k < |order| ==> order[k] in miners && listed[k] == miners[order[k]].signal
    ensures ListedIn(order, miners, listed)
  {
  }

  function Or<T>(update: Option<T>, current: T): T {
    if update.Some? then update.value else current
  }

  function Revised(m: Miner, unit: Option<Unit>, ip: Option<string>, agent: Option<string>): Miner {
    Miner(Signal(m.signal.address,
                 if ip.Some? then ip else m.signal.ip,
                 if agent.Some? then agent else m.signal.agent),
          Or(unit, m.unit))
  }

  lemma RevisedIs(m: Miner, m': Miner, unit: Option<Unit>, ip: Option<string>, agent: Option<string>)
    requires m'.signal.address == m.signal.address && m'.unit == Or(unit, m.unit)
    requires m'.signal.ip == (if ip.Some? then ip else m.signal.ip)
    requires m'.signal.agent == (if agent.Some? then agent else m.signal.agent)
    ensures m' == Revised(m, unit, ip, agent)
  {
  }

  ghost predicate SameSignals(before: Table, after: Table) {
    before.Keys == after.Keys && forall a :: a in before ==> after[a].signal == before[a].signal
  }

  ghost predicate ListedIn(order: seq<string>, miners: Table, listed: seq<Signal>) {
    && ListsSet(order, miners.Keys) && ByAddress(miners) && |listed| == |order|
    && forall k :: 0 <= k < |order| ==> order[k] in miners && listed[k] == miners[order[k]].signal
  }

  lemma ListedApart(order: seq<string>, miners: Table, listed: seq<Signal>, m: Miner)
    requires ListedIn(order, miners, listed) && m.signal.address !in miners
    ensures ListedIn(order + [m.signal.address], miners[m.signal.address := m], listed + [m.signal])
  {
  }

  /** The listed miners have an address each and are the stored ones. */
  lemma ListedWhole(order: seq<string>, miners: Table, listed: seq<Signal>)
    requires ListedIn(order, miners, listed)
    ensures OneEach(listed) && SetOf(listed) == SignalsIn(miners)
  {
    forall s ensures s in SetOf(listed) <==> s in SignalsIn(miners) {
      if s in SetOf(listed) {
        var k :| 0 <= k < |listed| && listed[k] == s;
        assert order[k] in miners;
      }
      if s in SignalsIn(miners) {
        var a :| a in miners && miners[a].signal == s;
        assert a in order;
        var k :| 0 <= k < |order| && order[k] == a;
        assert listed[k] == s;
      }
    }
  }

  lemma UnitsCover(signals: set<Signal>, units: Units)
    requires UnitsOf(signals, units)
    ensures forall m :: m in signals ==> m.address in units && units[m.address] == UnitOf(signals, m)
  {
    hide UnitOf;
    forall m | m in signals ensures m.address in units && units[m.address] == UnitOf(signals, m) {
      assert m.address in Addresses(signals);
    }
  }

  lemma SameSignalSet(before: Table, after: Table)
    requires SameSignals(before, after)
    ensures SignalsIn(before) == SignalsIn(after)
  {
    forall a | a in before ensures before[a].signal in SignalsIn(after) && after[a].signal in SignalsIn(before) {
      assert before[a].signal == after[a].signal;
    }
  }

  /** Once every listed miner has the computed unit, the table is in step. */
  lemma UnitsSettled(order: seq<string>, stored: Table, after: Table, units: Units)
    requires ListsSet(order, after.Keys) && SameSignals(stored, after)
    requires forall m :: m in SignalsIn(stored) ==>
              m.address in units && units[m.address] == UnitOf(SignalsIn(stored), m)
    requires ByAddress(after) && forall k :: 0 <= k < |order| ==> after[order[k]].unit == units[order[k]]
    ensures UnitsFollow(after, SignalsIn(after))
  {
    hide UnitOf;
    SameSignalSet(stored, after);
    forall a | a in after ensures after[a].unit == UnitOf(SignalsIn(after), after[a].signal) {
      assert a in order;
      var k :| 0 <= k < |order| && order[k] == a;
      assert after[a].signal in SignalsIn(stored);
    }
  }

  // ---- Runs --------------------------------------------------------------------------------------------

  datatype Call =
    | Joining(address: string, versionAllowed: bool, ip: Option<string>, userAgent: Option<string>)
    | Refreshing(address: string, ip: Option<string>, userAgent: Option<string>)

  /** Every stored unit is the one recomputed from the stored signals. */
  ghost predicate Follows(miners: Table) {
    UnitsFollow(miners, SignalsIn(miners))
  }

  predicate Accepted(miners: Table, call: Call)
    requires call.Joining?
  {
    "claw1" <= call.address && call.versionAllowed && call.address !in miners
  }

  /** When the units follow the signals after a call: a registration that is accepted makes them, a refresh
      that changes something does so exactly if it keeps the units, and other calls change nothing. */
  ghost predicate LeavesInStep(registry: Registry, miners: Table, call: Call) {
    match call
    case Joining(_, _, _, _) => Accepted(miners, call) || Follows(miners)
    case Refreshing(address, ip, userAgent) =>
      if address in miners && registry.Seen(miners[address].signal, ip, userAgent) != miners[address].signal then
        KeepsUnits(miners, address, registry.Seen(miners[address].signal, ip, userAgent))
      else
        Follows(miners)
  }

  /** The call turns an address stored for its miner into none. */
  predicate TakesAway(registry: Registry, miners: Table, call: Call) {
    call.Refreshing? && call.address in miners && miners[call.address].signal.ip.Some?
    && registry.Seen(miners[call.address].signal, call.ip, call.userAgent).ip.None?
  }

  /** The tables a run goes through. */
  ghost predicate Tables(registry: Registry, calls: seq<Call>, tables: seq<Table>) {
    && |tables| == |calls| + 1
    && forall k :: 0 <= k < |calls| ==> (Follows(tables[k + 1]) <==> LeavesInStep(registry, tables[k], calls[k]))
  }

  method Apply(registry: Registry, call: Call)
    requires registry.Valid()
    modifies registry
    ensures registry.Valid() && (Follows(registry.miners) <==> LeavesInStep(registry, old(registry.miners), call))
  {
    hide UnitsFollow, ListsSet, ByAddress, KeepsUnits, Restored, Joined;
    match call
    case Joining(address, versionAllowed, ip, userAgent) =>
      var _ := registry.Register(address, versionAllowed, ip, userAgent);
    case Refreshing(address, ip, userAgent) =>
      var _ := registry.Refresh(address, ip, userAgent);
  }

  /** Over every run of registrations and refreshes, whatever calls fail on the way, it is known exactly
      after which calls every stored unit is the one recomputed from the stored signals. */
  method RunAll(registry: Registry, calls: seq<Call>) returns (ghost tables: seq<Table>)
    requires registry.Valid()
    modifies registry
    ensures registry.Valid() && Tables(registry, calls, tables)
    ensures tables[0] == old(registry.miners) && tables[|calls|] == registry.miners
  {
    hide Follows, LeavesInStep, ListsSet, ByAddress;
    tables := [registry.miners];
    for k := 0 to |calls|
      invariant registry.Valid() && |tables| == k + 1
      invariant tables[0] == old(registry.miners) && tables[k] == registry.miners
      invariant forall i :: 0 <= i < k ==> (Follows(tables[i + 1]) <==> LeavesInStep(registry, tables[i], calls[i]))
    {
      Apply(registry, calls[k]);
      tables := tables + [registry.miners];
    }
  }

  /** A table in step is left so by every call that does not take away a stored address. */
  lemma KeptInStep(registry: Registry, miners: Table, call: Call)
    requires Follows(miners) && !TakesAway(registry, miners, call)
    ensures LeavesInStep(registry, miners, call)
  {
    hide Follows;
  }

  /** So a run in which no call takes away a stored address keeps the table in step throughout. */
  lemma {:induction false} InStepThroughout(registry: Registry, calls: seq<Call>, tables: seq<Table>, k: nat)
    requires Tables(registry, calls, tables) && k < |tables| && Follows(tables[0])
    requires forall i :: 0 <= i < k ==> !TakesAway(registry, tables[i], calls[i])
    ensures Follows(tables[k])
  {
    hide Follows, TakesAway, LeavesInStep;
    if k > 0 {
      InStepThroughout(registry, calls, tables, k - 1);
      KeptInStep(registry, tables[k - 1], calls[k - 1]);
    }
  }

  // ---- Units registration can produce ------------------------------------------------------------------

  const FIRST := Signal("claw1a", Some("9.9.9.9"), None)
  const SECOND := Signal("claw1b", Some("9.9.9.9"), None)
  const BARRED := Signal("claw1a|claw1b", None, None)

  lemma HeadOrder(c: char, a: string, b: string)
    ensures StringLeq([c] + a, [c] + b) == StringLeq(a, b)
  {
    assert ([c] + a)[1..] == a && ([c] + b)[1..] == b;
  }

  lemma {:induction false} PrefixOrder(p: string, a: string, b: string)
    ensures StringLeq(p + a, p + b) == StringLeq(a, b)
  {
    hide StringLeq;
    if p == [] {
      assert p + a == a && p + b == b;
    } else {
      PrefixOrder(p[1..], a, b);
      HeadOrder(p[0], p[1..] + a, p[1..] + b);
      assert p + a == [p[0]] + (p[1..] + a) && p + b == [p[0]] + (p[1..] + b);
    }
  }

  lemma NeighboursLinked(ms: set<Signal>)
    requires ms == {FIRST, SECOND, BARRED}
    ensures Linked(ms, FIRST, FIRST) && Linked(ms, FIRST, SECOND) && Linked(ms, BARRED, BARRED)
    ensures !Linked(ms, FIRST, BARRED) && !Linked(ms, BARRED, FIRST) && !Linked(ms, BARRED, SECOND)
  {
    assert Evidences(FIRST) == Evidences(SECOND) && |Evidences(FIRST)| == 1;
    assert Evidences(FIRST)[0] in Evidences(SECOND);
    NoSignals(BARRED);
    hide Linked, Evidences;
    LinkedSelf(ms, FIRST);
    LinkedSelf(ms, BARRED);
    LinkedAdjacent(ms, FIRST, SECOND);
    NoEvidenceAlone(ms, BARRED, FIRST);
    NoEvidenceAlone(ms, BARRED, SECOND);
    if Linked(ms, FIRST, BARRED) {
      LinkedBack(ms, FIRST, BARRED);
    }
  }

  lemma NeighboursMates(ms: set<Signal>)
    requires ms == {FIRST, SECOND, BARRED}
    ensures Mates(ms, FIRST) == {"claw1a", "claw1b"} && Mates(ms, BARRED) == {"claw1a|claw1b"}
  {
    NeighboursLinked(ms);
    hide Linked;
  }

  lemma NeighboursInOrder()
    ensures InOrder(["claw1a", "claw1b"], {"claw1a", "claw1b"})
    ensures InOrder(["claw1a|claw1b"], {"claw1a|claw1b"})
  {
    assert "claw1" + "a" == "claw1a" && "claw1" + "b" == "claw1b";
    PrefixOrder("claw1", "a", "b");
    assert StringLeq("a", "b");
    hide StringLeq;
    assert "claw1a"[5] != "claw1b"[5];
  }

  lemma NeighboursUnits(ms: set<Signal>)
    requires ms == {FIRST, SECOND, BARRED}
    ensures UnitOf(ms, FIRST) == ["claw1a", "claw1b"] && UnitOf(ms, BARRED) == ["claw1a|claw1b"]
  {
    hide Mates, InOrder;
    NeighboursMates(ms);
    NeighboursInOrder();
    InOrderUnique(["claw1a", "claw1b"], UnitOf(ms, FIRST), {"claw1a", "claw1b"});
    InOrderUnique(["claw1a|claw1b"], UnitOf(ms, BARRED), {"claw1a|claw1b"});
  }

  lemma JoinedSignals(before: Table, after: Table, s: Signal)
    requires Joined(before, after, s) && s.address !in before
    ensures SignalsIn(after) == SignalsIn(before) + {s}
  {
    forall m ensures m in SignalsIn(after) <==> m in SignalsIn(before) || m == s {
      if m in SignalsIn(before) {
        var a :| a in before && before[a].signal == m;
        assert after[a].signal == m;
      }
    }
  }

  /** Register a miner seen from the given address, without a client string. */
  method RegisterNext(registry: Registry, s: Signal)
    requires registry.Valid() && "claw1" <= s.address && s.address !in registry.miners && s.agent.None?
    requires registry.Normal(s.ip) == s.ip
    modifies registry
    ensures registry.Valid() && registry.InStep() && Joined(old(registry.miners), registry.miners, s)
  {
    hide UnitsFollow, ListsSet, ByAddress, Joined, SignalsIn;
    var _ := registry.Register(s.address, true, s.ip, None);
  }

  /** Two registered units differ and have one seed. */
  ghost predicate OneSeed(miners: Table, a: string, b: string) {
    && a in miners && b in miners && miners[a].unit != miners[b].unit
    && Seed(miners[a].unit) == Seed(miners[b].unit)
  }

  lemma BarredSignals(m0: Table, m1: Table, m2: Table, m3: Table)
    requires m0 == map[] && Joined(m0, m1, FIRST) && Joined(m1, m2, SECOND) && Joined(m2, m3, BARRED)
    ensures SignalsIn(m3) == {FIRST, SECOND, BARRED}
    ensures FIRST.address in m3 && m3[FIRST.address].signal == FIRST
    ensures BARRED.address in m3 && m3[BARRED.address].signal == BARRED
  {
    assert SignalsIn(m0) == {};
    SecondUnseen(m0, m1);
    BarredUnseen(m0, m1, m2);
    hide SignalsIn;
    JoinedSignals(m0, m1, FIRST);
    JoinedSignals(m1, m2, SECOND);
    JoinedSignals(m2, m3, BARRED);
  }

  lemma BarredUnits(m0: Table, m1: Table, m2: Table, m3: Table)
    requires m0 == map[] && Joined(m0, m1, FIRST) && Joined(m1, m2, SECOND) && Joined(m2, m3, BARRED)
    requires UnitsFollow(m3, SignalsIn(m3))
    ensures OneSeed(m3, "claw1a", "claw1a|claw1b")
  {
    hide UnitOf, SignalsIn, Seed;
    BarredSignals(m0, m1, m2, m3);
    NeighboursUnits({FIRST, SECOND, BARRED});
    SeedsCollide();
  }

  lemma BarredUnseen(m0: Table, m1: Table, m2: Table)
    requires m0 == map[] && Joined(m0, m1, FIRST) && Joined(m1, m2, SECOND)
    ensures BARRED.address !in m2
  {
    assert |"claw1a"| != |"claw1a|claw1b"| && |"claw1b"| != |"claw1a|claw1b"|;
  }

  lemma SecondUnseen(m0: Table, m1: Table)
    requires m0 == map[] && Joined(m0, m1, FIRST)
    ensures SECOND.address !in m1
  {
    assert "claw1a"[5] != "claw1b"[5];
  }

  /** Registration lets two different units have one seed: two miners behind one address, and a third
      whose address joins theirs with the separator. */
  method BarredAddress() returns (registry: Registry)
    ensures fresh(registry) && registry.Valid() && registry.InStep()
    ensures OneSeed(registry.miners, "claw1a", "claw1a|claw1b")
  {
    registry := new Registry(ip => Some(ip), agent => Some(agent));
    hide SignalsIn, UnitsFollow, ListsSet, ByAddress, OneSeed, Joined;
    ghost var m0 := registry.miners;
    RegisterNext(registry, FIRST);
    ghost var m1 := registry.miners;
    SecondUnseen(m0, m1);
    RegisterNext(registry, SECOND);
    ghost var m2 := registry.miners;
    BarredUnseen(m0, m1, m2);
    RegisterNext(registry, BARRED);
    BarredUnits(m0, m1, m2, registry.miners);
  }
}
