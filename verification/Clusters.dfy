/** Economic units: miners that a chain of shared network or client evidence links
    (forecast_engine.compute_economic_unit_components). */
module Clusters {
  import opened Options
  import opened Ordering
  import opened UnionFind

  /** What a miner is clustered by. */
  datatype Signal = Signal(address: string, ip: Option<string>, agent: Option<string>)

  /** A unit id stands for the sorted member addresses it is the digest of. */
  type Unit = seq<string>

  type Units = map<string, Unit>

  // ---- Evidence ----------------------------------------------------------------------------------------

  predicate IsSpace(c: char) {
    '\t' <= c <= '\r' || '\U{1c}' <= c <= ' '
  }

  function Strip(s: string): string {
    if s == [] then s
    else if IsSpace(s[0]) then Strip(s[1..])
    else if IsSpace(s[|s| - 1]) then Strip(s[..|s| - 1])
    else s
  }

  function Lower(s: string): string {
    seq(|s|, k requires 0 <= k < |s| => if 'A' <= s[k] <= 'Z' then s[k] - 'A' + 'a' else s[k])
  }

  predicate Given(field: Option<string>) {
    field.Some? && field.value != ""
  }

  function Evidences(m: Signal): seq<string> {
    (if Given(m.ip) then ["ip:" + Lower(Strip(m.ip.value))] else [])
    + (if Given(m.agent) then [m.agent.value] else [])
  }

  /** Horizontal tab to carriage return, the four separators, and the space. */
  predicate IsBlank(c: char) {
    9 <= c as int <= 13 || 28 <= c as int <= 32
  }

  lemma BlankIs(c: char)
    ensures IsBlank(c) == IsSpace(c)
  {
  }

  /** Stripping takes blanks off both ends, and leaves none there. */
  lemma {:induction false} StripTakesBlanks(s: string) returns (front: string, back: string)
    ensures s == front + Strip(s) + back
    ensures forall c :: c in front || c in back ==> IsBlank(c)
    ensures Strip(s) != [] ==> !IsBlank(Strip(s)[0]) && !IsBlank(Strip(s)[|Strip(s)| - 1])
  {
    hide IsSpace, IsBlank;
    if s == [] {
      front, back := [], [];
    } else if IsSpace(s[0]) {
      BlankIs(s[0]);
      front, back := StripTakesBlanks(s[1..]);
      assert s == [s[0]] + s[1..];
      front := [s[0]] + front;
    } else if IsSpace(s[|s| - 1]) {
      BlankIs(s[|s| - 1]);
      front, back := StripTakesBlanks(s[..|s| - 1]);
      assert s == s[..|s| - 1] + [s[|s| - 1]];
      back := back + [s[|s| - 1]];
    } else {
      BlankIs(s[0]);
      BlankIs(s[|s| - 1]);
      front, back := [], [];
    }
  }

  /** The capitals, with the codes 65 to 90, become the letters 32 codes further on, and nothing else changes. */
  lemma LowerLetters(s: string, k: nat)
    requires k < |s|
    ensures |Lower(s)| == |s|
    ensures Lower(s)[k] as int == s[k] as int + if 65 <= s[k] as int <= 90 then 32 else 0
  {
  }

  /** Both have a network address, and the two are one but for surrounding blanks and case. */
  predicate SameAddress(m: Signal, n: Signal) {
    && m.ip.Some? && m.ip.value != "" && n.ip.Some? && n.ip.value != ""
    && Lower(Strip(m.ip.value)) == Lower(Strip(n.ip.value))
  }

  predicate SameClient(m: Signal, n: Signal) {
    m.agent.Some? && m.agent == n.agent && m.agent.value != ""
  }

  /** The client digest of one reads like the evidence of the other's address. */
  predicate NamesAddress(m: Signal, n: Signal) {
    && m.agent.Some? && n.ip.Some? && n.ip.value != ""
    && m.agent.value == "ip:" + Lower(Strip(n.ip.value))
  }

  // ---- What a unit is ----------------------------------------------------------------------------------

  ghost predicate Adjacent(m: Signal, n: Signal) {
    exists e :: e in Evidences(m) && e in Evidences(n)
  }

  /** Two miners share evidence exactly if they have the same address or the same client digest, or the digest of
      one reads like the address of the other. */
  lemma AdjacentIff(m: Signal, n: Signal)
    ensures Adjacent(m, n) == (SameAddress(m, n) || SameClient(m, n) || NamesAddress(m, n) || NamesAddress(n, m))
  {
    hide Strip, Lower;
    if SameAddress(m, n) {
      assert Evidences(m)[0] == Evidences(n)[0];
      assert Evidences(m)[0] in Evidences(n);
    }
    if SameClient(m, n) {
      HasClient(m);
      HasClient(n);
    }
    if NamesAddress(m, n) {
      HasClient(m);
      assert m.agent.value == Evidences(n)[0];
    }
    if NamesAddress(n, m) {
      HasClient(n);
      assert n.agent.value == Evidences(m)[0];
    }
    if e :| e in Evidences(m) && e in Evidences(n) {
      FromEvidence(m, e);
      FromEvidence(n, e);
      if m.ip.Some? && n.ip.Some? && e == "ip:" + Lower(Strip(m.ip.value)) == "ip:" + Lower(Strip(n.ip.value)) {
        AfterPrefix(Lower(Strip(m.ip.value)));
        AfterPrefix(Lower(Strip(n.ip.value)));
      }
    }
  }

  lemma AfterPrefix(s: string)
    ensures ("ip:" + s)[3..] == s
  {
  }

  lemma HasClient(m: Signal)
    requires m.agent.Some? && m.agent.value != ""
    ensures m.agent.value in Evidences(m)
  {
    hide Strip, Lower;
    assert Evidences(m)[|Evidences(m)| - 1] == m.agent.value;
  }

  lemma FromEvidence(m: Signal, e: string)
    requires e in Evidences(m)
    ensures (m.ip.Some? && m.ip.value != "" && e == "ip:" + Lower(Strip(m.ip.value)))
            || (m.agent == Some(e) && e != "")
  {
    hide Strip, Lower;
  }

  /** A chain of miners of ms in which neighbours share evidence. */
  ghost predicate Chain(ms: set<Signal>, path: seq<Signal>) {
    && path != [] && (forall k :: 0 <= k < |path| ==> path[k] in ms)
    && forall k :: 0 <= k < |path| - 1 ==> Adjacent(path[k], path[k + 1])
  }

  ghost predicate Joins(ms: set<Signal>, path: seq<Signal>, m: Signal, n: Signal) {
    Chain(ms, path) && path[0] == m && path[|path| - 1] == n
  }

  ghost predicate Linked(ms: set<Signal>, m: Signal, n: Signal) {
    exists path :: Joins(ms, path, m, n)
  }

  ghost function Mates(ms: set<Signal>, m: Signal): set<string> {
    set n | n in ms && Linked(ms, m, n) :: n.address
  }

  ghost function UnitOf(ms: set<Signal>, m: Signal): Unit {
    SortedSeq(Mates(ms, m))
  }

  ghost function Addresses(ms: set<Signal>): set<string> {
    set m | m in ms :: m.address
  }

  ghost predicate DistinctAddresses(ms: set<Signal>) {
    forall m, n :: m in ms && n in ms && m.address == n.address ==> m == n
  }

  /** Every miner is mapped to its unit, and nothing else is mapped. */
  ghost predicate UnitsOf(ms: set<Signal>, units: Units) {
    units.Keys == Addresses(ms) && forall m :: m in ms ==> units[m.address] == UnitOf(ms, m)
  }

  lemma LinkedSelf(ms: set<Signal>, m: Signal)
    requires m in ms
    ensures Linked(ms, m, m)
  {
    assert Joins(ms, [m], m, m);
  }

  lemma LinkedAdjacent(ms: set<Signal>, m: Signal, n: Signal)
    requires m in ms && n in ms && Adjacent(m, n)
    ensures Linked(ms, m, n)
  {
    assert Joins(ms, [m, n], m, n);
  }

  lemma LinkedBack(ms: set<Signal>, m: Signal, n: Signal)
    requires Linked(ms, m, n)
    ensures Linked(ms, n, m)
  {
    hide Evidences;
    var path :| Joins(ms, path, m, n);
    var back := seq(|path|, k requires 0 <= k < |path| => path[|path| - 1 - k]);
    forall k | 0 <= k < |back| - 1 ensures Adjacent(back[k], back[k + 1]) {
      assert Adjacent(path[|path| - 2 - k], path[|path| - 2 - k + 1]);
    }
    assert Joins(ms, back, n, m);
  }

  lemma LinkedOn(ms: set<Signal>, m: Signal, n: Signal, o: Signal)
    requires Linked(ms, m, n) && Linked(ms, n, o)
    ensures Linked(ms, m, o)
  {
    hide Adjacent;
    var p :| Joins(ms, p, m, n);
    var q :| Joins(ms, q, n, o);
    var path := p + q[1..];
    forall k | 0 <= k < |path| - 1 ensures Adjacent(path[k], path[k + 1]) {
      if k < |p| - 1 {
        assert Adjacent(p[k], p[k + 1]);
      } else {
        assert Adjacent(q[k - |p| + 1], q[k - |p| + 2]);
      }
    }
    assert Joins(ms, path, m, o);
  }

  lemma MatesSame(ms: set<Signal>, m: Signal, n: Signal)
    requires Linked(ms, m, n)
    ensures Mates(ms, m) == Mates(ms, n)
  {
    hide Joins;
    LinkedBack(ms, m, n);
    forall o | o in ms ensures Linked(ms, m, o) <==> Linked(ms, n, o) {
      if Linked(ms, m, o) {
        LinkedOn(ms, n, m, o);
      }
      if Linked(ms, n, o) {
        LinkedOn(ms, m, n, o);
      }
    }
  }

  /** Two miners have one unit id exactly when a chain of shared evidence links them. */
  lemma SameUnitIffLinked(ms: set<Signal>, m: Signal, n: Signal)
    requires DistinctAddresses(ms) && m in ms && n in ms
    ensures UnitOf(ms, m) == UnitOf(ms, n) <==> Linked(ms, m, n)
  {
    hide Joins;
    if Linked(ms, m, n) {
      MatesSame(ms, m, n);
    }
    if UnitOf(ms, m) == UnitOf(ms, n) {
      LinkedSelf(ms, n);
      assert n.address in Mates(ms, n);
      assert n.address in UnitOf(ms, n);
      assert n.address in Mates(ms, m);
    }
  }

  // ---- The text a unit id is the digest of -------------------------------------------------------------

  /** "|".join(sorted(addresses)) */
  function Seed(u: Unit): string {
    if u == [] then "" else if |u| == 1 then u[0] else u[0] + "|" + Seed(u[1..])
  }

  predicate NoBars(u: Unit) {
    forall a :: a in u ==> '|' !in a
  }

  /** The text cut at every separator. */
  function Split(s: string): (pieces: Unit)
    ensures pieces != []
  {
    if s == [] then [""]
    else
      var rest := Split(s[1..]);
      if s[0] == '|' then [""] + rest else [[s[0]] + rest[0]] + rest[1..]
  }

  /** A unit whose addresses are all cut at every separator. */
  function Pieces(u: Unit): Unit {
    if u == [] then [] else Split(u[0]) + Pieces(u[1..])
  }

  lemma {:induction false} SeedOfSplit(s: string)
    ensures Seed(Split(s)) == s && NoBars(Split(s))
  {
    if s != [] {
      var rest := Split(s[1..]);
      SeedOfSplit(s[1..]);
      if s[0] == '|' {
        assert ([""] + rest)[1..] == rest;
        assert s == "|" + s[1..];
      } else {
        SeedGrows(s[0], rest);
        assert s == [s[0]] + s[1..];
      }
    }
  }

  lemma SeedGrows(c: char, u: Unit)
    requires u != []
    ensures Seed([[c] + u[0]] + u[1..]) == [c] + Seed(u)
  {
    var v := [[c] + u[0]] + u[1..];
    assert v[1..] == u[1..];
    if |u| > 1 {
      assert ([c] + u[0]) + "|" + Seed(u[1..]) == [c] + (u[0] + "|" + Seed(u[1..]));
    }
  }

  lemma SplitStarts(c: char, s: string)
    ensures Split([]) == [""]
    ensures Split([c] + s) == if c == '|' then [""] + Split(s) else [[c] + Split(s)[0]] + Split(s)[1..]
  {
    assert ([c] + s)[1..] == s;
  }

  lemma {:induction false} SplitJoin(a: string, s: string)
    ensures Split(a + "|" + s) == Split(a) + Split(s)
  {
    hide Split;
    if a == [] {
      SplitStarts('|', s);
      assert a + "|" + s == ['|'] + s;
    } else {
      assert a + "|" + s == [a[0]] + (a[1..] + "|" + s) && a == [a[0]] + a[1..];
      SplitStarts(a[0], a[1..]);
      SplitStarts(a[0], a[1..] + "|" + s);
      SplitJoin(a[1..], s);
      SlicesJoin(Split(a[1..]), Split(s));
    }
  }

  lemma SlicesJoin(u: Unit, v: Unit)
    requires u != []
    ensures (u + v)[0] == u[0] && (u + v)[1..] == u[1..] + v
  {
  }

  /** Cutting a unit's seed at the separators gives back the unit's addresses, each cut the same way. */
  lemma {:induction false} SplitOfSeed(u: Unit)
    requires u != []
    ensures Split(Seed(u)) == Pieces(u)
  {
    if |u| == 1 {
      assert Pieces(u[1..]) == [];
    } else {
      SplitOfSeed(u[1..]);
      SplitJoin(u[0], Seed(u[1..]));
    }
  }

  lemma {:induction false} SplitNoBar(a: string)
    requires '|' !in a
    ensures Split(a) == [a]
  {
    if a != [] {
      assert a == [a[0]] + a[1..];
      SplitNoBar(a[1..]);
    }
  }

  lemma {:induction false} PiecesNoBars(u: Unit)
    ensures NoBars(Pieces(u)) && (NoBars(u) ==> Pieces(u) == u)
  {
    if u != [] {
      SeedOfSplit(u[0]);
      PiecesNoBars(u[1..]);
      if NoBars(u) {
        assert u[0] in u;
        SplitNoBar(u[0]);
        assert u == [u[0]] + u[1..];
      }
    }
  }

  /** Two units have one seed, and so one id, exactly when cutting their addresses at the separator gives
      one list. */
  lemma SeedsAgree(u: Unit, v: Unit)
    requires u != [] && v != []
    ensures Seed(u) == Seed(v) <==> Pieces(u) == Pieces(v)
  {
    SplitOfSeed(u);
    SplitOfSeed(v);
    SeedOfSplit(Seed(u));
    SeedOfSplit(Seed(v));
  }

  /** A unit can be read back from its seed exactly when none of its addresses contains the separator;
      otherwise the list read back is another one with the same seed. */
  lemma SeedReadBack(u: Unit)
    requires u != []
    ensures Split(Seed(u)) == u <==> NoBars(u)
    ensures Seed(Split(Seed(u))) == Seed(u)
  {
    SplitOfSeed(u);
    PiecesNoBars(u);
    SeedOfSplit(Seed(u));
  }

  /** Different units have different seeds, as long as no address contains the separator. */
  lemma SeedInjective(u: Unit, v: Unit)
    requires u != [] && v != [] && NoBars(u) && NoBars(v) && Seed(u) == Seed(v)
    ensures u == v
  {
    SeedReadBack(u);
    SeedReadBack(v);
  }

  lemma SeedsCollide()
    ensures Seed(["claw1a|claw1b"]) == Seed(["claw1a", "claw1b"])
  {
    assert ["claw1a", "claw1b"][1..] == ["claw1b"];
  }

  // ---- Computing the units -----------------------------------------------------------------------------

  predicate Lists(members: map<string, seq<nat>>, e: string, i: nat) {
    e in members && i in members[e]
  }

  ghost predicate Keyed(keys: seq<string>, members: map<string, seq<nat>>) {
    && (forall e :: e in keys <==> e in members)
    && (forall e :: e in members ==> members[e] != [])
  }

  ghost predicate Has(miners: seq<Signal>, e: string, i: nat) {
    i < |miners| && e in Evidences(miners[i])
  }

  /** members lists, under each evidence, the positions of the miners that carry it. */
  ghost predicate Indexed(miners: seq<Signal>, keys: seq<string>, members: map<string, seq<nat>>) {
    Keyed(keys, members) && forall e, i: nat :: Lists(members, e, i) <==> Has(miners, e, i)
  }

  ghost predicate IndexedUpTo(miners: seq<Signal>, k: nat, j: nat, members: map<string, seq<nat>>) {
    && (forall e, i: nat :: Lists(members, e, i) ==> Has(miners, e, i))
    && (forall e, i: nat :: i < k && Has(miners, e, i) ==> Lists(members, e, i))
    && (k < |miners| ==> forall t :: 0 <= t < j && t < |Evidences(miners[k])| ==>
         Lists(members, Evidences(miners[k])[t], k))
  }

  lemma EvidencesDone(miners: seq<Signal>, k: nat, members: map<string, seq<nat>>)
    requires k < |miners| && IndexedUpTo(miners, k, |Evidences(miners[k])|, members)
    ensures IndexedUpTo(miners, k + 1, 0, members)
  {
    hide Evidences, Lists;
    forall e, i: nat | i < k + 1 && Has(miners, e, i) ensures Lists(members, e, i) {
      if i == k {
        var t :| 0 <= t < |Evidences(miners[k])| && Evidences(miners[k])[t] == e;
      }
    }
  }

  method GatherEvidence(miners: seq<Signal>) returns (keys: seq<string>, members: map<string, seq<nat>>)
    ensures Indexed(miners, keys, members)
  {
    keys, members := [], map[];
    hide Evidences;
    for k := 0 to |miners|
      invariant Keyed(keys, members) && IndexedUpTo(miners, k, 0, members)
    {
      var evidences := Evidences(miners[k]);
      for j := 0 to |evidences|
        invariant Keyed(keys, members) && IndexedUpTo(miners, k, j, members)
      {
        ghost var before := members;
        keys, members := Note(keys, members, evidences[j], k);
        assert forall t :: 0 <= t < j ==> Lists(before, evidences[t], k);
      }
      EvidencesDone(miners, k, members);
    }
  }

  /** evidence_map.setdefault(evidence, []).append(idx) */
  method Note(keys: seq<string>, members: map<string, seq<nat>>, e: string, k: nat)
    returns (keys': seq<string>, members': map<string, seq<nat>>)
    requires Keyed(keys, members)
    ensures Keyed(keys', members')
    ensures forall f, i: nat :: Lists(members', f, i) <==> Lists(members, f, i) || (f == e && i == k)
  {
    keys', members' := keys, members;
    if e !in members {
      keys', members' := keys + [e], members[e := []];
    }
    members' := members'[e := members'[e] + [k]];
  }

  /** Positions with one root are linked. */
  ghost predicate Sound(miners: seq<Signal>, root: seq<nat>) {
    |root| == |miners| &&
    forall i, j :: 0 <= i < |miners| && 0 <= j < |miners| && root[i] == root[j] ==>
      Linked(SetOf(miners), miners[i], miners[j])
  }

  ghost function SetOf(miners: seq<Signal>): set<Signal> {
    set k | 0 <= k < |miners| :: miners[k]
  }

  ghost predicate AllJoined(root: seq<nat>, members: seq<nat>) {
    forall x, y :: x in members && y in members ==> x < |root| && y < |root| && root[x] == root[y]
  }

  ghost predicate Coarser(root: seq<nat>, root': seq<nat>) {
    |root| == |root'| &&
    forall i, j :: 0 <= i < |root| && 0 <= j < |root| && root[i] == root[j] ==> root'[i] == root'[j]
  }

  lemma JoinSound(miners: seq<Signal>, root: seq<nat>, a: nat, b: nat)
    requires Sound(miners, root) && a < |root| && b < |root| && Adjacent(miners[a], miners[b])
    ensures Sound(miners, Joined(root, a, b)) && Coarser(root, Joined(root, a, b))
    ensures Joined(root, a, b)[a] == Joined(root, a, b)[b]
  {
    hide Linked, Adjacent;
    var ms, r := SetOf(miners), Joined(root, a, b);
    LinkedAdjacent(ms, miners[a], miners[b]);
    forall i, j | 0 <= i < |miners| && 0 <= j < |miners| && r[i] == r[j] ensures Linked(ms, miners[i], miners[j]) {
      if root[i] != root[j] {
        if root[i] == root[b] {
          CrossLink(ms, miners[j], miners[a], miners[b], miners[i]);
        } else {
          CrossLink(ms, miners[i], miners[a], miners[b], miners[j]);
        }
      }
    }
  }

  lemma CrossLink(ms: set<Signal>, m: Signal, a: Signal, b: Signal, n: Signal)
    requires Linked(ms, m, a) && Linked(ms, a, b) && Linked(ms, b, n)
    ensures Linked(ms, m, n) && Linked(ms, n, m)
  {
    hide Linked;
    LinkedOn(ms, m, a, b);
    LinkedOn(ms, m, b, n);
    LinkedBack(ms, m, n);
  }

  /** union(first, other) for every other member of one evidence's list. */
  method JoinMembers(miners: seq<Signal>, parent: array<nat>, ghost root: seq<nat>, ghost level: seq<nat>,
                     group: seq<nat>, ghost e: string)
    returns (ghost root': seq<nat>, ghost level': seq<nat>)
    requires Forest(parent[..], root, level) && parent.Length == |miners| && Sound(miners, root)
    requires group != [] && forall i :: i in group ==> Has(miners, e, i)
    modifies parent
    ensures Forest(parent[..], root', level') && Sound(miners, root')
    ensures Coarser(root, root') && AllJoined(root', group)
  {
    hide Linked, Evidences;
    root', level' := root, level;
    var first := group[0];
    assert group[..1] == [first] && Has(miners, e, first);
    for t := 1 to |group|
      invariant Forest(parent[..], root', level') && Sound(miners, root') && Coarser(root, root')
      invariant AllJoined(root', group[..t])
    {
      assert Has(miners, e, first) && Has(miners, e, group[t]);
      JoinSound(miners, root', first, group[t]);
      ghost var before := root';
      root', level' := Union(parent, root', level', first, group[t]);
      JoinedNext(before, root', group, t);
    }
    assert group[..|group|] == group;
  }

  lemma JoinedNext(root: seq<nat>, root': seq<nat>, group: seq<nat>, t: nat)
    requires 1 <= t < |group| && AllJoined(root, group[..t]) && Coarser(root, root')
    requires group[0] < |root'| && group[t] < |root'| && root'[group[0]] == root'[group[t]]
    ensures AllJoined(root', group[..t + 1])
  {
    assert group[..t][0] == group[0] && group[..t + 1] == group[..t] + [group[t]];
    forall x | x in group[..t + 1] ensures x < |root'| && root'[x] == root'[group[0]] {
      if x !in group[..t] {
        assert x == group[t];
      }
    }
  }

  method JoinAll(miners: seq<Signal>, keys: seq<string>, members: map<string, seq<nat>>)
    returns (parent: array<nat>, ghost root: seq<nat>, ghost level: seq<nat>)
    requires Indexed(miners, keys, members)
    ensures fresh(parent) && parent.Length == |miners|
    ensures Forest(parent[..], root, level) && Sound(miners, root)
    ensures forall e :: e in members ==> AllJoined(root, members[e])
  {
    hide Linked, Evidences, AllJoined;
    parent := new nat[|miners|](k => k);
    root, level := parent[..], parent[..];
    Alone(root, level);
    AloneSound(miners, root);
    for t := 0 to |keys|
      invariant Forest(parent[..], root, level) && Sound(miners, root)
      invariant forall u :: 0 <= u < t ==> AllJoined(root, members[keys[u]])
    {
      var e := keys[t];
      forall i | i in members[e] ensures Has(miners, e, i) {
        assert Lists(members, e, i);
      }
      ghost var before := root;
      root, level := JoinMembers(miners, parent, root, level, members[e], e);
      forall u | 0 <= u < t ensures AllJoined(root, members[keys[u]]) {
        StaysJoined(before, root, members[keys[u]]);
      }
    }
  }

  lemma AloneSound(miners: seq<Signal>, root: seq<nat>)
    requires |root| == |miners| && forall k :: 0 <= k < |root| ==> root[k] == k
    ensures Sound(miners, root)
  {
    hide Linked;
    forall i | 0 <= i < |miners| ensures Linked(SetOf(miners), miners[i], miners[i]) {
      LinkedSelf(SetOf(miners), miners[i]);
    }
  }

  lemma StaysJoined(root: seq<nat>, root': seq<nat>, group: seq<nat>)
    requires AllJoined(root, group) && Coarser(root, root')
    ensures AllJoined(root', group)
  {
  }

  ghost predicate OneEach(miners: seq<Signal>) {
    forall i, j :: 0 <= i < j < |miners| ==> miners[i].address != miners[j].address
  }

  /** Neighbours in a chain were joined, so the ends of a chain have one root. */
  lemma {:induction false} ChainJoined(miners: seq<Signal>, root: seq<nat>, keys: seq<string>,
                                      members: map<string, seq<nat>>, path: seq<Signal>, i: nat, j: nat)
    requires OneEach(miners) && |root| == |miners| && Indexed(miners, keys, members)
    requires forall e :: e in members ==> AllJoined(root, members[e])
    requires i < |miners| && j < |miners| && Joins(SetOf(miners), path, miners[i], miners[j])
    ensures root[i] == root[j]
    decreases |path|
  {
    hide Evidences;
    if |path| > 1 {
      assert path[1] in SetOf(miners);
      var k :| 0 <= k < |miners| && miners[k] == path[1];
      assert Adjacent(path[0], path[1]);
      AdjacentJoined(miners, root, keys, members, i, k);
      assert Joins(SetOf(miners), path[1..], miners[k], miners[j]);
      ChainJoined(miners, root, keys, members, path[1..], k, j);
    }
  }

  lemma AdjacentJoined(miners: seq<Signal>, root: seq<nat>, keys: seq<string>, members: map<string, seq<nat>>,
                       i: nat, j: nat)
    requires |root| == |miners| && Indexed(miners, keys, members)
    requires forall e :: e in members ==> AllJoined(root, members[e])
    requires i < |miners| && j < |miners| && Adjacent(miners[i], miners[j])
    ensures root[i] == root[j]
  {
    hide Evidences;
    var e :| e in Evidences(miners[i]) && e in Evidences(miners[j]);
    assert Has(miners, e, i) && Has(miners, e, j);
    assert Lists(members, e, i) && Lists(members, e, j);
    assert AllJoined(root, members[e]);
  }

  /** The roots are the classes of linked miners. */
  lemma RootsAreUnits(miners: seq<Signal>, root: seq<nat>, keys: seq<string>, members: map<string, seq<nat>>)
    requires OneEach(miners) && Indexed(miners, keys, members) && Sound(miners, root)
    requires forall e :: e in members ==> AllJoined(root, members[e])
    ensures RootsLink(miners, root)
  {
    hide Indexed, AllJoined, Joins;
    forall i, j | 0 <= i < |miners| && 0 <= j < |miners|
      ensures root[i] == root[j] <==> Linked(SetOf(miners), miners[i], miners[j])
    {
      if Linked(SetOf(miners), miners[i], miners[j]) {
        var path :| Joins(SetOf(miners), path, miners[i], miners[j]);
        ChainJoined(miners, root, keys, members, path, i, j);
      }
    }
  }

  /** The addresses of those miners that have root r, in list order. */
  ghost function MembersOf(addresses: seq<string>, roots: seq<nat>, r: nat): seq<string>
    requires |addresses| == |roots|
  {
    if addresses == [] then []
    else
      var n := |addresses| - 1;
      MembersOf(addresses[..n], roots[..n], r) + (if roots[n] == r then [addresses[n]] else [])
  }

  ghost predicate Grouped(addresses: seq<string>, roots: seq<nat>, order: seq<nat>, groups: map<nat, seq<string>>)
    requires |addresses| == |roots|
  {
    && (forall r :: r in order <==> r in groups) && (forall r :: r in roots <==> r in groups)
    && forall r :: r in groups ==> groups[r] == MembersOf(addresses, roots, r)
  }

  lemma {:induction false} NoMembers(addresses: seq<string>, roots: seq<nat>, r: nat)
    requires |addresses| == |roots| && r !in roots
    ensures MembersOf(addresses, roots, r) == []
  {
    if addresses != [] {
      var n := |addresses| - 1;
      NoMembers(addresses[..n], roots[..n], r);
    }
  }

  lemma MembersSnoc(addresses: seq<string>, roots: seq<nat>, r: nat, a: string, q: nat)
    requires |addresses| == |roots|
    ensures MembersOf(addresses + [a], roots + [q], r) == MembersOf(addresses, roots, r) + (if q == r then [a] else [])
  {
    assert (addresses + [a])[..|addresses|] == addresses && (roots + [q])[..|roots|] == roots;
  }

  lemma GroupedSnoc(addresses: seq<string>, roots: seq<nat>, order: seq<nat>, groups: map<nat, seq<string>>,
                    a: string, q: nat)
    requires |addresses| == |roots| && Grouped(addresses, roots, order, groups)
    ensures Grouped(addresses + [a], roots + [q], if q in groups then order else order + [q],
                    groups[q := (if q in groups then groups[q] else []) + [a]])
  {
    hide MembersOf;
    NoMembersUnlessIn(addresses, roots, q);
    var groups' := groups[q := (if q in groups then groups[q] else []) + [a]];
    forall r | r in groups' ensures groups'[r] == MembersOf(addresses + [a], roots + [q], r) {
      MembersSnoc(addresses, roots, r, a, q);
    }
  }

  lemma NoMembersUnlessIn(addresses: seq<string>, roots: seq<nat>, r: nat)
    requires |addresses| == |roots|
    ensures r in roots || MembersOf(addresses, roots, r) == []
  {
    if r !in roots {
      NoMembers(addresses, roots, r);
    }
  }

  ghost function AddressList(miners: seq<Signal>): (s: seq<string>)
    ensures |s| == |miners|
  {
    seq(|miners|, k requires 0 <= k < |miners| => miners[k].address)
  }

  /** components.setdefault(root, []).append(address) for every miner. */
  /** The roots of the first miners, found by their addresses. */
  ghost predicate RootsFound(miners: seq<Signal>, index: map<string, nat>, root: seq<nat>, roots: seq<nat>) {
    && |roots| <= |miners|
    && forall k :: 0 <= k < |roots| ==>
         && miners[k].address in index && index[miners[k].address] < |root|
         && roots[k] == root[index[miners[k].address]]
  }

  lemma FoundNone(miners: seq<Signal>, index: map<string, nat>, root: seq<nat>)
    ensures RootsFound(miners, index, root, [])
  {
  }

  lemma FoundNext(miners: seq<Signal>, index: map<string, nat>, root: seq<nat>, roots: seq<nat>, q: nat)
    requires RootsFound(miners, index, root, roots) && |roots| < |miners|
    requires miners[|roots|].address in index && index[miners[|roots|].address] < |root|
    requires q == root[index[miners[|roots|].address]]
    ensures RootsFound(miners, index, root, roots + [q])
  {
  }

  method GroupByRoot(miners: seq<Signal>, index: map<string, nat>, parent: array<nat>, ghost root: seq<nat>,
                     ghost level: seq<nat>)
    returns (order: seq<nat>, groups: map<nat, seq<string>>, ghost roots: seq<nat>)
    requires Forest(parent[..], root, level) && parent.Length == |miners|
    requires forall k :: 0 <= k < |miners| ==> miners[k].address in index && index[miners[k].address] < |miners|
    modifies parent
    ensures |roots| == |miners| && RootsFound(miners, index, root, roots)
    ensures Grouped(AddressList(miners), roots, order, groups)
  {
    assert |root| == parent.Length;
    hide Forest, MembersOf, Grouped, AddressList, RootsFound;
    order, groups, roots := [], map[], [];
    GroupedNone(AddressList(miners));
    FoundNone(miners, index, root);
    for k := 0 to |miners|
      invariant Forest(parent[..], root, level)
      invariant |roots| == k && RootsFound(miners, index, root, roots)
      invariant Grouped(AddressList(miners)[..k], roots, order, groups)
    {
      var a := miners[k].address;
      var q := Find(parent, root, level, index[a]);
      GroupedSnoc(AddressList(miners)[..k], roots, order, groups, a, q);
      AddressNext(miners, k);
      if q !in groups {
        order := order + [q];
      }
      groups := groups[q := (if q in groups then groups[q] else []) + [a]];
      FoundNext(miners, index, root, roots, q);
      roots := roots + [q];
    }
    assert AddressList(miners)[..|miners|] == AddressList(miners);
  }

  lemma GroupedNone(addresses: seq<string>)
    ensures Grouped(addresses[..0], [], [], map[])
  {
  }

  lemma AddressNext(miners: seq<Signal>, k: nat)
    requires k < |miners|
    ensures AddressList(miners)[..k + 1] == AddressList(miners)[..k] + [miners[k].address]
  {
  }

  /** units maps exactly the grouped addresses, each to the sorted list of one of its groups. */
  ghost predicate SpreadOver(order: seq<nat>, groups: map<nat, seq<string>>, units: Units) {
    && (forall r :: r in order ==> r in groups)
    && (forall r, a :: r in order && a in groups[r] ==> a in units)
    && (forall a :: a in units ==> exists r :: r in order && SpreadBy(groups, units, a, r))
  }

  ghost predicate SpreadBy(groups: map<nat, seq<string>>, units: Units, a: string, r: nat) {
    r in groups && a in units && a in groups[r] && units[a] == SortStrings(groups[r])
  }

  method Spread(order: seq<nat>, groups: map<nat, seq<string>>) returns (units: Units)
    requires forall r :: r in order ==> r in groups
    ensures SpreadOver(order, groups, units)
  {
    hide SortStrings;
    units := map[];
    for t := 0 to |order|
      invariant SpreadOver(order[..t], groups, units)
    {
      ghost var before := units;
      units := Assign(units, groups[order[t]], SortStrings(groups[order[t]]));
      hide SpreadOver;
      SpreadNext(order, groups, before, units, t);
    }
    assert order[..|order|] == order;
  }

  /** for address in addresses: result[address] = unit */
  method Assign(before: Units, addresses: seq<string>, unit: Unit) returns (units: Units)
    ensures units.Keys == before.Keys + set a | a in addresses
    ensures forall a :: a in units ==> units[a] == if a in addresses then unit else before[a]
  {
    units := before;
    for j := 0 to |addresses|
      invariant units.Keys == before.Keys + set a | a in addresses[..j]
      invariant forall a :: a in units ==> units[a] == if a in addresses[..j] then unit else before[a]
    {
      units := units[addresses[j] := unit];
      assert addresses[..j + 1] == addresses[..j] + [addresses[j]];
    }
    assert addresses[..|addresses|] == addresses;
  }

  lemma SpreadNext(order: seq<nat>, groups: map<nat, seq<string>>, before: Units, units: Units, t: nat)
    requires t < |order| && order[t] in groups && SpreadOver(order[..t], groups, before)
    requires units.Keys == before.Keys + set a | a in groups[order[t]]
    requires forall a :: a in units ==>
               units[a] == if a in groups[order[t]] then SortStrings(groups[order[t]]) else before[a]
    ensures SpreadOver(order[..t + 1], groups, units)
  {
    hide SortStrings;
    assert order[..t + 1] == order[..t] + [order[t]];
    forall a | a in units ensures exists r :: r in order[..t + 1] && SpreadBy(groups, units, a, r) {
      if a in groups[order[t]] {
        assert SpreadBy(groups, units, a, order[t]);
      } else {
        var r :| r in order[..t] && SpreadBy(groups, before, a, r);
        assert SpreadBy(groups, units, a, r);
      }
    }
  }

  method Components(miners: seq<Signal>) returns (units: Units)
    ensures OneEach(miners) ==> UnitsOf(SetOf(miners), units)
    ensures OneEach(miners) ==> forall i, j :: 0 <= i < |miners| && 0 <= j < |miners| ==>
                (miners[i].address in units && miners[j].address in units)
                && (SameAddress(miners[i], miners[j]) || SameClient(miners[i], miners[j]) ==>
                     units[miners[i].address] == units[miners[j].address])
  {
    hide SameAddress, SameClient;
    if miners == [] {
      units := map[];
      return;
    }
    var index: map<string, nat> := map[];
    for k := 0 to |miners|
      invariant forall i :: 0 <= i < k ==> miners[i].address in index && index[miners[i].address] < |miners|
      invariant OneEach(miners) ==> forall i :: 0 <= i < k ==> index[miners[i].address] == i
    {
      index := index[miners[k].address := k];
    }
    var keys, members := GatherEvidence(miners);
    hide Indexed, Forest, Sound, AllJoined, Linked, Grouped, SpreadOver, UnitsOf, RootsLink;
    ghost var root, level;
    var parent;
    parent, root, level := JoinAll(miners, keys, members);
    ghost var roots;
    var order, groups;
    order, groups, roots := GroupByRoot(miners, index, parent, root, level);
    GroupsHeld(AddressList(miners), roots, order, groups);
    units := Spread(order, groups);
    if OneEach(miners) {
      assert |root| == |miners| by {
        SoundLength(miners, root);
      }
      assert roots == root;
      RootsAreUnits(miners, root, keys, members);
      UnitsSpread(miners, root, order, groups, units);
      SharersTogether(miners, units);
    }
  }

  /** Miners that share an address or a client are in one unit. */
  lemma SharersTogether(miners: seq<Signal>, units: Units)
    requires OneEach(miners) && UnitsOf(SetOf(miners), units)
    ensures forall i, j :: 0 <= i < |miners| && 0 <= j < |miners| ==>
              (miners[i].address in units && miners[j].address in units)
              && (SameAddress(miners[i], miners[j]) || SameClient(miners[i], miners[j]) ==>
                   units[miners[i].address] == units[miners[j].address])
  {
    hide SameAddress, SameClient, Adjacent, Linked, UnitOf;
    var ms := SetOf(miners);
    forall i, j | 0 <= i < |miners| && 0 <= j < |miners|
      ensures miners[i].address in units && miners[j].address in units
      ensures SameAddress(miners[i], miners[j]) || SameClient(miners[i], miners[j]) ==>
                units[miners[i].address] == units[miners[j].address]
    {
      assert miners[i] in ms && miners[j] in ms;
      assert miners[i].address in Addresses(ms) && miners[j].address in Addresses(ms);
      AdjacentIff(miners[i], miners[j]);
      if Adjacent(miners[i], miners[j]) {
        LinkedAdjacent(ms, miners[i], miners[j]);
        UnitSame(ms, miners[i], miners[j]);
      }
    }
  }

  lemma UnitSame(ms: set<Signal>, m: Signal, n: Signal)
    requires Linked(ms, m, n)
    ensures UnitOf(ms, m) == UnitOf(ms, n)
  {
    MatesSame(ms, m, n);
  }

  lemma SoundLength(miners: seq<Signal>, root: seq<nat>)
    requires Sound(miners, root)
    ensures |root| == |miners|
  {
  }

  lemma GroupsHeld(addresses: seq<string>, roots: seq<nat>, order: seq<nat>, groups: map<nat, seq<string>>)
    requires |addresses| == |roots| && Grouped(addresses, roots, order, groups)
    ensures forall r :: r in order ==> r in groups
  {
  }

  /** A list without repeats stays one when some of it is kept. */
  lemma {:induction false} MembersListed(addresses: seq<string>, roots: seq<nat>, r: nat)
    requires |addresses| == |roots| && Distinct(addresses)
    ensures ListsSet(MembersOf(addresses, roots, r), set k | 0 <= k < |roots| && roots[k] == r :: addresses[k])
  {
    var all := set k | 0 <= k < |roots| && roots[k] == r :: addresses[k];
    if addresses != [] {
      var n := |addresses| - 1;
      MembersListed(addresses[..n], roots[..n], r);
      var before := set k | 0 <= k < n && roots[..n][k] == r :: addresses[..n][k];
      assert all == before + (if roots[n] == r then {addresses[n]} else {});
      assert addresses[n] !in before;
    }
  }

  ghost predicate RootsLink(miners: seq<Signal>, root: seq<nat>) {
    |root| == |miners| &&
    forall i, j :: 0 <= i < |miners| && 0 <= j < |miners| ==>
      (root[i] == root[j] <==> Linked(SetOf(miners), miners[i], miners[j]))
  }

  lemma AddressesDistinct(miners: seq<Signal>)
    requires OneEach(miners)
    ensures Distinct(AddressList(miners))
  {
  }

  /** A group whose root is that of a miner lists the miner's mates. */
  lemma GroupIsMates(miners: seq<Signal>, root: seq<nat>, k: nat)
    requires OneEach(miners) && RootsLink(miners, root) && k < |miners|
    ensures ListsSet(MembersOf(AddressList(miners), root, root[k]), Mates(SetOf(miners), miners[k]))
  {
    AddressesDistinct(miners);
    MembersListed(AddressList(miners), root, root[k]);
    hide MembersOf, Linked;
    var listed := set i | 0 <= i < |root| && root[i] == root[k] :: AddressList(miners)[i];
    var mates := Mates(SetOf(miners), miners[k]);
    forall a ensures a in listed <==> a in mates {
      if a in listed {
        var i :| 0 <= i < |root| && root[i] == root[k] && AddressList(miners)[i] == a;
        assert miners[i] in SetOf(miners) && Linked(SetOf(miners), miners[k], miners[i]);
      }
      if a in mates {
        var n :| n in SetOf(miners) && Linked(SetOf(miners), miners[k], n) && n.address == a;
        var i :| 0 <= i < |miners| && miners[i] == n;
        assert root[i] == root[k] && AddressList(miners)[i] == a;
      }
    }
    assert listed == mates;
  }

  lemma UnitAt(miners: seq<Signal>, root: seq<nat>, order: seq<nat>, groups: map<nat, seq<string>>,
               units: Units, k: nat)
    requires OneEach(miners) && RootsLink(miners, root) && k < |miners|
    requires Grouped(AddressList(miners), root, order, groups) && SpreadOver(order, groups, units)
    ensures miners[k].address in units && units[miners[k].address] == UnitOf(SetOf(miners), miners[k])
  {
    hide MembersOf, Linked, SortStrings, ListsSet, Mates;
    var a, mates := miners[k].address, Mates(SetOf(miners), miners[k]);
    GroupIsMates(miners, root, k);
    assert groups[root[k]] == MembersOf(AddressList(miners), root, root[k]);
    OwnMate(miners, k);
    ListHolds(groups[root[k]], mates, a);
    assert a in units;
    var r :| r in order && SpreadBy(groups, units, a, r);
    assert r == root[k] by {
      assert r in root && groups[r] == MembersOf(AddressList(miners), root, r);
      var i :| 0 <= i < |root| && root[i] == r;
      GroupIsMates(miners, root, i);
      MateRoot(miners, root, i, k);
      ListHolds(groups[r], Mates(SetOf(miners), miners[i]), a);
    }
    SortListing(groups[r], mates);
    InOrderUnique(units[a], SortedSeq(mates), mates);
  }

  lemma ListHolds(xs: seq<string>, s: set<string>, a: string)
    requires ListsSet(xs, s)
    ensures a in xs <==> a in s
  {
  }

  lemma OwnMate(miners: seq<Signal>, k: nat)
    requires k < |miners|
    ensures miners[k].address in Mates(SetOf(miners), miners[k])
  {
    LinkedSelf(SetOf(miners), miners[k]);
    hide Linked;
  }

  lemma MateRoot(miners: seq<Signal>, root: seq<nat>, i: nat, k: nat)
    requires OneEach(miners) && RootsLink(miners, root) && i < |miners| && k < |miners|
    ensures miners[k].address in Mates(SetOf(miners), miners[i]) ==> root[i] == root[k]
  {
    hide Linked;
    var a := miners[k].address;
    if a in Mates(SetOf(miners), miners[i]) {
      var n :| n in SetOf(miners) && Linked(SetOf(miners), miners[i], n) && n.address == a;
      var j :| 0 <= j < |miners| && miners[j] == n;
      assert j == k;
    }
  }

  lemma UnitsSpread(miners: seq<Signal>, root: seq<nat>, order: seq<nat>, groups: map<nat, seq<string>>,
                    units: Units)
    requires OneEach(miners) && RootsLink(miners, root)
    requires Grouped(AddressList(miners), root, order, groups) && SpreadOver(order, groups, units)
    ensures UnitsOf(SetOf(miners), units)
  {
    hide UnitOf, Linked, MembersOf, SortStrings;
    var ms := SetOf(miners);
    forall m | m in ms ensures m.address in units && units[m.address] == UnitOf(ms, m) {
      var k :| 0 <= k < |miners| && miners[k] == m;
      UnitAt(miners, root, order, groups, units, k);
    }
    forall a | a in units ensures a in Addresses(ms) {
      var r :| r in order && SpreadBy(groups, units, a, r);
      MembersAmong(AddressList(miners), root, r, a);
      var k :| 0 <= k < |miners| && AddressList(miners)[k] == a;
      assert miners[k] in ms;
    }
  }

  lemma {:induction false} MembersAmong(addresses: seq<string>, roots: seq<nat>, r: nat, a: string)
    requires |addresses| == |roots| && a in MembersOf(addresses, roots, r)
    ensures a in addresses
  {
    if addresses != [] {
      var n := |addresses| - 1;
      if a in MembersOf(addresses[..n], roots[..n], r) {
        MembersAmong(addresses[..n], roots[..n], r, a);
      }
    }
  }
}
