/** Union-find over list positions, with path halving (forecast_engine.compute_economic_unit_components). */
module UnionFind {
  /** parent is a forest: root[x] is the root above x, and levels fall along every parent link. */
  ghost predicate Forest(parent: seq<nat>, root: seq<nat>, level: seq<nat>) {
    && |root| == |parent| && |level| == |parent|
    && forall x :: 0 <= x < |parent| ==> Hangs(parent, root, level, x)
  }

  ghost predicate Hangs(parent: seq<nat>, root: seq<nat>, level: seq<nat>, x: nat)
    requires |root| == |parent| && |level| == |parent| && x < |parent|
  {
    && parent[x] < |parent| && root[x] < |parent|
    && root[parent[x]] == root[x] && root[root[x]] == root[x]
    && (parent[x] == x <==> root[x] == x)
    && (parent[x] != x ==> level[parent[x]] < level[x])
  }

  /** Halving changes the forest but neither its roots nor its levels; the search ends at the root. */
  method Find(parent: array<nat>, ghost root: seq<nat>, ghost level: seq<nat>, start: nat) returns (x: nat)
    requires Forest(parent[..], root, level) && start < parent.Length
    modifies parent
    ensures Forest(parent[..], root, level) && x == root[start] && x < parent.Length
  {
    x := start;
    while parent[x] != x
      invariant x < parent.Length && Forest(parent[..], root, level) && root[x] == root[start]
      decreases level[x]
    {
      ghost var before := parent[..];
      assert Hangs(before, root, level, x) && Hangs(before, root, level, before[x]);
      parent[x] := parent[parent[x]];
      HalvingKeeps(before, root, level, x);
      assert parent[..] == before[x := before[before[x]]];
      x := parent[x];
    }
    assert Hangs(parent[..], root, level, x);
  }

  lemma HalvingKeeps(parent: seq<nat>, root: seq<nat>, level: seq<nat>, x: nat)
    requires Forest(parent, root, level) && x < |parent| && parent[x] != x
    ensures parent[x] < |parent| && parent[parent[x]] < |parent| && Forest(parent[x := parent[parent[x]]], root, level)
    ensures level[parent[parent[x]]] < level[x]
  {
    assert Hangs(parent, root, level, x) && Hangs(parent, root, level, parent[x]);
    var y := parent[parent[x]];
    assert Hangs(parent, root, level, y);
    var after := parent[x := y];
    forall z | 0 <= z < |after| ensures Hangs(after, root, level, z) {
      assert Hangs(parent, root, level, z);
    }
  }

  /** The classes after joining those of a and b. */
  ghost function Joined(root: seq<nat>, a: nat, b: nat): (r: seq<nat>)
    requires a < |root| && b < |root|
    ensures |r| == |root|
  {
    seq(|root|, x requires 0 <= x < |root| => if root[x] == root[b] then root[a] else root[x])
  }

  ghost function Raised(root: seq<nat>, level: seq<nat>, a: nat, b: nat): (l: seq<nat>)
    requires |level| == |root| && a < |root| && b < |root| && root[a] < |root|
    ensures |l| == |root|
  {
    seq(|root|, x requires 0 <= x < |root| => if root[x] == root[b] then level[x] + level[root[a]] + 1 else level[x])
  }

  method Union(parent: array<nat>, ghost root: seq<nat>, ghost level: seq<nat>, a: nat, b: nat)
    returns (ghost root': seq<nat>, ghost level': seq<nat>)
    requires Forest(parent[..], root, level) && a < parent.Length && b < parent.Length
    modifies parent
    ensures Forest(parent[..], root', level') && root' == Joined(root, a, b)
  {
    var ra := Find(parent, root, level, a);
    var rb := Find(parent, root, level, b);
    root', level' := Joined(root, a, b), level;
    if ra != rb {
      ghost var before := parent[..];
      parent[rb] := ra;
      level' := Raised(root, level, a, b);
      LinkingKeeps(before, root, level, a, b);
      assert parent[..] == before[rb := ra];
    } else {
      assert root' == root;
    }
  }

  lemma LinkingKeeps(parent: seq<nat>, root: seq<nat>, level: seq<nat>, a: nat, b: nat)
    requires Forest(parent, root, level) && a < |parent| && b < |parent| && root[a] != root[b]
    ensures root[a] < |parent| && root[b] < |parent|
    ensures Forest(parent[root[b] := root[a]], Joined(root, a, b), Raised(root, level, a, b))
  {
    assert Hangs(parent, root, level, a) && Hangs(parent, root, level, b);
    var ra, rb := root[a], root[b];
    assert Hangs(parent, root, level, ra) && Hangs(parent, root, level, rb);
    var p, r, l := parent[rb := ra], Joined(root, a, b), Raised(root, level, a, b);
    forall x | 0 <= x < |p| ensures Hangs(p, r, l, x) {
      assert Hangs(parent, root, level, x) && Hangs(parent, root, level, root[x]);
      assert Hangs(parent, root, level, parent[x]);
    }
  }

  /** Each element alone. */
  lemma Alone(parent: seq<nat>, level: seq<nat>)
    requires |level| == |parent| && forall x :: 0 <= x < |parent| ==> parent[x] == x
    ensures Forest(parent, parent, level)
  {
  }
}
