/** The union-find over finding ids: a parent map updated in place, with path halving. */
module DisjointSets {

  /** `p` walks from `x` to `y` along edges taken in either direction. */
  ghost predicate Walk(edges: set<(string, string)>, p: seq<string>, x: string, y: string) {
    && p != [] && p[0] == x && p[|p| - 1] == y
    && forall i | 0 <= i < |p| - 1 :: Joined(edges, p[i], p[i + 1])
  }

  ghost predicate Joined(edges: set<(string, string)>, x: string, y: string) {
    (x, y) in edges || (y, x) in edges
  }

  ghost predicate Linked(edges: set<(string, string)>, x: string, y: string) {
    exists p :: Walk(edges, p, x, y)
  }

  lemma LinkedReflexive(edges: set<(string, string)>, x: string)
    ensures Linked(edges, x, x)
  {
    assert Walk(edges, [x], x, x);
  }

  lemma LinkedStep(edges: set<(string, string)>, x: string, y: string)
    requires Joined(edges, x, y)
    ensures Linked(edges, x, y)
  {
    assert Walk(edges, [x, y], x, y);
  }

  lemma LinkedTransitive(edges: set<(string, string)>, x: string, y: string, z: string)
    requires Linked(edges, x, y) && Linked(edges, y, z)
    ensures Linked(edges, x, z)
  {
    var p :| Walk(edges, p, x, y);
    var q :| Walk(edges, q, y, z);
    var r := p + q[1..];
    assert Walk(edges, r, x, z) by {
      forall i | 0 <= i < |r| - 1
        ensures Joined(edges, r[i], r[i + 1])
      {
        if i < |p| - 1 {
          assert r[i] == p[i] && r[i + 1] == p[i + 1];
        } else {
          assert r[i] == q[i - |p| + 1] && r[i + 1] == q[i - |p| + 2];
        }
      }
      assert r[|r| - 1] == z;
    }
  }

  lemma LinkedSymmetric(edges: set<(string, string)>, x: string, y: string)
    requires Linked(edges, x, y)
    ensures Linked(edges, y, x)
  {
    var p :| Walk(edges, p, x, y);
    var n := |p|;
    var r := seq(n, i requires 0 <= i < n => p[n - 1 - i]);
    assert Walk(edges, r, y, x) by {
      forall i | 0 <= i < |r| - 1
        ensures Joined(edges, r[i], r[i + 1])
      {
        assert Joined(edges, p[n - 2 - i], p[n - 2 - i + 1]);
      }
    }
  }

  lemma LinkedMonotone(edges: set<(string, string)>, more: set<(string, string)>, x: string, y: string)
    requires Linked(edges, x, y)
    requires forall u, v | Joined(edges, u, v) :: Joined(more, u, v)
    ensures Linked(more, x, y)
  {
    var p :| Walk(edges, p, x, y);
    assert Walk(more, p, x, y);
  }

  /** A map that is constant along every edge is constant along every walk. */
  lemma {:induction false} ConstantAlongWalk(edges: set<(string, string)>, root: map<string, string>, p: seq<string>, x: string, y: string)
    requires forall u, v | (u, v) in edges :: u in root && v in root && root[u] == root[v]
    requires Walk(edges, p, x, y) && x in root
    ensures y in root && root[x] == root[y]
    decreases |p|
  {
    if |p| > 1 {
      assert Joined(edges, p[0], p[0 + 1]);
      var q := p[1..];
      assert Walk(edges, q, p[1], y) by {
        forall i | 0 <= i < |q| - 1
          ensures Joined(edges, q[i], q[i + 1])
        {
          assert Joined(edges, p[i + 1], p[i + 1 + 1]);
        }
      }
      ConstantAlongWalk(edges, root, q, p[1], y);
    }
  }

  type Links = map<string, string>
  type Ranks = map<string, nat>

  /** `x` points upwards inside its own component. */
  ghost predicate Node(parent: Links, root: Links, rank: Ranks, x: string) {
    && x in parent && x in root && x in rank
    && parent[x] in parent && parent[x] in root && parent[x] in rank
    && root[x] in parent && root[x] in root && root[x] in rank
    && root[parent[x]] == root[x] == root[root[x]] == parent[root[x]]
    && (parent[x] == x <==> root[x] == x)
    && (parent[x] != x ==> rank[x] < rank[parent[x]])
    && rank[x] <= rank[root[x]]
  }

  ghost predicate Forest(parent: Links, root: Links, rank: Ranks) {
    && parent.Keys == root.Keys == rank.Keys
    && forall x {:trigger Node(parent, root, rank, x)} | x in parent :: Node(parent, root, rank, x)
  }

  lemma HalvingKeepsForest(parent: Links, root: Links, rank: Ranks, r: string)
    requires Forest(parent, root, rank) && r in parent && parent[r] != r
    ensures parent[r] in parent
    ensures Forest(parent[r := parent[parent[r]]], root, rank)
    ensures root[r] in rank
    ensures var up := parent[parent[r]]; up in parent && root[up] == root[r] && rank[r] < rank[up] <= rank[root[r]]
  {
    assert Node(parent, root, rank, r) && Node(parent, root, rank, parent[r]);
    var up := parent[parent[r]];
    assert Node(parent, root, rank, up);
    var halved := parent[r := up];
    forall x | x in halved
      ensures Node(halved, root, rank, x)
    {
      assert Node(parent, root, rank, x);
    }
  }

  lemma RootsAreNodes(parent: Links, root: Links, rank: Ranks)
    requires Forest(parent, root, rank)
    ensures root.Values <= root.Keys
  {
    forall y | y in root.Values
      ensures y in root
    {
      var x :| x in root && root[x] == y;
      assert Node(parent, root, rank, x);
    }
  }

  lemma AddKeepsForest(parent: Links, root: Links, rank: Ranks, a: string)
    requires Forest(parent, root, rank) && a !in parent
    ensures Forest(parent[a := a], root[a := a], rank[a := 0])
  {
    var p, r, k := parent[a := a], root[a := a], rank[a := 0];
    forall x | x in p
      ensures Node(p, r, k, x)
    {
      assert x != a ==> Node(parent, root, rank, x);
    }
  }

  ghost function JoinedRoots(root: Links, c: string, d: string): Links {
    map x | x in root :: if root[x] == c then d else root[x]
  }

  ghost function LiftedRanks(root: Links, rank: Ranks, c: string, d: string): Ranks
    requires c in rank && root.Keys == rank.Keys
  {
    map x | x in rank :: if root[x] == d then rank[x] + rank[c] + 1 else rank[x]
  }

  lemma JoinKeepsForest(parent: Links, root: Links, rank: Ranks, c: string, d: string)
    requires Forest(parent, root, rank) && c in parent && d in parent && c != d
    requires root[c] == c && root[d] == d
    ensures Forest(parent[c := d], JoinedRoots(root, c, d), LiftedRanks(root, rank, c, d))
  {
    var p, r, k := parent[c := d], JoinedRoots(root, c, d), LiftedRanks(root, rank, c, d);
    assert Node(parent, root, rank, c) && Node(parent, root, rank, d);
    forall x | x in p
      ensures Node(p, r, k, x)
    {
      assert Node(parent, root, rank, x) && Node(parent, root, rank, parent[x]);
      assert Node(parent, root, rank, root[x]);
    }
  }

  /** The representatives describe exactly the components of the united pairs. */
  ghost predicate Describes(root: Links, edges: set<(string, string)>) {
    && (forall u, v | (u, v) in edges :: u in root && v in root && root[u] == root[v])
    && (forall x, y {:trigger Linked(edges, x, y)} | x in root && y in root && root[x] == root[y] :: Linked(edges, x, y))
  }

  lemma AddKeepsDescription(root: Links, edges: set<(string, string)>, a: string)
    requires Describes(root, edges) && a !in root && root.Values <= root.Keys
    ensures Describes(root[a := a], edges)
  {
    LinkedReflexive(edges, a);
    assert forall x | x in root :: root[x] in root.Values;
  }

  lemma SameComponentEdge(root: Links, edges: set<(string, string)>, a: string, b: string)
    requires Describes(root, edges) && a in root && b in root && root[a] == root[b]
    ensures Describes(root, edges + {(a, b)})
  {
    forall x, y | x in root && y in root && root[x] == root[y]
      ensures Linked(edges + {(a, b)}, x, y)
    {
      LinkedMonotone(edges, edges + {(a, b)}, x, y);
    }
  }

  /** Elements of two components become linked once an edge joins the components. */
  lemma LinkThrough(root: Links, edges: set<(string, string)>, a: string, b: string, x: string, y: string)
    requires Describes(root, edges) && a in root && b in root && x in root && y in root
    requires root[x] == root[a] && root[y] == root[b]
    ensures Linked(edges + {(a, b)}, x, y) && Linked(edges + {(a, b)}, y, x)
  {
    var more := edges + {(a, b)};
    LinkedMonotone(edges, more, x, a);
    LinkedMonotone(edges, more, b, y);
    LinkedStep(more, a, b);
    LinkedTransitive(more, x, a, b);
    LinkedTransitive(more, x, b, y);
    LinkedSymmetric(more, x, y);
  }

  lemma JoinKeepsDescription(root: Links, edges: set<(string, string)>, a: string, b: string)
    requires Describes(root, edges) && a in root && b in root
    ensures Describes(JoinedRoots(root, root[a], root[b]), edges + {(a, b)})
  {
    var r, more := JoinedRoots(root, root[a], root[b]), edges + {(a, b)};
    forall x, y | x in r && y in r && r[x] == r[y]
      ensures Linked(more, x, y)
    {
      if root[x] == root[y] {
        LinkedMonotone(edges, more, x, y);
      } else if root[x] == root[a] {
        LinkThrough(root, edges, a, b, x, y);
      } else {
        LinkThrough(root, edges, a, b, y, x);
      }
    }
  }

  class UnionFind {
    var parent: Links
    /** The representative every walk up the parents ends in. */
    ghost var root: Links
    /** Grows along parent links, which is why walks up the parents end. */
    ghost var rank: Ranks
    /** The pairs united so far. */
    ghost var edges: set<(string, string)>

    ghost predicate Valid()
      reads this
    {
      Forest(parent, root, rank) && Describes(root, edges)
    }

    constructor ()
      ensures Valid() && edges == {} && parent == map[]
    {
      parent, root, rank, edges := map[], map[], map[], {};
    }

    /** Path halving: returns the representative and changes only the shape of the forest. */
    method Find(x: string) returns (r: string)
      requires Valid() && x in parent
      modifies this`parent
      ensures Valid() && parent.Keys == old(parent.Keys)
      ensures r in parent && x in root && r in root && r == root[x] == root[r]
    {
      r := x;
      assert Node(parent, root, rank, x);
      while parent[r] != r
        invariant Forest(parent, root, rank) && parent.Keys == old(parent.Keys)
        invariant r in parent && root[r] == root[x] && root[x] in rank && rank[r] <= rank[root[x]]
        decreases rank[root[x]] - rank[r]
      {
        HalvingKeepsForest(parent, root, rank, r);
        parent := parent[r := parent[parent[r]]];
        r := parent[r];
      }
      assert Node(parent, root, rank, r);
    }

    /** Unites the components of `a` and `b`, adding either id on first sight. */
    method Union(a: string, b: string)
      requires Valid()
      modifies this
      ensures Valid()
      ensures edges == old(edges) + {(a, b)}
      ensures parent.Keys == old(parent.Keys) + {a, b}
    {
      AddBoth(a, b);
      var rootA := Find(a);
      var rootB := Find(b);
      Unite(rootA, rootB, a, b);
    }

    method AddBoth(a: string, b: string)
      requires Valid()
      modifies this
      ensures Valid() && edges == old(edges)
      ensures parent.Keys == old(parent.Keys) + {a, b} && a in parent && b in parent && a in root && b in root
    {
      Add(a);
      Add(b);
    }

    /** Records the pair; two different representatives are joined first. */
    method Unite(c: string, d: string, ghost a: string, ghost b: string)
      requires Valid() && a in root && b in root && c in parent && d in parent
      requires c in root && d in root && c == root[a] == root[c] && d == root[b] == root[d]
      modifies this
      ensures Valid() && parent.Keys == old(parent.Keys)
      ensures edges == old(edges) + {(a, b)}
    {
      if c != d {
        Join(c, d, a, b);
      } else {
        SameComponentEdge(root, edges, a, b);
        edges := edges + {(a, b)};
      }
    }

    /** Hangs the component of `a`, with representative `c`, under `d`, the one of `b`. */
    method Join(c: string, d: string, ghost a: string, ghost b: string)
      requires Valid() && a in root && b in root && c in parent && d in parent
      requires c == root[a] == root[c] && d == root[b] == root[d] && c != d
      modifies this
      ensures Valid() && parent.Keys == old(parent.Keys)
      ensures edges == old(edges) + {(a, b)}
    {
      JoinKeepsForest(parent, root, rank, c, d);
      JoinKeepsDescription(root, edges, a, b);
      ghost var lifted, joined := LiftedRanks(root, rank, c, d), JoinedRoots(root, c, d);
      parent, root, rank := parent[c := d], joined, lifted;
      edges := edges + {(a, b)};
    }

    method Add(a: string)
      requires Valid()
      modifies this
      ensures Valid() && edges == old(edges)
      ensures parent.Keys == old(parent.Keys) + {a}
    {
      if a !in parent {
        AddKeepsForest(parent, root, rank, a);
        RootsAreNodes(parent, root, rank);
        AddKeepsDescription(root, edges, a);
        parent, root, rank := parent[a := a], root[a := a], rank[a := 0];
      }
    }

    /** Two known ids have the same representative exactly when united pairs link them. */
    lemma RootsAgree(x: string, y: string)
      requires Valid() && x in root
      ensures y in root && root[x] == root[y] <==> Linked(edges, x, y)
    {
      if Linked(edges, x, y) {
        var p :| Walk(edges, p, x, y);
        ConstantAlongWalk(edges, root, p, x, y);
      }
    }
  }
}
