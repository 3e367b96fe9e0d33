/** The finding registry: admission, reconciliation, deduplication, conflicts, settlement. */
module Registry {
  import opened Wrappers
  import opened Text
  import opened Sorting
  import opened Domain
  import opened Findings
  import opened Deduplication
  import opened DisjointSets
  import opened Conflicts
  import opened Settlement

  /** Whether a report may join a registry bound to `head`; a registry without head takes all. */
  predicate Admissible(head: Option<string>, strict: bool, f: Finding) {
    if !Nonempty(head) then true
    else if HeadText(f) == "" then !strict
    else HeadText(f) == Lower(Strip(head.value))
  }

  /** What reconciling one report does: refuses it, sets it aside, or yields the new list. */
  function ReconcileOutcome(key: KeyFn, head: Option<string>, strict: bool, s: seq<Finding>, f: Finding)
    : Result<Option<seq<Finding>>, FindingError>
  {
    if key(f).None? then Err(ReservedSeparator)
    else if ReusesId(key, s, f) then Err(IdReused)
    else if !Admissible(head, strict, f) then Ok(None)
    else
      var r :- Reconciled(key, s, f);
      Ok(Some(r))
  }

  ghost predicate WellFormedAll(s: seq<Finding>) {
    forall f | f in s :: f.WellFormed()
  }

  lemma MergeWellFormed(group: seq<Finding>, canonical: Finding)
    requires group != [] && WellFormedAll(group) && canonical.WellFormed()
    ensures Merge(group, canonical).WellFormed()
  {
    MaxConfidenceIsMaximum(group);
    var c := MaxConfidence(group);
    if c.Some? {
      var f :| f in group && f.confidence == c;
    }
  }

  // ----- The scan for contradicting pairs ----------------------------------

  /** Pairs `rel` relates inside a bucket: row `i` compares one finding with the later ones. */
  ghost function RowEdges(rel: Relation, b: seq<Finding>, i: nat, n: nat): set<(string, string)>
    requires i < |b| && n <= |b|
  {
    set j | i < j < n && rel(b[i], b[j]) :: (b[i].id, b[j].id)
  }

  ghost function BucketEdges(rel: Relation, b: seq<Finding>, n: nat): set<(string, string)>
    requires n <= |b|
  {
    if n == 0 then {} else BucketEdges(rel, b, n - 1) + RowEdges(rel, b, n - 1, |b|)
  }

  ghost function AllEdges(rel: Relation, buckets: seq<seq<Finding>>, n: nat): set<(string, string)>
    requires n <= |buckets|
  {
    if n == 0 then {}
    else AllEdges(rel, buckets, n - 1) + BucketEdges(rel, buckets[n - 1], |buckets[n - 1]|)
  }

  predicate LocatedAt(f: Finding, path: string) {
    Locatable(f) && f.path == Some(path)
  }

  /** The located findings of one file, by id. */
  function Bucket(s: seq<Finding>, path: string): seq<Finding> {
    Sort(Filter(s, (f: Finding) => LocatedAt(f, path)), ById)
  }

  function Buckets(s: seq<Finding>, paths: seq<string>): (r: seq<seq<Finding>>)
    ensures |r| == |paths| && forall k | 0 <= k < |paths| :: r[k] == Bucket(s, paths[k])
  {
    seq(|paths|, k requires 0 <= k < |paths| => Bucket(s, paths[k]))
  }

  lemma {:induction false} InBucketEdges(rel: Relation, b: seq<Finding>, n: nat, e: (string, string))
    requires n <= |b|
    ensures e in BucketEdges(rel, b, n) <==> exists i, j | 0 <= i < n && i < j < |b| :: rel(b[i], b[j]) && e == (b[i].id, b[j].id)
  {
    if n > 0 {
      InBucketEdges(rel, b, n - 1, e);
    }
  }

  lemma {:induction false} InAllEdges(rel: Relation, buckets: seq<seq<Finding>>, n: nat, e: (string, string))
    requires n <= |buckets|
    ensures e in AllEdges(rel, buckets, n) <==> exists k | 0 <= k < n :: e in BucketEdges(rel, buckets[k], |buckets[k]|)
  {
    if n > 0 {
      InAllEdges(rel, buckets, n - 1, e);
    }
  }

  function LocatedPaths(s: seq<Finding>): (r: seq<string>)
    ensures forall f | f in s && Locatable(f) :: f.path.value in r
  {
    if s == [] then []
    else (if Locatable(s[0]) then [s[0].path.value] else []) + LocatedPaths(s[1..])
  }

  lemma BucketMembers(s: seq<Finding>, path: string)
    ensures forall f :: f in Bucket(s, path) <==> f in s && LocatedAt(f, path)
  {
    SameElements(Filter(s, (f: Finding) => LocatedAt(f, path)), Bucket(s, path));
  }

  /** The bucket holds exactly the findings located at its path. */
  ghost predicate BucketAt(s: seq<Finding>, path: string, b: seq<Finding>) {
    forall f :: f in b <==> f in s && LocatedAt(f, path)
  }

  ghost predicate Bucketed(s: seq<Finding>, paths: seq<string>, buckets: seq<seq<Finding>>) {
    |buckets| == |paths| && forall k | 0 <= k < |paths| :: BucketAt(s, paths[k], buckets[k])
  }

  lemma BucketsMembers(s: seq<Finding>, paths: seq<string>)
    ensures Bucketed(s, paths, Buckets(s, paths))
  {
    forall k | 0 <= k < |paths|
      ensures BucketAt(s, paths[k], Buckets(s, paths)[k])
    {
      BucketMembers(s, paths[k]);
    }
  }

  lemma BucketEdge(rel: Relation, s: seq<Finding>, path: string, b: seq<Finding>, e: (string, string))
    requires BucketAt(s, path, b) && e in BucketEdges(rel, b, |b|)
    ensures e in Edges(rel, s)
  {
    InBucketEdges(rel, b, |b|, e);
    var i, j :| 0 <= i < |b| && i < j < |b| && rel(b[i], b[j]) && e == (b[i].id, b[j].id);
    assert b[i] in b && b[j] in b;
  }

  lemma ScannedEdge(rel: Relation, s: seq<Finding>, paths: seq<string>, buckets: seq<seq<Finding>>, e: (string, string))
    requires Bucketed(s, paths, buckets)
    ensures e in AllEdges(rel, buckets, |buckets|) ==> e in Edges(rel, s)
  {
    if e in AllEdges(rel, buckets, |buckets|) {
      InAllEdges(rel, buckets, |buckets|, e);
      var k :| 0 <= k < |buckets| && e in BucketEdges(rel, buckets[k], |buckets[k]|);
      BucketEdge(rel, s, paths[k], buckets[k], e);
    }
  }

  lemma PairScanned(rel: Relation, b: seq<Finding>, f: Finding, g: Finding)
    requires f in b && g in b && rel(f, g) && rel(g, f) && f != g
    ensures (f.id, g.id) in BucketEdges(rel, b, |b|) || (g.id, f.id) in BucketEdges(rel, b, |b|)
  {
    var i :| 0 <= i < |b| && b[i] == f;
    var j :| 0 <= j < |b| && b[j] == g;
    InBucketEdges(rel, b, |b|, if i < j then (f.id, g.id) else (g.id, f.id));
  }

  /** Related findings lie in one file and differ. */
  ghost predicate Local(rel: Relation) {
    forall f, g | rel(f, g) :: f != g && Locatable(f) && LocatedAt(f, f.path.value) && LocatedAt(g, f.path.value)
  }

  lemma EdgeScanned(rel: Relation, s: seq<Finding>, paths: seq<string>, buckets: seq<seq<Finding>>, f: Finding, g: Finding)
    requires Bucketed(s, paths, buckets) && Symmetric(rel) && Local(rel)
    requires f in s && g in s && rel(f, g) && f.path.Some? && f.path.value in paths
    ensures Joined(AllEdges(rel, buckets, |buckets|), f.id, g.id)
  {
    var k :| 0 <= k < |paths| && paths[k] == f.path.value;
    assert BucketAt(s, paths[k], buckets[k]);
    assert f in buckets[k] && g in buckets[k];
    PairScanned(rel, buckets[k], f, g);
    InAllEdges(rel, buckets, |buckets|, (f.id, g.id));
    InAllEdges(rel, buckets, |buckets|, (g.id, f.id));
  }

  /** The bucketed scan over all located paths finds every related pair, in one direction. */
  lemma ScanComplete(rel: Relation, s: seq<Finding>, paths: seq<string>, buckets: seq<seq<Finding>>, x: string, y: string)
    requires Bucketed(s, paths, buckets) && Symmetric(rel) && Local(rel)
    requires forall f | f in s && Locatable(f) :: f.path.value in paths
    ensures Joined(AllEdges(rel, buckets, |buckets|), x, y) <==> Joined(Edges(rel, s), x, y)
  {
    ScannedEdge(rel, s, paths, buckets, (x, y));
    ScannedEdge(rel, s, paths, buckets, (y, x));
    if Joined(Edges(rel, s), x, y) {
      var f, g :| f in s && g in s && f.id == x && g.id == y && (rel(f, g) || rel(g, f));
      assert rel(f, g) && rel(g, f);
      EdgeScanned(rel, s, paths, buckets, f, g);
    }
  }

  lemma ContradictsLocal()
    ensures Local(Contradicts)
  {
  }

  type Pairs = seq<(string, string)>

  lemma RowStep(rel: Relation, b: seq<Finding>, i: nat, j: nat)
    requires i < j < |b|
    ensures RowEdges(rel, b, i, j + 1) == RowEdges(rel, b, i, j) + (if rel(b[i], b[j]) then {(b[i].id, b[j].id)} else {})
  {
  }

  lemma ElementsSnoc<T>(s: seq<T>, x: T)
    ensures Elements(s + [x]) == Elements(s) + {x}
  {
  }

  /** Unites the pairs of one row and lists them after `pairs`. */
  method ScanRow(rel: Relation, bucket: seq<Finding>, i: nat, uf: UnionFind, pairs: Pairs) returns (found: Pairs)
    requires i < |bucket| && uf.Valid() && uf.edges == Elements(pairs)
    modifies uf
    ensures uf.Valid() && uf.edges == Elements(found) == old(uf.edges) + RowEdges(rel, bucket, i, |bucket|)
    ensures uf.parent.Keys == old(uf.parent.Keys) + Ends(RowEdges(rel, bucket, i, |bucket|))
  {
    found := pairs;
    ghost var row: set<(string, string)> := {};
    for j := i + 1 to |bucket|
      invariant uf.Valid() && row == RowEdges(rel, bucket, i, j)
      invariant uf.edges == Elements(found) == old(uf.edges) + row
      invariant uf.parent.Keys == old(uf.parent.Keys) + Ends(row)
    {
      RowStep(rel, bucket, i, j);
      if rel(bucket[i], bucket[j]) {
        var a, b := bucket[i].id, bucket[j].id;
        ElementsSnoc(found, (a, b));
        EndsGrow(row, a, b);
        found := found + [(a, b)];
        uf.Union(a, b);
        row := row + {(a, b)};
      }
    }
  }

  ghost function Ends(edges: set<(string, string)>): set<string> {
    (set e | e in edges :: e.0) + (set e | e in edges :: e.1)
  }

  lemma EndsGrow(edges: set<(string, string)>, a: string, b: string)
    ensures Ends(edges + {(a, b)}) == Ends(edges) + {a, b}
  {
    var more := edges + {(a, b)};
    assert (a, b) in more && forall e | e in edges :: e in more;
    assert (a, b).0 in Ends(more) && (a, b).1 in Ends(more);
    assert forall e | e in edges :: e.0 in Ends(more) && e.1 in Ends(more);
    assert forall e | e in more :: e in edges || e == (a, b);
  }

  lemma EndsUnion(p: set<(string, string)>, q: set<(string, string)>)
    ensures Ends(p + q) == Ends(p) + Ends(q)
  {
    assert forall e :: e in p + q <==> e in p || e in q;
  }

  method ScanBucket(rel: Relation, bucket: seq<Finding>, uf: UnionFind, pairs: Pairs) returns (found: Pairs)
    requires uf.Valid() && uf.edges == Elements(pairs)
    modifies uf
    ensures uf.Valid() && uf.edges == Elements(found) == old(uf.edges) + BucketEdges(rel, bucket, |bucket|)
    ensures uf.parent.Keys == old(uf.parent.Keys) + Ends(BucketEdges(rel, bucket, |bucket|))
  {
    found := pairs;
    for i := 0 to |bucket|
      invariant uf.Valid()
      invariant uf.edges == Elements(found) == old(uf.edges) + BucketEdges(rel, bucket, i)
      invariant uf.parent.Keys == old(uf.parent.Keys) + Ends(BucketEdges(rel, bucket, i))
    {
      found := ScanRow(rel, bucket, i, uf, found);
      EndsUnion(BucketEdges(rel, bucket, i), RowEdges(rel, bucket, i, |bucket|));
    }
  }

  method ScanBuckets(rel: Relation, buckets: seq<seq<Finding>>, uf: UnionFind) returns (found: Pairs)
    requires uf.Valid() && uf.edges == {} && uf.parent == map[]
    modifies uf
    ensures uf.Valid() && uf.edges == Elements(found) == AllEdges(rel, buckets, |buckets|)
    ensures uf.parent.Keys == Ends(uf.edges)
  {
    found := [];
    for k := 0 to |buckets|
      invariant uf.Valid()
      invariant uf.edges == Elements(found) == AllEdges(rel, buckets, k)
      invariant uf.parent.Keys == Ends(AllEdges(rel, buckets, k))
    {
      found := ScanBucket(rel, buckets[k], uf, found);
      EndsUnion(AllEdges(rel, buckets, k), BucketEdges(rel, buckets[k], |buckets[k]|));
    }
  }

  /** Two sets of pairs that join the same ids. */
  ghost predicate SameJoins(p: set<(string, string)>, q: set<(string, string)>) {
    forall x, y :: Joined(p, x, y) <==> Joined(q, x, y)
  }

  /** Unites every contradicting pair, path by path, and lists the pairs found. */
  method ScanPaths(s: seq<Finding>, uf: UnionFind) returns (found: Pairs)
    requires uf.Valid() && uf.edges == {} && uf.parent == map[]
    modifies uf
    ensures uf.Valid() && uf.edges == Elements(found) && uf.parent.Keys == Ends(uf.edges)
    ensures SameJoins(uf.edges, Edges(Contradicts, s))
  {
    var paths := Sort(AppendNew([], LocatedPaths(s)), StringLe);
    var buckets := Buckets(s, paths);
    found := ScanBuckets(Contradicts, buckets, uf);
    ScanFindsAll(s, paths, buckets);
  }

  lemma ScanFindsAll(s: seq<Finding>, paths: seq<string>, buckets: seq<seq<Finding>>)
    requires paths == Sort(AppendNew([], LocatedPaths(s)), StringLe) && buckets == Buckets(s, paths)
    ensures SameJoins(AllEdges(Contradicts, buckets, |buckets|), Edges(Contradicts, s))
  {
    SameElements(AppendNew([], LocatedPaths(s)), paths);
    BucketsMembers(s, paths);
    ContradictsSymmetric();
    ContradictsLocal();
    forall x, y
      ensures Joined(AllEdges(Contradicts, buckets, |buckets|), x, y) <==> Joined(Edges(Contradicts, s), x, y)
    {
      ScanComplete(Contradicts, s, paths, buckets, x, y);
    }
  }

  /** The elements of a set in string order. */
  method SortedSet(members: set<string>) returns (r: seq<string>)
    ensures r == SortedMembers(members)
  {
    var rest, listed: seq<string> := members, [];
    while rest != {}
      invariant rest <= members && Elements(listed) == members - rest && Distinct(listed)
      decreases rest
    {
      var x :| x in rest;
      assert x !in Elements(listed);
      assert Elements(listed + [x]) == Elements(listed) + {x};
      listed, rest := listed + [x], rest - {x};
    }
    SameElementSets(listed, Listed(members));
    SortStringsPermutation(listed, Listed(members));
    r := Sort(listed, StringLe);
  }

  // ----- Collecting the components -----------------------------------------

  /** The known ids whose representative is `r`. */
  ghost function Class(root: Links, r: string): set<string> {
    set x | x in root && root[x] == r
  }

  ghost predicate ComponentsOf(root: Links, seen: set<string>, components: map<string, set<string>>) {
    && components.Keys == (set x | x in seen && x in root :: root[x])
    && forall r | r in components :: components[r] == Class(root, r) * seen
  }

  lemma ComponentsStep(root: Links, seen: set<string>, components: map<string, set<string>>, a: string, b: string)
    requires ComponentsOf(root, seen, components) && a in root && b in root && root[a] == root[b]
    ensures var r := root[a];
            ComponentsOf(root, seen + {a, b},
                         components[r := (if r in components then components[r] else {}) + {a, b}])
  {
    var r, more := root[a], seen + {a, b};
    var next := components[r := (if r in components then components[r] else {}) + {a, b}];
    assert forall x :: x in more <==> x in seen || x == a || x == b;
    if r !in components {
      assert Class(root, r) * seen == {};
    }
    forall q | q in next
      ensures next[q] == Class(root, q) * more
    {
      if q != r {
        assert a !in Class(root, q) && b !in Class(root, q);
      }
    }
  }

  /** Groups the ends of the pairs by representative, querying the union-find for each pair. */
  method CollectComponents(pairs: Pairs, uf: UnionFind) returns (components: map<string, set<string>>)
    requires uf.Valid() && uf.edges == Elements(pairs)
    modifies uf`parent
    ensures uf.Valid() && uf.parent.Keys == old(uf.parent.Keys)
    ensures ComponentsOf(uf.root, Ends(uf.edges), components)
  {
    components := map[];
    ghost var seen: set<(string, string)> := {};
    for i := 0 to |pairs|
      invariant uf.Valid() && uf.parent.Keys == old(uf.parent.Keys) && seen == Elements(pairs[..i])
      invariant ComponentsOf(uf.root, Ends(seen), components)
    {
      var (a, b) := pairs[i];
      assert (a, b) in uf.edges;
      assert a in uf.root && b in uf.root && uf.root[a] == uf.root[b];
      assert a in uf.parent;
      var r := uf.Find(a);
      ComponentsStep(uf.root, Ends(seen), components, a, b);
      EndsGrow(seen, a, b);
      components := components[r := (if r in components then components[r] else {}) + {a, b}];
      assert pairs[..i + 1] == pairs[..i] + [pairs[i]];
      seen := seen + {(a, b)};
    }
    assert pairs[..|pairs|] == pairs;
  }

  lemma LinkedThere(e: set<(string, string)>, d: set<(string, string)>, x: string, y: string)
    requires SameJoins(e, d)
    ensures Linked(e, x, y) <==> Linked(d, x, y)
  {
    if Linked(e, x, y) {
      LinkedMonotone(e, d, x, y);
    }
    if Linked(d, x, y) {
      LinkedMonotone(d, e, x, y);
    }
  }

  /** Ids that end an edge are exactly the ids of findings in conflict. */
  lemma EndsAreConflicts(s: seq<Finding>, edges: set<(string, string)>, f: Finding)
    requires UniqueIds(s) && f in s
    requires SameJoins(edges, Edges(Contradicts, s))
    ensures f.id in Ends(edges) <==> InConflict(Contradicts, s, f)
  {
    ContradictsSymmetric();
    if f.id in Ends(edges) {
      var e :| e in edges && (e.0 == f.id || e.1 == f.id);
      var y := if e.0 == f.id then e.1 else e.0;
      assert Joined(edges, f.id, y);
      EdgeMeansConflict(Contradicts, s, f, y);
    }
    if InConflict(Contradicts, s, f) {
      var g :| g in s && Contradicts(f, g);
      assert (f.id, g.id) in Edges(Contradicts, s);
      assert Joined(edges, f.id, g.id);
    }
  }

  /** An end of an edge is the id of a finding. */
  lemma EndsAreIds(s: seq<Finding>, edges: set<(string, string)>, x: string)
    requires x in Ends(edges)
    requires SameJoins(edges, Edges(Contradicts, s))
    ensures exists g | g in s :: g.id == x
  {
    var e :| e in edges && (e.0 == x || e.1 == x);
    assert Joined(edges, e.0, e.1);
  }

  /** The class of a contested finding in the union-find is its component in the graph. */
  lemma ClassIsComponent(s: seq<Finding>, root: Links, edges: set<(string, string)>, f: Finding)
    requires UniqueIds(s) && f in s && f.id in root && root.Keys == Ends(edges) && Describes(root, edges)
    requires SameJoins(edges, Edges(Contradicts, s))
    ensures Class(root, root[f.id]) == Component(Contradicts, s, f.id)
  {
    forall x
      ensures x in Class(root, root[f.id]) <==> x in Component(Contradicts, s, f.id)
    {
      LinkedThere(edges, Edges(Contradicts, s), f.id, x);
      if x in Class(root, root[f.id]) {
        assert Linked(edges, f.id, x);
        EndsAreIds(s, edges, x);
      }
      if x in Component(Contradicts, s, f.id) {
        var p :| Walk(edges, p, f.id, x);
        ConstantAlongWalk(edges, root, p, f.id, x);
      }
    }
  }

  // ----- Stamping ----------------------------------------------------------

  function Cleared(s: seq<Finding>): (r: seq<Finding>)
    ensures |r| == |s| && forall i | 0 <= i < |s| :: r[i] == s[i].(conflictGroup := None)
  {
    seq(|s|, i requires 0 <= i < |s| => s[i].(conflictGroup := None))
  }

  ghost predicate Lists(groups: map<string, seq<string>>, digest: Digest, members: set<string>) {
    GroupName(digest, members) in groups && groups[GroupName(digest, members)] == SortedMembers(members)
  }

  ghost function ConflictNames(digest: Digest, s: seq<Finding>): set<string> {
    set f | f in s && InConflict(Contradicts, s, f) :: GroupName(digest, Component(Contradicts, s, f.id))
  }

  ghost function ClassNames(digest: Digest, root: Links, roots: seq<string>): set<string> {
    set r | r in roots :: GroupName(digest, Class(root, r))
  }

  ghost function Stamp(digest: Digest, root: Links, roots: seq<string>, id: string): Option<string> {
    if id in root && root[id] in roots then Some(GroupName(digest, Class(root, root[id]))) else None
  }

  ghost function Restamped(s: seq<Finding>, stamp: string -> Option<string>): seq<Finding> {
    seq(|s|, i requires 0 <= i < |s| => s[i].(conflictGroup := stamp(s[i].id)))
  }

  ghost predicate StampedUpTo(digest: Digest, root: Links, roots: seq<string>, s: seq<Finding>, r: seq<Finding>) {
    r == Restamped(s, id => Stamp(digest, root, roots, id))
  }

  lemma ClearedIsStamped(digest: Digest, root: Links, s: seq<Finding>)
    ensures StampedUpTo(digest, root, [], s, Cleared(s))
  {
  }

  ghost function StampedWith(s: seq<Finding>, members: set<string>, name: string): (r: seq<Finding>)
    ensures |r| == |s|
    ensures forall i | 0 <= i < |s| :: r[i] == if s[i].id in members then s[i].(conflictGroup := Some(name)) else s[i]
  {
    seq(|s|, i requires 0 <= i < |s| => if s[i].id in members then s[i].(conflictGroup := Some(name)) else s[i])
  }

  method StampMembers(s: seq<Finding>, members: seq<string>, name: string) returns (r: seq<Finding>)
    ensures r == StampedWith(s, Elements(members), name)
  {
    r := s;
    for i := 0 to |s|
      invariant |r| == |s|
      invariant forall j | 0 <= j < i :: r[j] == StampedWith(s, Elements(members), name)[j]
      invariant forall j | i <= j < |s| :: r[j] == s[j]
    {
      if s[i].id in members {
        r := r[i := s[i].(conflictGroup := Some(name))];
      }
    }
  }

  lemma WholeClasses(root: Links, edges: set<(string, string)>, components: map<string, set<string>>)
    requires root.Keys == Ends(edges) && ComponentsOf(root, Ends(edges), components)
    ensures components.Keys == root.Values
    ensures forall r | r in components :: components[r] == Class(root, r)
  {
    forall r | r in components
      ensures components[r] == Class(root, r)
    {
      assert Class(root, r) * Ends(edges) == Class(root, r);
    }
  }

  lemma StampStep(digest: Digest, root: Links, before: seq<string>, r: string, s: seq<Finding>, t: seq<Finding>)
    requires StampedUpTo(digest, root, before, s, t)
    ensures StampedUpTo(digest, root, before + [r], s, StampedWith(t, Class(root, r), GroupName(digest, Class(root, r))))
  {
    assert forall q :: q in before + [r] <==> q in before || q == r;
  }

  lemma ClassNamesSnoc(digest: Digest, root: Links, before: seq<string>, r: string)
    ensures ClassNames(digest, root, before + [r]) == ClassNames(digest, root, before) + {GroupName(digest, Class(root, r))}
  {
    assert forall q :: q in before + [r] <==> q in before || q == r;
  }

  /** Entering one member set under its name leaves the entries of the others. */
  lemma ListKept(digest: Digest, groups: map<string, seq<string>>, p: set<string>, q: set<string>)
    requires Injective(digest) && (Lists(groups, digest, p) || p == q)
    ensures Lists(groups[GroupName(digest, q) := SortedMembers(q)], digest, p)
  {
    if GroupName(digest, p) == GroupName(digest, q) {
      GroupNameInjective(digest, p, q);
    }
  }

  lemma ListStep(digest: Digest, root: Links, before: seq<string>, r: string, groups: map<string, seq<string>>, next: map<string, seq<string>>)
    requires Injective(digest) && forall q | q in before :: Lists(groups, digest, Class(root, q))
    requires next == groups[GroupName(digest, Class(root, r)) := SortedMembers(Class(root, r))]
    ensures forall q | q in before + [r] :: Lists(next, digest, Class(root, q))
  {
    forall q | q in before + [r]
      ensures Lists(next, digest, Class(root, q))
    {
      ListKept(digest, groups, Class(root, q), Class(root, r));
    }
  }

  /** The representatives, the united pairs and the contradiction graph of `s` agree. */
  ghost predicate GraphOf(s: seq<Finding>, root: Links, edges: set<(string, string)>) {
    && UniqueIds(s) && root.Keys == Ends(edges) && Describes(root, edges)
    && SameJoins(edges, Edges(Contradicts, s))
  }

  lemma StampedAll(digest: Digest, root: Links, edges: set<(string, string)>, roots: seq<string>, s: seq<Finding>, r: seq<Finding>)
    requires GraphOf(s, root, edges) && Elements(roots) == root.Values
    requires StampedUpTo(digest, root, roots, s, r)
    ensures Stamped(digest, Contradicts, s, r)
  {
    forall i | 0 <= i < |s|
      ensures Stamp(digest, root, roots, s[i].id) == GroupOf(digest, Contradicts, s, s[i])
    {
      assert s[i] in s;
      EndsAreConflicts(s, edges, s[i]);
      if s[i].id in root {
        assert root[s[i].id] in Elements(roots);
        ClassIsComponent(s, root, edges, s[i]);
      }
    }
  }

  lemma RootOfConflict(s: seq<Finding>, root: Links, edges: set<(string, string)>, r: string)
    requires GraphOf(s, root, edges) && r in root.Values
    ensures exists f | f in s :: InConflict(Contradicts, s, f) && Class(root, r) == Component(Contradicts, s, f.id)
  {
    var x :| x in root && root[x] == r;
    EndsAreIds(s, edges, x);
    var f :| f in s && f.id == x;
    EndsAreConflicts(s, edges, f);
    ClassIsComponent(s, root, edges, f);
  }

  lemma ConflictHasRoot(s: seq<Finding>, root: Links, edges: set<(string, string)>, f: Finding)
    requires GraphOf(s, root, edges) && f in s && InConflict(Contradicts, s, f)
    ensures f.id in root && root[f.id] in root.Values && Class(root, root[f.id]) == Component(Contradicts, s, f.id)
  {
    EndsAreConflicts(s, edges, f);
    ClassIsComponent(s, root, edges, f);
  }

  lemma ListedAll(digest: Digest, root: Links, edges: set<(string, string)>, roots: seq<string>, s: seq<Finding>, groups: map<string, seq<string>>)
    requires GraphOf(s, root, edges) && Elements(roots) == root.Values
    requires groups.Keys == ClassNames(digest, root, roots)
    requires Injective(digest) ==> forall r | r in roots :: Lists(groups, digest, Class(root, r))
    ensures groups.Keys == ConflictNames(digest, s)
    ensures Injective(digest) ==> forall f | f in s && InConflict(Contradicts, s, f) ::
              Lists(groups, digest, Component(Contradicts, s, f.id))
  {
    forall name | name in ClassNames(digest, root, roots)
      ensures name in ConflictNames(digest, s)
    {
      var r :| r in roots && name == GroupName(digest, Class(root, r));
      assert r in Elements(roots);
      RootOfConflict(s, root, edges, r);
    }
    forall f | f in s && InConflict(Contradicts, s, f)
      ensures GroupName(digest, Component(Contradicts, s, f.id)) in ClassNames(digest, root, roots)
      ensures Injective(digest) ==> Lists(groups, digest, Component(Contradicts, s, f.id))
    {
      ConflictHasRoot(s, root, edges, f);
      assert root[f.id] in Elements(roots);
    }
  }

  /** Findings stamped, and groups listed, by the class of every representative. */
  ghost predicate GroupsStamped(digest: Digest, root: Links, s: seq<Finding>, r: seq<Finding>, groups: map<string, seq<string>>) {
    exists roots :: Elements(roots) == root.Values && GroupsStampedFor(digest, root, roots, s, r, groups)
  }

  ghost predicate GroupsStampedFor(digest: Digest, root: Links, roots: seq<string>, s: seq<Finding>, r: seq<Finding>, groups: map<string, seq<string>>) {
    && StampedUpTo(digest, root, roots, s, r)
    && groups.Keys == ClassNames(digest, root, roots)
    && (Injective(digest) ==> forall q | q in roots :: Lists(groups, digest, Class(root, q)))
  }

  lemma StampGroupStep(digest: Digest, root: Links, before: seq<string>, q: string, s: seq<Finding>, r: seq<Finding>, groups: map<string, seq<string>>, name: string)
    requires GroupsStampedFor(digest, root, before, s, r, groups) && name == GroupName(digest, Class(root, q))
    ensures GroupsStampedFor(digest, root, before + [q], s, StampedWith(r, Class(root, q), name), groups[name := SortedMembers(Class(root, q))])
  {
    StampStep(digest, root, before, q, s, r);
    ClassNamesSnoc(digest, root, before, q);
    if Injective(digest) {
      ListStep(digest, root, before, q, groups, groups[name := SortedMembers(Class(root, q))]);
    }
  }

  /** Names one group, stamps its members and lists them. */
  method StampGroup(digest: Digest, members: set<string>, s: seq<Finding>, groups: map<string, seq<string>>)
    returns (r: seq<Finding>, listed: map<string, seq<string>>, ghost name: string)
    ensures name == GroupName(digest, members)
    ensures r == StampedWith(s, members, name) && listed == groups[name := SortedMembers(members)]
  {
    var sorted := SortedSet(members);
    var groupName := "conflict-" + digest(Encode(sorted));
    r := StampMembers(s, sorted, groupName);
    listed := groups[groupName := sorted];
    name := groupName;
  }

  method StampGroups(digest: Digest, ghost root: Links, components: map<string, set<string>>, s: seq<Finding>)
    returns (r: seq<Finding>, groups: map<string, seq<string>>)
    requires components.Keys == root.Values
    requires forall q | q in components :: components[q] == Class(root, q)
    ensures GroupsStamped(digest, root, s, r, groups)
  {
    var roots := SortedSet(components.Keys);
    r, groups := Cleared(s), map[];
    ClearedIsStamped(digest, root, s);
    ghost var name: string;
    ghost var before: seq<string> := [];
    for k := 0 to |roots|
      invariant before == roots[..k] && GroupsStampedFor(digest, root, before, s, r, groups)
    {
      assert roots[k] in Elements(roots);
      ghost var stamped, listed := r, groups;
      r, groups, name := StampGroup(digest, components[roots[k]], r, groups);
      StampGroupStep(digest, root, before, roots[k], s, stamped, listed, name);
      before := before + [roots[k]];
    }
    assert roots[..|roots|] == roots;
  }

  lemma GraphReady(s: seq<Finding>, uf: UnionFind, components: map<string, set<string>>)
    requires UniqueIds(s) && uf.Valid() && uf.parent.Keys == Ends(uf.edges)
    requires SameJoins(uf.edges, Edges(Contradicts, s)) && ComponentsOf(uf.root, Ends(uf.edges), components)
    ensures GraphOf(s, uf.root, uf.edges) && components.Keys == uf.root.Values
    ensures forall q | q in components :: components[q] == Class(uf.root, q)
  {
    WholeClasses(uf.root, uf.edges, components);
  }

  lemma StampsAreGroups(digest: Digest, root: Links, edges: set<(string, string)>, s: seq<Finding>, r: seq<Finding>, groups: map<string, seq<string>>)
    requires GraphOf(s, root, edges) && GroupsStamped(digest, root, s, r, groups)
    ensures Stamped(digest, Contradicts, s, r) && groups.Keys == ConflictNames(digest, s)
    ensures Injective(digest) ==> forall f | f in s && InConflict(Contradicts, s, f) ::
              Lists(groups, digest, Component(Contradicts, s, f.id))
  {
    var roots :| Elements(roots) == root.Values && GroupsStampedFor(digest, root, roots, s, r, groups);
    StampedAll(digest, root, edges, roots, s, r);
    ListedAll(digest, root, edges, roots, s, groups);
  }

  lemma StampedKeepsValid(digest: Digest, s: seq<Finding>, r: seq<Finding>)
    requires Stamped(digest, Contradicts, s, r) && UniqueIds(s) && WellFormedAll(s)
    ensures UniqueIds(r) && WellFormedAll(r)
  {
    assert forall i | 0 <= i < |s| :: s[i] in s;
  }

  lemma SortedKeysAreMembers(key: KeyFn, s: seq<Finding>)
    requires AllKeyed(key, s)
    ensures SortedMembers(KeySet(key, s)) == SortedKeys(key, s)
  {
    FoundKeys(key, s);
    SameElementSets(Listed(KeySet(key, s)), AppendNew([], Keys(key, s)));
    SortStringsPermutation(Listed(KeySet(key, s)), AppendNew([], Keys(key, s)));
  }

  lemma NewGroupEmpty(key: KeyFn, s: seq<Finding>, k: string)
    requires k !in KeySet(key, s)
    ensures Group(key, s, k) == []
  {
    FilterKeepsNone(s, (f: Finding) => key(f) == Some(k));
  }

  // ----- Loops over the list, for any key ----------------------------------

  /** Merges the report into the first finding with its key, or appends it. */
  method MergeReport(key: KeyFn, s: seq<Finding>, f: Finding) returns (r: Result<seq<Finding>, FindingError>)
    requires key(f).Some? && !ReusesId(key, s, f)
    ensures r == Reconciled(key, s, f)
  {
    var i := 0;
    while i < |s| && key(s[i]).Some? && key(s[i]) != key(f)
      invariant i <= |s| && FindKey(key, s, key(f).value, i) == FindKey(key, s, key(f).value, 0)
    {
      i := i + 1;
    }
    assert i == FindKey(key, s, key(f).value, 0);
    if i == |s| {
      return Ok(s + [f.Seeded()]);
    }
    if key(s[i]).None? {
      return Err(ReservedSeparator);
    }
    if s[i].status != f.status {
      return Err(DispositionContradicted);
    }
    return Ok(s[i := Merge([s[i], f.Seeded()], s[i])]);
  }

  lemma ReconciledWellFormed(key: KeyFn, s: seq<Finding>, f: Finding)
    requires WellFormedAll(s) && f.WellFormed() && Reconciled(key, s, f).Ok?
    ensures WellFormedAll(Reconciled(key, s, f).value)
  {
    var i := FindKey(key, s, key(f).value, 0);
    if i < |s| {
      SeededWellFormed(f);
      assert s[i] in s;
      MergeWellFormed([s[i], f.Seeded()], s[i]);
      UpdateWellFormed(s, i, Merge([s[i], f.Seeded()], s[i]));
    } else {
      SeededWellFormed(f);
      AppendWellFormed(s, f.Seeded());
    }
  }

  lemma SeededWellFormed(f: Finding)
    requires f.WellFormed()
    ensures f.Seeded().WellFormed()
  {
  }

  lemma UpdateWellFormed(s: seq<Finding>, i: nat, m: Finding)
    requires WellFormedAll(s) && i < |s| && m.WellFormed()
    ensures WellFormedAll(s[i := m])
  {
    forall f | f in s[i := m]
      ensures f.WellFormed()
    {
      assert f == m || f in s;
    }
  }

  lemma AppendWellFormed(s: seq<Finding>, m: Finding)
    requires WellFormedAll(s) && m.WellFormed()
    ensures WellFormedAll(s + [m])
  {
    assert forall f :: f in s + [m] <==> f in s || f == m;
  }

  ghost predicate GroupedBy(key: KeyFn, s: seq<Finding>, groups: map<string, seq<Finding>>) {
    groups.Keys == KeySet(key, s) && forall k | k in groups :: groups[k] == Group(key, s, k)
  }

  lemma GroupedStep(key: KeyFn, s: seq<Finding>, f: Finding, k: string, groups: map<string, seq<Finding>>)
    requires GroupedBy(key, s, groups) && key(f) == Some(k)
    ensures GroupedBy(key, s + [f], groups[k := (if k in groups then groups[k] else []) + [f]])
  {
    var next := groups[k := (if k in groups then groups[k] else []) + [f]];
    KeySetSnoc(key, s, f);
    if k !in groups {
      NewGroupEmpty(key, s, k);
    }
    forall q | q in next
      ensures next[q] == Group(key, s + [f], q)
    {
      GroupSnoc(key, s, f, q);
    }
  }

  method GroupByKey(key: KeyFn, s: seq<Finding>) returns (groups: map<string, seq<Finding>>)
    requires AllKeyed(key, s)
    ensures GroupedBy(key, s, groups)
  {
    groups := map[];
    for i := 0 to |s|
      invariant GroupedBy(key, s[..i], groups)
    {
      assert s[i] in s && s[..i + 1] == s[..i] + [s[i]];
      var k := key(s[i]).value;
      GroupedStep(key, s[..i], s[i], k, groups);
      groups := groups[k := (if k in groups then groups[k] else []) + [s[i]]];
    }
    assert s[..|s|] == s;
  }

  lemma MixedGroupRefuses(key: KeyFn, s: seq<Finding>, k: string)
    requires AllKeyed(key, s) && k in SortedKeys(key, s) && MixedStatuses(Group(key, s, k))
    ensures Deduplicated(key, s) == Err(MixedLifecycle)
  {
  }

  lemma SingletonPure(group: seq<Finding>)
    requires |group| == 1
    ensures !MixedStatuses(group) && Survivor(group) == group[0]
  {
    assert group == [group[0]];
  }

  /** `v` is what remains of the group with key `k`. */
  ghost predicate Survives(key: KeyFn, s: seq<Finding>, k: string, v: Finding) {
    var g := Group(key, s, k);
    g != [] && !MixedStatuses(g) && v == Survivor(g)
  }

  /** The values of `out` stand in `rel` to the first keys, position by position. */
  ghost predicate Pairwise<A, B>(rel: (A, B) -> bool, keys: seq<A>, out: seq<B>) {
    |out| <= |keys| && forall i | 0 <= i < |out| :: rel(keys[i], out[i])
  }

  lemma PairwiseSnoc<A, B>(rel: (A, B) -> bool, keys: seq<A>, out: seq<B>, v: B)
    requires Pairwise(rel, keys, out) && |out| < |keys| && rel(keys[|out|], v)
    ensures Pairwise(rel, keys, out + [v])
  {
    assert forall i | 0 <= i < |out| :: (out + [v])[i] == out[i];
  }

  /** Replaces one group by its survivor, unless its findings were settled differently. */
  method MergeGroup(group: seq<Finding>) returns (r: Option<Finding>)
    requires group != []
    ensures r == if MixedStatuses(group) then None else Some(Survivor(group))
  {
    if |group| == 1 {
      SingletonPure(group);
      return Some(group[0]);
    } else if MixedStatuses(group) {
      return None;
    }
    return Some(Merge(group, Canonical(group)));
  }

  lemma AllSurvive(key: KeyFn, s: seq<Finding>, rel: (string, Finding) -> bool, out: seq<Finding>)
    requires AllKeyed(key, s) && Pairwise(rel, SortedKeys(key, s), out) && |out| == |SortedKeys(key, s)|
    requires forall k, v | rel(k, v) :: Survives(key, s, k, v)
    ensures Deduplicated(key, s) == Ok(out)
  {
    var ks := SortedKeys(key, s);
    forall i | 0 <= i < |ks|
      ensures var g := Group(key, s, ks[i]); g != [] && !MixedStatuses(g) && out[i] == Survivor(g)
    {
      assert rel(ks[i], out[i]) && Survives(key, s, ks[i], out[i]);
    }
    SurvivorsDetermine(key, s, out);
  }

  /** Replaces the groups by their survivors, stopping at one that mixes statuses. */
  method MergeEach(keys: seq<string>, groups: map<string, seq<Finding>>, ghost rel: (string, Finding) -> bool)
    returns (r: Option<seq<Finding>>)
    requires forall k | k in keys :: k in groups && groups[k] != []
    requires forall k | k in keys && !MixedStatuses(groups[k]) :: rel(k, Survivor(groups[k]))
    ensures r.Some? ==> |r.value| == |keys| && Pairwise(rel, keys, r.value)
    ensures r.None? ==> exists k | k in keys :: MixedStatuses(groups[k])
  {
    var merged := [];
    for i := 0 to |keys|
      invariant |merged| == i && Pairwise(rel, keys, merged)
    {
      assert keys[i] in keys;
      var m := MergeGroup(groups[keys[i]]);
      if m.None? {
        return None;
      }
      PairwiseSnoc(rel, keys, merged, m.value);
      merged := merged + [m.value];
    }
    r := Some(merged);
  }

  lemma KeysHaveGroups(key: KeyFn, s: seq<Finding>, keys: seq<string>, groups: map<string, seq<Finding>>, rel: (string, Finding) -> bool)
    requires AllKeyed(key, s) && keys == SortedKeys(key, s) && GroupedBy(key, s, groups)
    requires forall k, v | Survives(key, s, k, v) :: rel(k, v)
    ensures forall k | k in keys :: k in groups && groups[k] == Group(key, s, k) != []
    ensures forall k | k in keys && !MixedStatuses(groups[k]) :: rel(k, Survivor(groups[k]))
  {
    forall k | k in keys
      ensures k in groups && groups[k] == Group(key, s, k) != []
      ensures !MixedStatuses(groups[k]) ==> rel(k, Survivor(groups[k]))
    {
      SortedKeysExact(key, s);
      assert k in Elements(keys);
      if !MixedStatuses(groups[k]) {
        assert Survives(key, s, k, Survivor(groups[k]));
      }
    }
  }

  /** Merges the findings key by key. */
  method MergeGroups(key: KeyFn, s: seq<Finding>) returns (r: Result<seq<Finding>, FindingError>)
    requires AllKeyed(key, s)
    ensures r == Deduplicated(key, s)
  {
    var groups := GroupByKey(key, s);
    var keys := SortedSet(groups.Keys);
    SortedKeysAreMembers(key, s);
    ghost var survives := (k: string, v: Finding) => Survives(key, s, k, v);
    KeysHaveGroups(key, s, keys, groups, survives);
    var merged := MergeEach(keys, groups, survives);
    if merged.None? {
      ghost var k :| k in keys && MixedStatuses(groups[k]);
      MixedGroupRefuses(key, s, k);
      return Err(MixedLifecycle);
    }
    AllSurvive(key, s, survives, merged.value);
    r := Ok(merged.value);
  }

  lemma SurvivorFromGroup(key: KeyFn, s: seq<Finding>, k: string)
    requires ReadsIdentity(key) && WellFormedAll(s) && Group(key, s, k) != []
    ensures var v := Survivor(Group(key, s, k));
            v.WellFormed() && exists f | f in s :: f.id == v.id && key(f) == Some(k)
  {
    var g := Group(key, s, k);
    assert Canonical(g) in g && g[0] in g;
    assert forall f | f in g :: f in s;
    MergeWellFormed(g, Canonical(g));
  }

  /** Survivors keep distinct ids, each reported by a finding with the survivor's key. */
  lemma SurvivorsValid(key: KeyFn, s: seq<Finding>)
    requires ReadsIdentity(key) && UniqueIds(s) && WellFormedAll(s) && Deduplicated(key, s).Ok?
    ensures UniqueIds(Deduplicated(key, s).value) && WellFormedAll(Deduplicated(key, s).value)
  {
    SortedKeysExact(key, s);
    DeduplicatedGroupwise(key, s);
    var out, ks := Deduplicated(key, s).value, SortedKeys(key, s);
    forall i, j | 0 <= i < j < |out|
      ensures out[i].id != out[j].id
    {
      SurvivorFromGroup(key, s, ks[i]);
      SurvivorFromGroup(key, s, ks[j]);
      var f :| f in s && f.id == out[i].id && key(f) == Some(ks[i]);
      var g :| g in s && g.id == out[j].id && key(g) == Some(ks[j]);
      assert ks[i] != ks[j];
    }
    forall i | 0 <= i < |out|
      ensures out[i].WellFormed()
    {
      SurvivorFromGroup(key, s, ks[i]);
    }
  }

  lemma SeedAllValid(s: seq<Finding>)
    requires UniqueIds(s) && WellFormedAll(s)
    ensures UniqueIds(SeedAll(s)) && WellFormedAll(SeedAll(s))
  {
    forall f | f in SeedAll(s)
      ensures f.WellFormed()
    {
      var i :| 0 <= i < |s| && SeedAll(s)[i] == f;
      assert s[i] in s;
      SeededWellFormed(s[i]);
    }
  }

  lemma PartitionStep(s: seq<Finding>, f: Finding)
    ensures Active(s + [f]) == if Archivable(f) then Active(s) else Active(s) + [f]
    ensures Records(s + [f]) == if Archivable(f) then Records(s) + [Record(f)] else Records(s)
  {
    RecordsSnoc(s, f);
    FilterConcat(s, [f], (g: Finding) => !Archivable(g));
  }

  method Partition(s: seq<Finding>) returns (active: seq<Finding>, records: seq<ArchivedFinding>)
    ensures active == Active(s) && records == Records(s)
  {
    active, records := [], [];
    ghost var seen: seq<Finding> := [];
    for i := 0 to |s|
      invariant seen == s[..i] && active == Active(seen) && records == Records(seen)
    {
      var f := s[i];
      PartitionStep(seen, f);
      if Archivable(f) {
        records := records + [Record(f)];
      } else {
        active := active + [f];
      }
      seen := seen + [f];
    }
    assert s[..|s|] == s;
  }

  lemma ActiveValid(s: seq<Finding>)
    requires UniqueIds(s) && WellFormedAll(s)
    ensures UniqueIds(Active(s)) && WellFormedAll(Active(s))
  {
    FilterUnique(s, (f: Finding) => !Archivable(f));
  }

  // ----- The registry ------------------------------------------------------

  class FindingRegistry {
    var findings: seq<Finding>
    var quarantined: seq<Finding>
    var archived: seq<ArchivedFinding>
    const currentHeadSha: Option<string>
    const quarantineUnknown: bool
    const requireReply: bool
    const digest: Digest
    const groupDigest: Digest

    ghost predicate Valid()
      reads this
    {
      UniqueIds(findings) && WellFormedAll(findings)
    }

    constructor (head: Option<string>, strict: bool, reply: bool, digest: Digest, groupDigest: Digest)
      ensures Valid() && findings == [] && quarantined == [] && archived == []
      ensures currentHeadSha == head && quarantineUnknown == strict && requireReply == reply
      ensures this.digest == digest && this.groupDigest == groupDigest
    {
      findings, quarantined, archived := [], [], [];
      currentHeadSha, quarantineUnknown, requireReply := head, strict, reply;
      this.digest, this.groupDigest := digest, groupDigest;
    }

    /** Admits a report under a fresh id, or sets it aside. */
    method Register(f: Finding) returns (r: Result<Option<Finding>, FindingError>)
      requires Valid() && f.WellFormed()
      modifies this`findings, this`quarantined
      ensures Valid()
      ensures r.Err? <==> f.id in old(IdSet(findings))
      ensures r.Err? ==> findings == old(findings) && quarantined == old(quarantined)
      ensures r.Ok? && !Admissible(currentHeadSha, quarantineUnknown, f) ==>
                r.value == None && findings == old(findings) && quarantined == old(quarantined) + [f]
      ensures r.Ok? && Admissible(currentHeadSha, quarantineUnknown, f) ==>
                r.value == Some(f.Seeded()) && findings == old(findings) + [f.Seeded()] && quarantined == old(quarantined)
    {
      if exists e | e in findings :: e.id == f.id {
        return Err(DuplicateId);
      }
      if !Admissible(currentHeadSha, quarantineUnknown, f) {
        quarantined := quarantined + [f];
        return Ok(None);
      }
      AppendIds(findings, f.Seeded());
      findings := findings + [f.Seeded()];
      return Ok(Some(f.Seeded()));
    }

    /** Merges a repeated report into the finding with its key, or appends it. */
    method Reconcile(f: Finding) returns (r: Result<bool, FindingError>)
      requires Valid() && f.WellFormed()
      modifies this`findings, this`quarantined
      ensures Valid()
      ensures var o := ReconcileOutcome(KeyBy(digest), currentHeadSha, quarantineUnknown, old(findings), f);
              match o
              case Err(e) => r == Err(e) && findings == old(findings) && quarantined == old(quarantined)
              case Ok(None) => r == Ok(false) && findings == old(findings) && quarantined == old(quarantined) + [f]
              case Ok(Some(s)) => r == Ok(true) && findings == s && quarantined == old(quarantined)
    {
      var key := KeyBy(digest);
      if key(f).None? {
        return Err(ReservedSeparator);
      }
      if ReusesId(key, findings, f) {
        return Err(IdReused);
      }
      if !Admissible(currentHeadSha, quarantineUnknown, f) {
        quarantined := quarantined + [f];
        return Ok(false);
      }
      var merged := MergeReport(key, findings, f);
      if merged.Err? {
        return Err(merged.error);
      }
      KeyByReadsIdentity(digest);
      ReconciledIds(key, findings, f);
      ReconciledWellFormed(key, findings, f);
      findings := merged.value;
      return Ok(true);
    }

    /** Groups the findings by key and replaces every group by its survivor. */
    method Deduplicate() returns (r: Result<seq<Finding>, FindingError>)
      requires Valid()
      modifies this`findings
      ensures Valid()
      ensures r == Deduplicated(KeyBy(digest), SeedAll(old(findings)))
      ensures findings == if r.Ok? then r.value else SeedAll(old(findings))
    {
      var key := KeyBy(digest);
      SeedAllValid(findings);
      findings := SeedAll(findings);
      if exists f | f in findings :: key(f).None? {
        return Err(ReservedSeparator);
      }
      r := MergeGroups(key, findings);
      if r.Ok? {
        KeyByReadsIdentity(digest);
        SurvivorsValid(key, findings);
        findings := r.value;
      }
    }

    /** Stamps every finding with the group of its contradictions and lists the groups. */
    method DetectConflicts() returns (groups: map<string, seq<string>>)
      requires Valid()
      modifies this`findings
      ensures Valid()
      ensures Stamped(groupDigest, Contradicts, old(findings), findings)
      ensures groups.Keys == ConflictNames(groupDigest, old(findings))
      ensures Injective(groupDigest) ==> forall f | f in old(findings) && InConflict(Contradicts, old(findings), f) ::
                Lists(groups, groupDigest, Component(Contradicts, old(findings), f.id))
    {
      var uf := new UnionFind();
      var pairs := ScanPaths(findings, uf);
      var components := CollectComponents(pairs, uf);
      GraphReady(findings, uf, components);
      ghost var s := findings;
      findings, groups := StampGroups(groupDigest, uf.root, components, findings);
      StampsAreGroups(groupDigest, uf.root, uf.edges, s, findings, groups);
      StampedKeepsValid(groupDigest, s, findings);
    }

    /** Settles one finding by an explicit disposition. */
    method ApplyDisposition(q: Request) returns (r: Result<Disposition, FindingError>)
      requires Valid()
      modifies this`findings
      ensures Valid()
      ensures match Settled(old(findings), requireReply, q)
              case Err(e) => r == Err(e) && findings == old(findings)
              case Ok((s, d)) => r == Ok(d) && findings == s
    {
      var o := Settled(findings, requireReply, q);
      if o.Err? {
        return Err(o.error);
      }
      SettledEffect(findings, requireReply, q);
      ghost var s := findings;
      findings := o.value.0;
      assert forall j | 0 <= j < |s| :: s[j] in s && findings[j].id == s[j].id;
      return Ok(o.value.1);
    }

    /** Moves settled findings into the archive and keeps the rest active. */
    method Compact()
      requires Valid()
      modifies this`findings, this`archived
      ensures Valid()
      ensures findings == Active(old(findings))
      ensures archived == old(archived) + Records(old(findings))
    {
      var active, records := Partition(findings);
      ActiveValid(findings);
      findings, archived := active, archived + records;
    }
  }
}
