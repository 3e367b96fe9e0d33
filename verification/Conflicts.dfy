/**
  Contradictory findings and the groups they form: the components of the contradiction
  graph, named by an unambiguous encoding of their members.
*/
module Conflicts {
  import opened Wrappers
  import opened Text
  import opened Sorting
  import opened Domain
  import opened Findings
  import opened DisjointSets

  /** Only findings with a path and a line take part. */
  predicate Locatable(f: Finding) {
    f.path.Some? && f.path.value != "" && f.line.Some?
  }

  function FirstLine(f: Finding): int {
    f.line.GetOr(0)
  }

  function RangeEnd(f: Finding): int {
    if f.lineEnd.Some? && f.lineEnd.value != 0 then f.lineEnd.value else FirstLine(f)
  }

  predicate RangesOverlap(f: Finding, g: Finding) {
    FirstLine(f) <= RangeEnd(g) && FirstLine(g) <= RangeEnd(f)
  }

  /** Different lanes making different claims about overlapping lines of one file. */
  predicate Contradicts(f: Finding, g: Finding) {
    && Locatable(f) && Locatable(g) && f.path == g.path
    && f.lane != g.lane
    && RangesOverlap(f, g)
    && NormalizeClaim(ClaimOf(f)) != NormalizeClaim(ClaimOf(g))
  }

  type Relation = (Finding, Finding) -> bool

  ghost predicate Symmetric(rel: Relation) {
    forall f, g :: rel(f, g) == rel(g, f)
  }

  /** The edges of the contradiction graph over finding ids. */
  ghost function Edges(rel: Relation, s: seq<Finding>): set<(string, string)> {
    set f, g | f in s && g in s && rel(f, g) :: (f.id, g.id)
  }

  predicate InConflict(rel: Relation, s: seq<Finding>, f: Finding) {
    exists g | g in s :: rel(f, g)
  }

  /** The ids a chain of contradictions joins to `x`. */
  ghost function Component(rel: Relation, s: seq<Finding>, x: string): set<string> {
    set g | g in s && Linked(Edges(rel, s), x, g.id) :: g.id
  }

  // ----- Encoding of a member list -----------------------------------------

  function EncodeMember(m: string): string {
    Decimal(|m|) + [':'] + m
  }

  /** Length-prefixed members joined by commas. */
  function Encode(members: seq<string>): string {
    if members == [] then ""
    else if |members| == 1 then EncodeMember(members[0])
    else EncodeMember(members[0]) + [','] + Encode(members[1..])
  }

  lemma MemberPrefix(m: string, rest: string, n: string, rest': string)
    requires Decimal(|m|) + [':'] + (m + rest) == Decimal(|n|) + [':'] + (n + rest')
    ensures m == n && rest == rest'
  {
    SplitUnique(Decimal(|m|), m + rest, Decimal(|n|), n + rest', ':');
    DecimalInjective(|m|, |n|);
    var s := m + rest;
    assert m == s[..|m|] && n == (n + rest')[..|n|];
    assert rest == s[|m|..] && rest' == (n + rest')[|n|..];
  }

  function Tail(members: seq<string>): string
    requires members != []
  {
    if |members| == 1 then "" else [','] + Encode(members[1..])
  }

  lemma EncodeHead(members: seq<string>)
    requires members != []
    ensures Encode(members) == Decimal(|members[0]|) + [':'] + (members[0] + Tail(members))
  {
    var m := members[0];
    assert EncodeMember(m) + Tail(members) == Decimal(|m|) + [':'] + (m + Tail(members));
    assert EncodeMember(m) + "" == EncodeMember(m);
  }

  /** Distinct member lists never share an encoding, whatever characters the ids contain. */
  lemma {:induction false} EncodeInjective(a: seq<string>, b: seq<string>)
    requires Encode(a) == Encode(b)
    ensures a == b
  {
    if a != [] {
      EncodeHead(a);
    }
    if b != [] {
      EncodeHead(b);
    }
    if a != [] && b != [] {
      MemberPrefix(a[0], Tail(a), b[0], Tail(b));
      if |a| > 1 {
        assert Tail(a)[1..] == Encode(a[1..]) && Tail(b)[1..] == Encode(b[1..]);
        EncodeInjective(a[1..], b[1..]);
      }
      assert a == [a[0]] + a[1..] && b == [b[0]] + b[1..];
    }
  }

  // ----- Group names -------------------------------------------------------

  ghost function Listed(members: set<string>): (r: seq<string>)
    ensures Elements(r) == members && Distinct(r)
  {
    if members == {} then []
    else
      var x :| x in members;
      var rest := Listed(members - {x});
      assert Elements(rest + [x]) == Elements(rest) + {x};
      assert x !in rest by { assert x !in Elements(rest); }
      rest + [x]
  }

  /** The members in string order. */
  ghost function SortedMembers(members: set<string>): (r: seq<string>)
    ensures Elements(r) == members
  {
    SameElements(Listed(members), Sort(Listed(members), StringLe));
    Sort(Listed(members), StringLe)
  }

  ghost function GroupName(digest: Digest, members: set<string>): string {
    "conflict-" + digest(Encode(SortedMembers(members)))
  }

  ghost function GroupOf(digest: Digest, rel: Relation, s: seq<Finding>, f: Finding): Option<string> {
    if InConflict(rel, s, f) then Some(GroupName(digest, Component(rel, s, f.id))) else None
  }

  /** Every finding stamped with the group of its component, or with none. */
  ghost predicate Stamped(digest: Digest, rel: Relation, s: seq<Finding>, r: seq<Finding>) {
    && |r| == |s|
    && forall i | 0 <= i < |s| :: r[i] == s[i].(conflictGroup := GroupOf(digest, rel, s, s[i]))
  }

  // ----- Laws --------------------------------------------------------------

  lemma GroupNameInjective(digest: Digest, a: set<string>, b: set<string>)
    requires Injective(digest) && GroupName(digest, a) == GroupName(digest, b)
    ensures a == b
  {
    var p, q := SortedMembers(a), SortedMembers(b);
    var x, y := digest(Encode(p)), digest(Encode(q));
    assert x == ("conflict-" + x)[9..] && y == ("conflict-" + y)[9..];
    EncodeInjective(p, q);
    assert Elements(p) == a && Elements(q) == b;
  }

  lemma ComponentsAgree(rel: Relation, s: seq<Finding>, f: Finding, g: Finding)
    requires f in s && g in s
    ensures Component(rel, s, f.id) == Component(rel, s, g.id) <==> Linked(Edges(rel, s), f.id, g.id)
  {
    var e := Edges(rel, s);
    LinkedReflexive(e, g.id);
    assert g.id in Component(rel, s, g.id);
    if Linked(e, f.id, g.id) {
      LinkedSymmetric(e, f.id, g.id);
      forall x
        ensures x in Component(rel, s, f.id) <==> x in Component(rel, s, g.id)
      {
        if Linked(e, f.id, x) {
          LinkedTransitive(e, g.id, f.id, x);
        }
        if Linked(e, g.id, x) {
          LinkedTransitive(e, f.id, g.id, x);
        }
      }
    }
  }

  /** Two findings share a group exactly when a chain of contradictions joins them. */
  lemma SharedGroupMeansLinked(digest: Digest, rel: Relation, s: seq<Finding>, f: Finding, g: Finding)
    requires Injective(digest) && f in s && g in s && InConflict(rel, s, f) && InConflict(rel, s, g)
    ensures GroupOf(digest, rel, s, f) == GroupOf(digest, rel, s, g) <==> Linked(Edges(rel, s), f.id, g.id)
  {
    ComponentsAgree(rel, s, f, g);
    if GroupOf(digest, rel, s, f) == GroupOf(digest, rel, s, g) {
      GroupNameInjective(digest, Component(rel, s, f.id), Component(rel, s, g.id));
    }
  }

  lemma EdgeMeansConflict(rel: Relation, s: seq<Finding>, f: Finding, y: string)
    requires Symmetric(rel) && UniqueIds(s) && f in s
    ensures Joined(Edges(rel, s), f.id, y) ==> InConflict(rel, s, f)
  {
    if Joined(Edges(rel, s), f.id, y) {
      var a, b :| a in s && b in s && (rel(a, b) || rel(b, a)) && a.id == f.id && b.id == y;
      assert a == f && rel(f, b);
    }
  }

  /** A finding that contradicts nothing is linked only to itself. */
  lemma UncontestedStandsAlone(rel: Relation, s: seq<Finding>, f: Finding, g: Finding)
    requires Symmetric(rel) && UniqueIds(s) && f in s && g in s && !InConflict(rel, s, f)
    requires Linked(Edges(rel, s), f.id, g.id)
    ensures f == g
  {
    var p :| Walk(Edges(rel, s), p, f.id, g.id);
    if |p| > 1 {
      EdgeMeansConflict(rel, s, f, p[0 + 1]);
      assert false;
    }
  }

  /** The groups do not depend on the order of the list. */
  lemma GroupsIgnoreOrder(digest: Digest, rel: Relation, s: seq<Finding>, t: seq<Finding>, f: Finding)
    requires multiset(s) == multiset(t)
    ensures GroupOf(digest, rel, s, f) == GroupOf(digest, rel, t, f)
  {
    SameElements(s, t);
    assert Edges(rel, s) == Edges(rel, t);
    assert Component(rel, s, f.id) == Component(rel, t, f.id);
  }

  lemma ContradictsSymmetric()
    ensures Symmetric(Contradicts)
  {
  }
}
