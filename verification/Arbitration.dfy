/**
  Create-only claim arbitration: any number of claimants race to create the state comment
  of one issue. Each one reads twice, posts, rescans, deletes every later duplicate, and
  decides; their steps interleave arbitrarily and any claimant may stop at any point.
  Comment ids grow; responses can be lost, after which the client repeats the request.
*/
module Arbitration {
  import opened Wrappers

  /** Where one claimant stands. Ids name the comment its last answered post created. */
  datatype Claimant =
    | Idle
    | Looked
    | Clear
    | Posted(id: nat)
    | Settling(id: nat, authoritative: nat, todo: seq<nat>)
    | Won(id: nat)
    | Lost(id: nat)
    | Refused
    | Broken(id: nat)
    | Crashed
  {
    predicate Holds(k: nat) {
      (Posted? || Settling? || Won? || Lost? || Broken?) && id == k
    }

    /** Neither working on a posted comment nor stopped before removing its duplicates. */
    predicate Settled() {
      Idle? || Looked? || Won? || Lost? || Refused?
    }
  }

  /** The state comments of the issue by id, with the claimant that posted each one. */
  datatype World = World(comments: map<nat, nat>, next: nat, claimants: seq<Claimant>)

  datatype Action =
    | Look(c: nat)
    | LookAgain(c: nat)
    | Post(c: nat)
    | PostUnanswered(c: nat)
    | Rescan(c: nat)
    | Delete(c: nat)
    | DeleteUnanswered(c: nat)
    | Decide(c: nat)
    | Crash(c: nat)

  /** The comments in id order, as a listing returns them. */
  function Listing(comments: map<nat, nat>, from: nat, end: nat): (r: seq<nat>)
    ensures forall k :: k in r <==> from <= k < end && k in comments
    decreases end - from
  {
    if from >= end then []
    else (if from in comments then [from] else []) + Listing(comments, from + 1, end)
  }

  function StateComments(w: World): seq<nat> {
    Listing(w.comments, 0, w.next)
  }

  function Without(ids: seq<nat>, id: nat): (r: seq<nat>)
    ensures forall k :: k in r <==> k in ids && k != id
  {
    if ids == [] then []
    else (if ids[0] == id then [] else [ids[0]]) + Without(ids[1..], id)
  }

  function Smallest(ids: seq<nat>): (r: nat)
    requires ids != []
    ensures r in ids && forall k | k in ids :: r <= k
  {
    if |ids| == 1 then ids[0]
    else
      var rest := Smallest(ids[1..]);
      assert ids == [ids[0]] + ids[1..];
      if ids[0] <= rest then ids[0] else rest
  }

  /** A rescan picks the earliest comment and lists every other one for deletion. */
  function AfterRescan(id: nat, ids: seq<nat>): Claimant {
    if ids == [] then Lost(id)
    else Settling(id, Smallest(ids), Without(ids, Smallest(ids)))
  }

  /** One step; a step that does not apply where its claimant stands changes nothing. */
  function Next(w: World, a: Action): World {
    if a.c >= |w.claimants| then w
    else
      var p := w.claimants[a.c];
      match a
      case Look(c) =>
        if !p.Idle? then w
        else w.(claimants := w.claimants[c := if StateComments(w) == [] then Looked else Refused])
      case LookAgain(c) =>
        if !p.Looked? then w
        else w.(claimants := w.claimants[c := if StateComments(w) == [] then Clear else Refused])
      case Post(c) =>
        if !p.Clear? then w
        else World(w.comments[w.next := c], w.next + 1, w.claimants[c := Posted(w.next)])
      case PostUnanswered(c) =>
        if !p.Clear? then w
        else World(w.comments[w.next := c], w.next + 1, w.claimants)
      case Rescan(c) =>
        if !p.Posted? then w
        else w.(claimants := w.claimants[c := AfterRescan(p.id, StateComments(w))])
      case Delete(c) =>
        if !p.Settling? || p.todo == [] then w
        else if p.todo[0] !in w.comments then w.(claimants := w.claimants[c := Broken(p.id)])
        else w.(comments := w.comments - {p.todo[0]}, claimants := w.claimants[c := p.(todo := p.todo[1..])])
      case DeleteUnanswered(c) =>
        if !p.Settling? || p.todo == [] then w
        else w.(comments := w.comments - {p.todo[0]})
      case Decide(c) =>
        if !p.Settling? || p.todo != [] then w
        else w.(claimants := w.claimants[c := if p.id == p.authoritative then Won(p.id) else Lost(p.id)])
      case Crash(c) =>
        if p.Settled() || p.Broken? then w else w.(claimants := w.claimants[c := Crashed])
  }

  function Run(w: World, actions: seq<Action>): World
    decreases |actions|
  {
    if actions == [] then w else Run(Next(w, actions[0]), actions[1..])
  }

  /** No state comment yet, everybody still idle; the next comment gets id `first`. */
  predicate Start(w: World, first: nat) {
    w.comments == map[] && w.next == first && forall p | p in w.claimants :: p == Idle
  }

  // ----- Invariants --------------------------------------------------------

  /** The first comment, once posted, stays, and everything else is younger. */
  ghost predicate FirstStays(w: World, first: nat) {
    && first <= w.next
    && (first < w.next ==> first in w.comments)
    && forall k | k in w.comments :: first <= k < w.next && w.comments[k] < |w.claimants|
  }

  /** A claimant knows only posted comments, settles for the first one, and spares it. */
  ghost predicate Sound(w: World, first: nat, c: nat)
    requires c < |w.claimants|
  {
    var p := w.claimants[c];
    && (p.Posted? || p.Settling? || p.Won? || p.Lost? || p.Broken? ==> first <= p.id < w.next)
    && (p.Settling? ==> p.authoritative == first && first !in p.todo)
    && (p.Won? ==> p.id == first)
    && (p.Lost? ==> p.id != first)
    && (p.Holds(first) ==> first in w.comments && w.comments[first] == c)
  }

  /** A duplicate's poster is still going to remove it, or was stopped before it could. */
  ghost predicate Attended(w: World, k: nat)
    requires k in w.comments && w.comments[k] < |w.claimants|
  {
    var p := w.claimants[w.comments[k]];
    p.Clear? || p.Posted? || (p.Settling? && k in p.todo) || p.Broken? || p.Crashed?
  }

  ghost predicate Inv(w: World, first: nat) {
    && FirstStays(w, first)
    && (forall c {:trigger Sound(w, first, c)} | 0 <= c < |w.claimants| :: Sound(w, first, c))
    && (forall k {:trigger Attended(w, k)} | k in w.comments && k != first :: Attended(w, k))
  }

  /** The listing of a reachable world starts with the first comment ever posted. */
  lemma FirstListed(w: World, first: nat)
    requires FirstStays(w, first) && first < w.next
    ensures StateComments(w) != [] && Smallest(StateComments(w)) == first
  {
    assert first in StateComments(w);
  }

  lemma PostKeeps(w: World, first: nat, c: nat, answered: bool)
    requires Inv(w, first) && c < |w.claimants| && w.claimants[c].Clear?
    ensures Inv(Next(w, if answered then Post(c) else PostUnanswered(c)), first)
  {
    var v := Next(w, if answered then Post(c) else PostUnanswered(c));
    forall d | 0 <= d < |v.claimants|
      ensures Sound(v, first, d)
    {
      assert Sound(w, first, d);
    }
    forall k | k in v.comments && k != first
      ensures Attended(v, k)
    {
      if k != w.next {
        assert Attended(w, k);
      }
    }
  }

  lemma RescanKeeps(w: World, first: nat, c: nat)
    requires Inv(w, first) && c < |w.claimants| && w.claimants[c].Posted?
    ensures Inv(Next(w, Rescan(c)), first)
  {
    var v := Next(w, Rescan(c));
    assert Sound(w, first, c);
    FirstListed(w, first);
    forall d | 0 <= d < |v.claimants|
      ensures Sound(v, first, d)
    {
      assert Sound(w, first, d);
    }
    forall k | k in v.comments && k != first
      ensures Attended(v, k)
    {
      assert Attended(w, k);
      assert k in StateComments(w);
    }
  }

  lemma DeleteKeeps(w: World, first: nat, c: nat, answered: bool)
    requires Inv(w, first) && c < |w.claimants| && w.claimants[c].Settling? && w.claimants[c].todo != []
    ensures Inv(Next(w, if answered then Delete(c) else DeleteUnanswered(c)), first)
  {
    var v := Next(w, if answered then Delete(c) else DeleteUnanswered(c));
    var p := w.claimants[c];
    assert Sound(w, first, c);
    assert p.todo[0] in p.todo && p.todo == [p.todo[0]] + p.todo[1..];
    forall d | 0 <= d < |v.claimants|
      ensures Sound(v, first, d)
    {
      assert Sound(w, first, d);
    }
    forall k | k in v.comments && k != first
      ensures Attended(v, k)
    {
      assert Attended(w, k);
    }
  }

  /** Steps that touch no comment: both looks, the decision, a crash. */
  lemma QuietKeeps(w: World, first: nat, a: Action)
    requires Inv(w, first) && (a.Look? || a.LookAgain? || a.Decide? || a.Crash?)
    ensures Inv(Next(w, a), first)
  {
    var v := Next(w, a);
    forall d | 0 <= d < |v.claimants|
      ensures Sound(v, first, d)
    {
      assert Sound(w, first, d);
    }
    forall k | k in v.comments && k != first
      ensures Attended(v, k)
    {
      assert Attended(w, k);
    }
  }

  lemma StepKeeps(w: World, first: nat, a: Action)
    requires Inv(w, first)
    ensures Inv(Next(w, a), first)
  {
    if a.c < |w.claimants| {
      var p := w.claimants[a.c];
      match a
      case Post(c) =>
        if p.Clear? { PostKeeps(w, first, c, true); }
      case PostUnanswered(c) =>
        if p.Clear? { PostKeeps(w, first, c, false); }
      case Rescan(c) =>
        if p.Posted? { RescanKeeps(w, first, c); }
      case Delete(c) =>
        if p.Settling? && p.todo != [] { DeleteKeeps(w, first, c, true); }
      case DeleteUnanswered(c) =>
        if p.Settling? && p.todo != [] { DeleteKeeps(w, first, c, false); }
      case _ => QuietKeeps(w, first, a);
    }
  }

  lemma {:induction false} RunInvariant(w: World, first: nat, actions: seq<Action>)
    requires Inv(w, first)
    ensures Inv(Run(w, actions), first) && |Run(w, actions).claimants| == |w.claimants|
    decreases |actions|
  {
    if actions != [] {
      StepKeeps(w, first, actions[0]);
      RunInvariant(Next(w, actions[0]), first, actions[1..]);
    }
  }

  lemma RunKeeps(w: World, first: nat, actions: seq<Action>)
    requires Start(w, first)
    ensures Inv(Run(w, actions), first) && |Run(w, actions).claimants| == |w.claimants|
  {
    assert forall c | 0 <= c < |w.claimants| :: w.claimants[c] in w.claimants && Sound(w, first, c);
    RunInvariant(w, first, actions);
  }

  // ----- Results over every interleaving -----------------------------------

  /** At most one claimant wins; it posted the comment with the smallest id, which survives. */
  lemma AtMostOneWinner(w: World, first: nat, actions: seq<Action>, c: nat, d: nat)
    requires Start(w, first) && c < |w.claimants| && d < |w.claimants|
    ensures var v := Run(w, actions);
            |v.claimants| == |w.claimants| &&
            (v.claimants[c].Won? ==> v.claimants[c].id == first && first in v.comments && v.comments[first] == c)
    ensures var v := Run(w, actions);
            |v.claimants| == |w.claimants| && (v.claimants[c].Won? && v.claimants[d].Won? ==> c == d)
  {
    RunKeeps(w, first, actions);
    assert Sound(Run(w, actions), first, c) && Sound(Run(w, actions), first, d);
  }

  /** What a reader finds: the first comment of the listing. */
  function Visible(w: World): Option<nat> {
    var ids := StateComments(w);
    if ids == [] then None else Some(Smallest(ids))
  }

  lemma {:induction false} RunConcat(w: World, actions: seq<Action>, more: seq<Action>)
    ensures Run(w, actions + more) == Run(Run(w, actions), more)
    decreases |actions|
  {
    if actions == [] {
      assert actions + more == more;
    } else {
      assert (actions + more)[1..] == actions[1..] + more;
      RunConcat(Next(w, actions[0]), actions[1..], more);
    }
  }

  lemma NextGrows(w: World, a: Action)
    ensures w.next <= Next(w, a).next
  {
  }

  lemma {:induction false} RunGrows(w: World, more: seq<Action>)
    ensures w.next <= Run(w, more).next
    decreases |more|
  {
    if more != [] {
      NextGrows(w, more[0]);
      RunGrows(Next(w, more[0]), more[1..]);
    }
  }

  /** Once a reader can see state, every later reader sees the same comment. */
  lemma VisibleForever(w: World, first: nat, actions: seq<Action>, more: seq<Action>)
    requires Start(w, first) && Visible(Run(w, actions)).Some?
    ensures Visible(Run(w, actions)) == Some(first) == Visible(Run(w, actions + more))
  {
    RunKeeps(w, first, actions);
    RunKeeps(w, first, actions + more);
    RunConcat(w, actions, more);
    RunGrows(Run(w, actions), more);
    var v := Run(w, actions);
    assert Smallest(StateComments(v)) in v.comments;
    FirstListed(v, first);
    FirstListed(Run(w, actions + more), first);
  }

  /** Nobody who posted finds the listing empty afterwards. */
  lemma PostedStaysVisible(w: World, first: nat, actions: seq<Action>, c: nat)
    requires Start(w, first) && c < |w.claimants|
    ensures var v := Run(w, actions);
            |v.claimants| == |w.claimants| && (v.claimants[c].Posted? ==> Visible(v) == Some(first))
  {
    RunKeeps(w, first, actions);
    var v := Run(w, actions);
    assert Sound(v, first, c);
    if v.claimants[c].Posted? {
      FirstListed(v, first);
    }
  }

  /** When every claimant that posted has settled, exactly the first comment remains. */
  lemma OneCommentRemains(w: World, first: nat, actions: seq<Action>)
    requires Start(w, first) && forall p | p in Run(w, actions).claimants :: p.Settled()
    ensures var v := Run(w, actions); v.comments.Keys == if v.next > first then {first} else {}
  {
    RunKeeps(w, first, actions);
    var v := Run(w, actions);
    forall k | k in v.comments
      ensures k == first
    {
      assert v.claimants[v.comments[k]] in v.claimants;
      assert k == first || Attended(v, k);
    }
  }

  // ----- When the owner of the first comment fails -------------------------

  /** The step asks to delete a comment that is already gone. */
  predicate Misses(w: World, a: Action, c: nat) {
    && a == Delete(c) && c < |w.claimants| && w.claimants[c].Settling? && w.claimants[c].todo != []
    && w.claimants[c].todo[0] !in w.comments
  }

  predicate EverMisses(w: World, actions: seq<Action>, c: nat)
    decreases |actions|
  {
    actions != [] && (Misses(w, actions[0], c) || EverMisses(Next(w, actions[0]), actions[1..], c))
  }

  lemma BrokenOnlyByMiss(w: World, a: Action, c: nat)
    requires c < |w.claimants|
    ensures |Next(w, a).claimants| == |w.claimants|
    ensures Next(w, a).claimants[c].Broken? <==> w.claimants[c].Broken? || Misses(w, a, c)
  {
  }

  /** A claimant fails on a vanished duplicate exactly when one of its deletes misses. */
  lemma {:induction false} BrokenExactly(w: World, actions: seq<Action>, c: nat)
    requires c < |w.claimants|
    ensures var v := Run(w, actions);
            |v.claimants| == |w.claimants| && (v.claimants[c].Broken? <==> w.claimants[c].Broken? || EverMisses(w, actions, c))
    decreases |actions|
  {
    if actions != [] {
      BrokenOnlyByMiss(w, actions[0], c);
      BrokenExactly(Next(w, actions[0]), actions[1..], c);
    }
  }

  /** The owner of the first comment, once finished, won exactly when none of its deletes missed. */
  lemma OwnerWinsExactly(w: World, first: nat, actions: seq<Action>, c: nat)
    requires Start(w, first) && c < |w.claimants|
    ensures var v := Run(w, actions);
            |v.claimants| == |w.claimants| &&
            (var p := v.claimants[c];
             p.Holds(first) && !p.Posted? && !p.Settling? ==> (p == Won(first) <==> !EverMisses(w, actions, c)))
  {
    RunKeeps(w, first, actions);
    BrokenExactly(w, actions, c);
    assert w.claimants[c] in w.claimants;
    assert Sound(Run(w, actions), first, c);
  }

  /** Nobody stops and every response arrives. */
  predicate Undisturbed(actions: seq<Action>) {
    forall a | a in actions :: !a.Crash? && !a.PostUnanswered? && !a.DeleteUnanswered?
  }

  /** `v` is reached from `w` by a run without crashes or lost responses. */
  ghost predicate Reaches(w: World, v: World) {
    exists actions :: Undisturbed(actions) && Run(w, actions) == v
  }

  lemma ReachesNext(w: World, a: Action)
    requires !a.Crash? && !a.PostUnanswered? && !a.DeleteUnanswered?
    ensures Reaches(w, Next(w, a))
  {
    assert Undisturbed([a]) && [a][1..] == [] && Run(Next(w, a), []) == Next(w, a);
    assert Run(w, [a]) == Next(w, a);
  }

  lemma ReachesTransitive(w: World, v: World, u: World)
    requires Reaches(w, v) && Reaches(v, u)
    ensures Reaches(w, u)
  {
    var a :| Undisturbed(a) && Run(w, a) == v;
    var b :| Undisturbed(b) && Run(v, b) == u;
    RunConcat(w, a, b);
    assert Undisturbed(a + b);
  }

  /** The worlds of a race between two claimants. */
  function Racing(comments: map<nat, nat>, next: nat, a: Claimant, b: Claimant): World {
    World(comments, next, [a, b])
  }

  lemma LooksTwice(first: nat, c: nat, w: World)
    requires c < |w.claimants| && w.comments == map[] && w.next == first && w.claimants[c].Idle?
    ensures Reaches(w, w.(claimants := w.claimants[c := Clear]))
  {
    NothingListed(w.comments, 0, first, first);
    var v := Next(w, Look(c));
    ReachesNext(w, Look(c));
    ReachesNext(v, LookAgain(c));
    assert Next(v, LookAgain(c)).claimants == w.claimants[c := Clear];
    ReachesTransitive(w, v, Next(v, LookAgain(c)));
  }

  lemma BothPost(first: nat)
    ensures Reaches(Racing(map[], first, Clear, Clear),
                    Racing(map[first := 0, first + 1 := 1], first + 2, Posted(first), Posted(first + 1)))
  {
    var w := Racing(map[], first, Clear, Clear);
    ReachesNext(w, Post(0));
    assert Next(w, Post(0)) == Racing(map[first := 0], first + 1, Posted(first), Clear);
    ReachesNext(Next(w, Post(0)), Post(1));
    ReachesTransitive(w, Next(w, Post(0)), Next(Next(w, Post(0)), Post(1)));
  }

  lemma BothRescan(first: nat)
    ensures Reaches(Racing(map[first := 0, first + 1 := 1], first + 2, Posted(first), Posted(first + 1)),
                    Racing(map[first := 0, first + 1 := 1], first + 2,
                           Settling(first, first, [first + 1]), Settling(first + 1, first, [first + 1])))
  {
    var both := map[first := 0, first + 1 := 1];
    TwoListed(both, first, first + 2);
    var w := Racing(both, first + 2, Posted(first), Posted(first + 1));
    var v := Racing(both, first + 2, Settling(first, first, [first + 1]), Posted(first + 1));
    ReachesNext(w, Rescan(0));
    assert Next(w, Rescan(0)) == v;
    ReachesNext(v, Rescan(1));
    ReachesTransitive(w, v, Next(v, Rescan(1)));
  }

  /** The loser deletes its own comment first, so the owner's delete of it misses. */
  lemma LoserDeletesFirst(first: nat)
    ensures Reaches(Racing(map[first := 0, first + 1 := 1], first + 2,
                           Settling(first, first, [first + 1]), Settling(first + 1, first, [first + 1])),
                    Racing(map[first := 0], first + 2, Broken(first), Lost(first + 1)))
  {
    var w := Racing(map[first := 0, first + 1 := 1], first + 2,
                    Settling(first, first, [first + 1]), Settling(first + 1, first, [first + 1]));
    var v := Racing(map[first := 0], first + 2, Settling(first, first, [first + 1]), Settling(first + 1, first, []));
    var u := Racing(map[first := 0], first + 2, Settling(first, first, [first + 1]), Lost(first + 1));
    ReachesNext(w, Delete(1));
    assert map[first := 0, first + 1 := 1] - {first + 1} == map[first := 0];
    assert [first + 1][1..] == [];
    assert Next(w, Delete(1)) == v;
    ReachesNext(v, Decide(1));
    assert Next(v, Decide(1)) == u;
    ReachesNext(u, Delete(0));
    ReachesTransitive(w, v, u);
    ReachesTransitive(w, u, Next(u, Delete(0)));
  }

  /** Two claimants, no crash, no lost response, both finished, and neither holds the claim. */
  lemma NobodyMayWin(first: nat)
    ensures Start(Racing(map[], first, Idle, Idle), first)
    ensures Reaches(Racing(map[], first, Idle, Idle), Racing(map[first := 0], first + 2, Broken(first), Lost(first + 1)))
  {
    var w := Racing(map[], first, Idle, Idle);
    var both := map[first := 0, first + 1 := 1];
    var posted := Racing(both, first + 2, Posted(first), Posted(first + 1));
    var settling := Racing(both, first + 2, Settling(first, first, [first + 1]), Settling(first + 1, first, [first + 1]));
    LooksTwice(first, 0, w);
    assert [Idle, Idle][0 := Clear] == [Clear, Idle];
    assert w.(claimants := w.claimants[0 := Clear]) == Racing(map[], first, Clear, Idle);
    assert [Clear, Idle][1 := Clear] == [Clear, Clear];
    LooksTwice(first, 1, Racing(map[], first, Clear, Idle));
    ReachesTransitive(w, Racing(map[], first, Clear, Idle), Racing(map[], first, Clear, Clear));
    BothPost(first);
    ReachesTransitive(w, Racing(map[], first, Clear, Clear), posted);
    BothRescan(first);
    ReachesTransitive(w, posted, settling);
    LoserDeletesFirst(first);
    ReachesTransitive(w, settling, Racing(map[first := 0], first + 2, Broken(first), Lost(first + 1)));
  }

  lemma TwoListed(comments: map<nat, nat>, first: nat, next: nat)
    requires next == first + 2 && comments.Keys == {first, first + 1}
    ensures Listing(comments, 0, next) == [first, first + 1]
    ensures Smallest([first, first + 1]) == first && Without([first, first + 1], first) == [first + 1]
  {
    NothingListed(comments, 0, first, next);
    assert Listing(comments, first + 2, next) == [] && Listing(comments, first + 1, next) == [first + 1];
    assert Listing(comments, first, next) == [first] + [first + 1];
    assert [first, first + 1][1..] == [first + 1] && [first + 1][1..] == [];
    assert Without([first + 1], first) == [first + 1];
  }

  lemma {:induction false} NothingListed(comments: map<nat, nat>, from: nat, end: nat, next: nat)
    requires from <= end <= next && forall k | from <= k < end :: k !in comments
    ensures Listing(comments, from, next) == Listing(comments, end, next)
    decreases end - from
  {
    if from < end {
      NothingListed(comments, from + 1, end, next);
    }
  }
}
