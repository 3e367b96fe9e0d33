/**
  What a whole plan says about one work item: which of its actions name the item, when that
  is a single one, and when a manual action for the item stands alone, as it is meant to.
*/
module Stopping {
  import opened Wrappers
  import Domain
  import opened Compaction
  import opened Leases
  import opened Sorting
  import opened Reconcile

  // ----- The parts of one item's planning ----------------------------------

  /** Terminal, or stopped by a pre-check: nothing further is planned from these observations. */
  predicate Stopped(x: Inputs) {
    x.IsTerminal() || PreCheck(x) != []
  }

  /** The action planned for the item itself, if any. */
  function OwnAction(policy: Policy, x: Inputs): seq<Action> {
    if x.IsTerminal() then [Action(Noop, Some(x.item), x.RunId(), None, None, None, None)]
    else if PreCheck(x) != [] then PreCheck(x)
    else CrashPoint(policy, x)
  }

  lemma OwnActionShape(policy: Policy, x: Inputs)
    ensures |OwnAction(policy, x)| <= 1
    ensures forall a | a in OwnAction(policy, x) :: a.item == Some(x.item)
    ensures Stopped(x) ==> |OwnAction(policy, x)| == 1 && !OwnAction(policy, x)[0].kind.Relaunch?
  {
  }

  lemma PlanOneParts(policy: Policy, x: Inputs, branches: set<string>, sessions: set<string>)
    ensures PlanOne(policy, x, branches, sessions)
         == OwnAction(policy, x) + (if Stopped(x) then [] else Cleanups(policy, x, branches, sessions))
  {
  }

  /** A terminal item plans one no-op for itself; an item stopped by a pre-check plans one action. */
  lemma ItemPlanIsOneAction(policy: Policy, x: Inputs, branches: set<string>, sessions: set<string>)
    ensures x.IsTerminal() ==> |PlanOne(policy, x, branches, sessions)| == 1 && PlanOne(policy, x, branches, sessions)[0].kind.Noop?
    ensures !x.IsTerminal() && PreCheck(x) != [] ==> |PlanOne(policy, x, branches, sessions)| == 1
  {
  }

  // ----- The actions of a plan that name an item ---------------------------

  function Naming(actions: seq<Action>, id: string): seq<Action> {
    Filter(actions, (a: Action) => a.item == Some(id))
  }

  ghost function Runs(actions: seq<Action>): set<string> {
    set a | a in actions && a.kind.Relaunch? :: RunKey(a)
  }

  lemma RunsCons(a: seq<Action>, seen: set<string>, next: set<string>)
    requires a != [] && next == if a[0].kind.Relaunch? then seen + {RunKey(a[0])} else seen
    ensures next + Runs(a[1..]) == seen + Runs(a)
  {
    assert a == [a[0]] + a[1..];
  }

  lemma FinalizedStep(a: seq<Action>, seen: set<string>, next: set<string>)
    requires a != [] && next == if a[0].kind.Relaunch? then seen + {RunKey(a[0])} else seen
    ensures Finalized(a, seen) == (if a[0].kind.Relaunch? && RunKey(a[0]) in seen then [] else [a[0]]) + Finalized(a[1..], next)
  {
    if a[0].kind.Relaunch? && RunKey(a[0]) in seen {
      assert next == seen;
    }
  }

  lemma Regroup(first: seq<Action>, a: seq<Action>, b: seq<Action>)
    ensures first + (a + b) == (first + a) + b
  {
  }

  lemma {:induction false} FinalizedConcat(a: seq<Action>, b: seq<Action>, seen: set<string>)
    ensures Finalized(a + b, seen) == Finalized(a, seen) + Finalized(b, seen + Runs(a))
    decreases |a|
  {
    if a == [] {
      assert a + b == b && seen + Runs(a) == seen;
    } else {
      var ab, rest := a + b, a[1..];
      var next := if a[0].kind.Relaunch? then seen + {RunKey(a[0])} else seen;
      var first := if a[0].kind.Relaunch? && RunKey(a[0]) in seen then [] else [a[0]];
      assert ab[0] == a[0] && ab[1..] == rest + b;
      FinalizedConcat(rest, b, next);
      RunsCons(a, seen, next);
      FinalizedStep(a, seen, next);
      FinalizedStep(ab, seen, next);
      Regroup(first, Finalized(rest, next), Finalized(b, seen + Runs(a)));
    }
  }

  lemma {:induction false} FinalizedKeepsOthers(a: seq<Action>, seen: set<string>)
    requires forall x | x in a :: !x.kind.Relaunch?
    ensures Finalized(a, seen) == a
    decreases |a|
  {
    if a != [] {
      FinalizedKeepsOthers(a[1..], seen);
    }
  }

  predicate RelaunchesRun(policy: Policy, x: Inputs, run: string) {
    exists a | a in OwnAction(policy, x) :: a.kind.Relaunch? && RunKey(a) == run
  }

  /** The item's own action is in the plan: it exists and is no repeated relaunch. */
  predicate Told(policy: Policy, xs: seq<Inputs>, i: nat)
    requires i < |xs|
  {
    var own := OwnAction(policy, xs[i]);
    own != [] && (own[0].kind.Relaunch? ==> forall j | 0 <= j < i :: !RelaunchesRun(policy, xs[j], RunKey(own[0])))
  }

  /** What the observations at `i` add to the plan under the name of `id`. */
  function Contribution(policy: Policy, xs: seq<Inputs>, id: string, live: set<string>, i: nat): seq<Action> {
    if i >= |xs| then []
    else
      (if xs[i].item == id && Told(policy, xs, i) then OwnAction(policy, xs[i]) else [])
      + (if Stopped(xs[i]) then [] else CleanupsNaming(policy, xs[i], id, live))
  }

  function CleanupsNaming(policy: Policy, x: Inputs, id: string, live: set<string>): seq<Action> {
    SessionCleanups(policy, x, Filter(x.sessions, (s: Session) => s.item == Some(id)), live)
  }

  function Joined(c: nat -> seq<Action>, n: nat): seq<Action> {
    if n == 0 then [] else Joined(c, n - 1) + c(n - 1)
  }

  /** The cleanup of one session, if it is an orphan. */
  function OneCleanup(policy: Policy, x: Inputs, s: Session, live: set<string>): seq<Action> {
    if OrphanSession(policy, x, s, live) then [Action(CleanOrphanSession, s.item, None, Some(s.id), None, None, None)] else []
  }

  lemma NamedOne(policy: Policy, x: Inputs, s: Session, id: string, live: set<string>)
    ensures Naming(OneCleanup(policy, x, s, live), id) == if s.item == Some(id) then OneCleanup(policy, x, s, live) else []
  {
    if s.item == Some(id) {
      FilterKeepsAll(OneCleanup(policy, x, s, live), (a: Action) => a.item == Some(id));
    } else {
      FilterKeepsNone(OneCleanup(policy, x, s, live), (a: Action) => a.item == Some(id));
    }
  }

  lemma {:induction false} NamedSessionCleanups(policy: Policy, x: Inputs, s: seq<Session>, id: string, live: set<string>)
    ensures Naming(SessionCleanups(policy, x, s, live), id)
         == SessionCleanups(policy, x, Filter(s, (t: Session) => t.item == Some(id)), live)
  {
    if s != [] {
      NamedSessionCleanups(policy, x, s[1..], id, live);
      NamedOne(policy, x, s[0], id, live);
      var rest := Filter(s[1..], (t: Session) => t.item == Some(id));
      FilterConcat(OneCleanup(policy, x, s[0], live), SessionCleanups(policy, x, s[1..], live), (a: Action) => a.item == Some(id));
      assert ([s[0]] + rest)[1..] == rest;
    }
  }

  lemma {:induction false} WorktreeCleanupsNameNobody(policy: Policy, x: Inputs, w: seq<Worktree>, live: set<string>)
    ensures forall a | a in WorktreeCleanups(policy, x, w, live) :: a.item.None? && !a.kind.Relaunch?
  {
    if w != [] {
      WorktreeCleanupsNameNobody(policy, x, w[1..], live);
    }
  }

  lemma NamedCleanups(policy: Policy, x: Inputs, id: string, branches: set<string>, sessions: set<string>)
    ensures Naming(Cleanups(policy, x, branches, sessions), id) == CleanupsNaming(policy, x, id, sessions)
    ensures forall a | a in Cleanups(policy, x, branches, sessions) :: !a.kind.Relaunch?
  {
    NamedSessionCleanups(policy, x, x.sessions, id, sessions);
    WorktreeCleanupsNameNobody(policy, x, x.worktrees, branches);
    SessionCleanupsPermitted(policy, x, x.sessions, sessions);
    FilterKeepsNone(WorktreeCleanups(policy, x, x.worktrees, branches), (a: Action) => a.item == Some(id));
    FilterConcat(SessionCleanups(policy, x, x.sessions, sessions), WorktreeCleanups(policy, x, x.worktrees, branches),
                 (a: Action) => a.item == Some(id));
  }

  /** Naming the item within one finalized stretch: its own action unless repeated, then its cleanups. */
  lemma NamedStretch(own: seq<Action>, clean: seq<Action>, item: string, id: string, seen: set<string>)
    requires |own| <= 1 && (forall a | a in own :: a.item == Some(item)) && (forall a | a in clean :: !a.kind.Relaunch?)
    ensures Naming(Finalized(own + clean, seen), id)
         == (if item == id && own != [] && (own[0].kind.Relaunch? ==> RunKey(own[0]) !in seen) then own else [])
            + Naming(clean, id)
    ensures Runs(own + clean) == Runs(own)
  {
    FinalizedConcat(own, clean, seen);
    FinalizedKeepsOthers(clean, seen + Runs(own));
    FilterConcat(Finalized(own, seen), clean, (a: Action) => a.item == Some(id));
    assert forall a :: a in own + clean <==> a in own || a in clean;
    if own != [] {
      assert own == [own[0]] && own[1..] == [] && own[0] in own;
      assert Finalized(own, seen) == if own[0].kind.Relaunch? && RunKey(own[0]) in seen then [] else own;
      if item == id {
        FilterKeepsAll(own, (a: Action) => a.item == Some(id));
      } else {
        FilterKeepsNone(own, (a: Action) => a.item == Some(id));
      }
    }
  }

  ghost predicate Plans(policy: Policy, branches: set<string>, sessions: set<string>, plan: Inputs -> seq<Action>) {
    forall x :: plan(x) == PlanOne(policy, x, branches, sessions)
  }

  lemma ItemRuns(policy: Policy, x: Inputs, branches: set<string>, sessions: set<string>, run: string)
    ensures run in Runs(PlanOne(policy, x, branches, sessions)) <==> RelaunchesRun(policy, x, run)
  {
    PlanOneParts(policy, x, branches, sessions);
    NamedCleanups(policy, x, "", branches, sessions);
    var clean := if Stopped(x) then [] else Cleanups(policy, x, branches, sessions);
    assert forall a :: a in OwnAction(policy, x) + clean <==> a in OwnAction(policy, x) || a in clean;
  }

  lemma {:induction false} RunsBefore(plan: Inputs -> seq<Action>, xs: seq<Inputs>, n: nat, run: string, relaunches: Inputs -> bool)
    requires n <= |xs| && forall x :: relaunches(x) <==> run in Runs(plan(x))
    ensures run in Runs(PlanEach(plan, xs[..n])) <==> exists j | 0 <= j < n :: relaunches(xs[j])
  {
    if n == 0 {
      assert PlanEach(plan, xs[..0]) == [];
    } else {
      var m := n - 1;
      RunsBefore(plan, xs, m, run, relaunches);
      assert xs[..n] == xs[..m] + [xs[m]];
      PlanEachSnoc(plan, xs[..m], xs[m]);
      var before, last := PlanEach(plan, xs[..m]), plan(xs[m]);
      assert forall a :: a in before + last <==> a in before || a in last;
      assert relaunches(xs[m]) <==> run in Runs(last);
    }
  }

  /** The actions naming an item are joined from what each stretch of the plan adds. */
  lemma {:induction false} NamingPlanned(plan: Inputs -> seq<Action>, xs: seq<Inputs>, id: string, c: nat -> seq<Action>, n: nat)
    requires n <= |xs|
    requires forall m: nat | m < |xs| :: c(m) == Naming(Finalized(plan(xs[m]), Runs(PlanEach(plan, xs[..m]))), id)
    ensures Naming(Finalized(PlanEach(plan, xs[..n]), {}), id) == Joined(c, n)
  {
    if n == 0 {
      assert PlanEach(plan, xs[..0]) == [];
    } else {
      var m := n - 1;
      NamingPlanned(plan, xs, id, c, m);
      var x, before := xs[m], PlanEach(plan, xs[..m]);
      assert xs[..n] == xs[..m] + [x];
      PlanEachSnoc(plan, xs[..m], x);
      FinalizedConcat(before, plan(x), {});
      assert {} + Runs(before) == Runs(before);
      FilterConcat(Finalized(before, {}), Finalized(plan(x), Runs(before)), (a: Action) => a.item == Some(id));
    }
  }

  lemma NamedPart(policy: Policy, branches: set<string>, sessions: set<string>, plan: Inputs -> seq<Action>, xs: seq<Inputs>, id: string, m: nat)
    requires Plans(policy, branches, sessions, plan) && m < |xs|
    ensures Naming(Finalized(plan(xs[m]), Runs(PlanEach(plan, xs[..m]))), id) == Contribution(policy, xs, id, sessions, m)
  {
    var x, seen := xs[m], Runs(PlanEach(plan, xs[..m]));
    var own := OwnAction(policy, x);
    var clean := if Stopped(x) then [] else Cleanups(policy, x, branches, sessions);
    OwnActionShape(policy, x);
    PlanOneParts(policy, x, branches, sessions);
    NamedCleanups(policy, x, id, branches, sessions);
    NamedStretch(own, clean, x.item, id, seen);
    if own != [] {
      ToldExactly(policy, branches, sessions, plan, xs, m, RunKey(own[0]));
    }
  }

  lemma ToldExactly(policy: Policy, branches: set<string>, sessions: set<string>, plan: Inputs -> seq<Action>, xs: seq<Inputs>, m: nat, run: string)
    requires Plans(policy, branches, sessions, plan) && m < |xs|
    ensures run in Runs(PlanEach(plan, xs[..m])) <==> exists j | 0 <= j < m :: RelaunchesRun(policy, xs[j], run)
  {
    var relaunches := (x: Inputs) => RelaunchesRun(policy, x, run);
    forall x
      ensures relaunches(x) <==> run in Runs(plan(x))
    {
      ItemRuns(policy, x, branches, sessions, run);
    }
    RunsBefore(plan, xs, m, run, relaunches);
    assert forall j | 0 <= j < m :: relaunches(xs[j]) == RelaunchesRun(policy, xs[j], run);
  }

  /** The actions naming an item are what each input adds under its name, in input order. */
  lemma NamingPlan(policy: Policy, xs: seq<Inputs>, id: string, c: nat -> seq<Action>)
    requires forall i :: c(i) == Contribution(policy, xs, id, HeldSessions(xs), i)
    ensures Naming(Plan(policy, xs), id) == Joined(c, |xs|)
  {
    var branches, sessions := HeldBranches(xs), HeldSessions(xs);
    var plan := (x: Inputs) => PlanOne(policy, x, branches, sessions);
    forall m: nat | m < |xs|
      ensures c(m) == Naming(Finalized(plan(xs[m]), Runs(PlanEach(plan, xs[..m]))), id)
    {
      NamedPart(policy, branches, sessions, plan, xs, id, m);
    }
    NamingPlanned(plan, xs, id, c, |xs|);
    PlanOrNothing(policy, xs, id, plan);
  }

  lemma PlanOrNothing(policy: Policy, xs: seq<Inputs>, id: string, plan: Inputs -> seq<Action>)
    requires plan == ((x: Inputs) => PlanOne(policy, x, HeldBranches(xs), HeldSessions(xs)))
    ensures Naming(Plan(policy, xs), id) == Naming(Finalized(PlanEach(plan, xs[..|xs|]), {}), id)
  {
    assert xs[..|xs|] == xs && PlanAll(policy, xs, HeldBranches(xs), HeldSessions(xs)) == PlanEach(plan, xs);
    var nothing := Action(Noop, None, None, None, None, None, None);
    if PlanEach(plan, xs) == [] {
      assert Finalized([nothing], {}) == [nothing] + Finalized([nothing][1..], {});
      FilterKeepsNone([nothing], (a: Action) => a.item == Some(id));
    }
  }

  // ----- When exactly one action names an item -----------------------------

  lemma {:induction false} JoinedEmpty(c: nat -> seq<Action>, n: nat)
    ensures Joined(c, n) == [] <==> forall j | 0 <= j < n :: c(j) == []
  {
    if n > 0 {
      JoinedEmpty(c, n - 1);
    }
  }

  lemma ConcatOne<T>(a: seq<T>, b: seq<T>)
    ensures |a + b| == 1 <==> (|a| == 1 && b == []) || (a == [] && |b| == 1)
    ensures (b == [] ==> a + b == a) && (a == [] ==> a + b == b)
  {
  }

  lemma {:induction false} JoinedOne(c: nat -> seq<Action>, n: nat, i: nat)
    requires i < n && c(i) != []
    ensures |Joined(c, n)| == 1 <==> |c(i)| == 1 && forall j | 0 <= j < n && j != i :: c(j) == []
    ensures |Joined(c, n)| == 1 ==> Joined(c, n) == c(i)
  {
    ConcatOne(Joined(c, n - 1), c(n - 1));
    JoinedEmpty(c, n - 1);
    if i < n - 1 {
      JoinedOne(c, n - 1, i);
    }
  }

  lemma {:induction false} ManualJoined(c: nat -> seq<Action>, n: nat)
    ensures HasManual(Joined(c, n)) <==> exists i | 0 <= i < n :: HasManual(c(i))
  {
    if n > 0 {
      ManualJoined(c, n - 1);
      var before, last := Joined(c, n - 1), c(n - 1);
      assert forall a :: a in before + last <==> a in before || a in last;
    }
  }

  /** One contribution is the whole when nobody else tells anything and nothing intrudes. */
  lemma AloneByParts(c: nat -> seq<Action>, n: nat, i: nat, told: nat -> bool, intruded: nat -> bool)
    requires i < n && told(i) && forall j | 0 <= j < n :: c(j) == [] <==> !told(j) && !intruded(j)
    requires |c(i)| == 1 <==> !intruded(i)
    ensures |Joined(c, n)| == 1 <==> (forall j | 0 <= j < n && j != i :: !told(j)) && forall j | 0 <= j < n :: !intruded(j)
    ensures |Joined(c, n)| == 1 ==> Joined(c, n) == c(i)
  {
    JoinedOne(c, n, i);
  }

  /** An input that is not stopped observes an old session of the item that no unexpired claim protects. */
  predicate Intrudes(policy: Policy, xs: seq<Inputs>, id: string, y: Inputs) {
    !Stopped(y) && exists s | s in y.sessions ::
      s.item == Some(id) && !SessionHeld(xs, s.id) && y.now - s.lastActivity >= policy.sessionTtl
  }

  /** Nobody but the observations at `i` has anything to say about the item. */
  predicate SpeaksAlone(policy: Policy, xs: seq<Inputs>, id: string, i: nat) {
    && (forall j | 0 <= j < |xs| && j != i && xs[j].item == id :: !Told(policy, xs, j))
    && (forall y | y in xs :: !Intrudes(policy, xs, id, y))
  }

  lemma CleanupsNamingExactly(policy: Policy, xs: seq<Inputs>, id: string, y: Inputs)
    requires !Stopped(y)
    ensures CleanupsNaming(policy, y, id, HeldSessions(xs)) != [] <==> Intrudes(policy, xs, id, y)
  {
    var mine := Filter(y.sessions, (s: Session) => s.item == Some(id));
    SessionCleanupsExactly(policy, y, mine, HeldSessions(xs));
    forall s | s in y.sessions
      ensures s.id in HeldSessions(xs) <==> SessionHeld(xs, s.id)
    {
      HeldSessionsExact(xs, s.id);
    }
  }

  lemma ContributesExactly(policy: Policy, xs: seq<Inputs>, id: string, j: nat)
    requires j < |xs|
    ensures Contribution(policy, xs, id, HeldSessions(xs), j) == [] <==>
            !(xs[j].item == id && Told(policy, xs, j)) && !Intrudes(policy, xs, id, xs[j])
  {
    if !Stopped(xs[j]) {
      CleanupsNamingExactly(policy, xs, id, xs[j]);
    }
  }

  /**
    For an input whose own action is planned: it is the only action of the plan that names the
    item exactly when it speaks alone.
  */
  lemma OneActionExactly(policy: Policy, xs: seq<Inputs>, i: nat)
    requires i < |xs| && Told(policy, xs, i)
    ensures |Naming(Plan(policy, xs), xs[i].item)| == 1 <==> SpeaksAlone(policy, xs, xs[i].item, i)
    ensures SpeaksAlone(policy, xs, xs[i].item, i) ==> Naming(Plan(policy, xs), xs[i].item) == OwnAction(policy, xs[i])
  {
    var c, told, intruded := PartsOf(policy, xs, i);
    AloneByParts(c, |xs|, i, told, intruded);
  }

  /** The whole plan about the item of `xs[i]` in parts: who tells an own action, who intrudes. */
  ghost predicate Parts(policy: Policy, xs: seq<Inputs>, id: string, c: nat -> seq<Action>, told: nat -> bool, intruded: nat -> bool) {
    && (forall j :: c(j) == Contribution(policy, xs, id, HeldSessions(xs), j))
    && (forall j: nat | j < |xs| :: told(j) <==> xs[j].item == id && Told(policy, xs, j))
    && (forall j: nat | j < |xs| :: intruded(j) <==> Intrudes(policy, xs, id, xs[j]))
  }

  lemma PartsOf(policy: Policy, xs: seq<Inputs>, i: nat) returns (c: nat -> seq<Action>, told: nat -> bool, intruded: nat -> bool)
    requires i < |xs| && Told(policy, xs, i)
    ensures Naming(Plan(policy, xs), xs[i].item) == Joined(c, |xs|) && told(i)
    ensures forall j | 0 <= j < |xs| :: c(j) == [] <==> !told(j) && !intruded(j)
    ensures (|c(i)| == 1 <==> !intruded(i)) && (|c(i)| == 1 ==> c(i) == OwnAction(policy, xs[i]))
    ensures SpeaksAlone(policy, xs, xs[i].item, i) <==>
            (forall j | 0 <= j < |xs| && j != i :: !told(j)) && forall j | 0 <= j < |xs| :: !intruded(j)
  {
    var id := xs[i].item;
    c := (j: nat) => Contribution(policy, xs, id, HeldSessions(xs), j);
    told := (j: nat) => j < |xs| && xs[j].item == id && Told(policy, xs, j);
    intruded := (j: nat) => j < |xs| && Intrudes(policy, xs, id, xs[j]);
    PartsContribute(policy, xs, id, c, told, intruded);
    PartsOwn(policy, xs, i, c, told, intruded);
    AloneInWords(policy, xs, id, i, told, intruded);
  }

  lemma PartsContribute(policy: Policy, xs: seq<Inputs>, id: string, c: nat -> seq<Action>, told: nat -> bool, intruded: nat -> bool)
    requires Parts(policy, xs, id, c, told, intruded)
    ensures Naming(Plan(policy, xs), id) == Joined(c, |xs|)
    ensures forall j | 0 <= j < |xs| :: c(j) == [] <==> !told(j) && !intruded(j)
  {
    NamingPlan(policy, xs, id, c);
    forall j | 0 <= j < |xs|
      ensures c(j) == [] <==> !told(j) && !intruded(j)
    {
      ContributesExactly(policy, xs, id, j);
    }
  }

  lemma PartsOwn(policy: Policy, xs: seq<Inputs>, i: nat, c: nat -> seq<Action>, told: nat -> bool, intruded: nat -> bool)
    requires i < |xs| && Told(policy, xs, i) && Parts(policy, xs, xs[i].item, c, told, intruded)
    ensures told(i) && (|c(i)| == 1 <==> !intruded(i)) && (|c(i)| == 1 ==> c(i) == OwnAction(policy, xs[i]))
  {
    OwnContribution(policy, xs, i);
  }

  lemma OwnContribution(policy: Policy, xs: seq<Inputs>, i: nat)
    requires i < |xs| && Told(policy, xs, i)
    ensures var r := Contribution(policy, xs, xs[i].item, HeldSessions(xs), i);
            && (|r| == 1 <==> !Intrudes(policy, xs, xs[i].item, xs[i]))
            && (|r| == 1 ==> r == OwnAction(policy, xs[i]))
  {
    OwnActionShape(policy, xs[i]);
    if !Stopped(xs[i]) {
      CleanupsNamingExactly(policy, xs, xs[i].item, xs[i]);
    }
    assert OwnAction(policy, xs[i]) + [] == OwnAction(policy, xs[i]);
  }

  lemma AloneInWords(policy: Policy, xs: seq<Inputs>, id: string, i: nat, told: nat -> bool, intruded: nat -> bool)
    requires i < |xs|
    requires forall j: nat | j < |xs| :: told(j) <==> xs[j].item == id && Told(policy, xs, j)
    requires forall j: nat | j < |xs| :: intruded(j) <==> Intrudes(policy, xs, id, xs[j])
    ensures SpeaksAlone(policy, xs, id, i) <==>
            (forall j | 0 <= j < |xs| && j != i :: !told(j)) && forall j | 0 <= j < |xs| :: !intruded(j)
  {
    if forall j | 0 <= j < |xs| :: !intruded(j) {
      forall y | y in xs
        ensures !Intrudes(policy, xs, id, y)
      {
        var j :| 0 <= j < |xs| && xs[j] == y;
        assert !intruded(j);
      }
    }
    if SpeaksAlone(policy, xs, id, i) {
      forall j | 0 <= j < |xs|
        ensures !intruded(j)
      {
        assert xs[j] in xs;
      }
    }
  }

  /**
    A terminal item, or one stopped by a pre-check, is named by exactly one action of the plan,
    its own, if and only if no other input carries its id to an action of its own and no input
    that is not stopped observes an unprotected, over-age session of it.
  */
  lemma StoppedItemsGetOneAction(policy: Policy, xs: seq<Inputs>, i: nat)
    requires i < |xs| && Stopped(xs[i])
    ensures |Naming(Plan(policy, xs), xs[i].item)| == 1 <==> SpeaksAlone(policy, xs, xs[i].item, i)
    ensures |Naming(Plan(policy, xs), xs[i].item)| == 1 ==>
              var a := Naming(Plan(policy, xs), xs[i].item)[0];
              if xs[i].IsTerminal() then a.kind.Noop? else [a] == PreCheck(xs[i])
  {
    OwnActionShape(policy, xs[i]);
    OneActionExactly(policy, xs, i);
  }

  // ----- Stop on manual ----------------------------------------------------

  ghost predicate HasManual(actions: seq<Action>) {
    exists a | a in actions :: a.kind.Manual()
  }

  lemma ManualRowsExactly(c: Context)
    ensures FirstRow(c).Some? && FirstRow(c).value.Kind().Manual() <==>
            c.prHeadMoved || (c.leasePresent && !c.leaseAlive && !c.terminal) || c.duplicateCoders
  {
  }

  /** The observations call for a human, in a pre-check or through a manual row of the table. */
  predicate NeedsHuman(policy: Policy, x: Inputs) {
    !x.IsTerminal() &&
    if PreCheck(x) != [] then PreCheck(x)[0].kind.Manual()
    else
      var c := ContextOf(policy, x);
      c.prHeadMoved || (c.leasePresent && !c.leaseAlive) || c.duplicateCoders
  }

  lemma ManualRow(policy: Policy, x: Inputs, row: Option<Row>)
    ensures HasManual(RowActions(policy, x, row)) <==> row.Some? && row.value.Kind().Manual()
  {
    if row.Some? {
      assert RowActions(policy, x, row)[0] in RowActions(policy, x, row);
    }
  }

  lemma NeedsHumanExactly(policy: Policy, x: Inputs)
    ensures HasManual(OwnAction(policy, x)) <==> NeedsHuman(policy, x)
    ensures NeedsHuman(policy, x) ==> OwnAction(policy, x) != [] && !OwnAction(policy, x)[0].kind.Relaunch?
  {
    OwnActionShape(policy, x);
    if !x.IsTerminal() {
      if PreCheck(x) != [] {
        assert OwnAction(policy, x) == [PreCheck(x)[0]];
      } else {
        var row := FirstRow(ContextOf(policy, x));
        ManualRowsExactly(ContextOf(policy, x));
        ManualRow(policy, x, row);
        assert OwnAction(policy, x) == RowActions(policy, x, row);
      }
    }
  }

  lemma ManualNamingExactly(policy: Policy, xs: seq<Inputs>, id: string)
    ensures HasManual(Naming(Plan(policy, xs), id)) <==> exists i | 0 <= i < |xs| :: xs[i].item == id && NeedsHuman(policy, xs[i])
  {
    var c := (j: nat) => Contribution(policy, xs, id, HeldSessions(xs), j);
    NamingPlan(policy, xs, id, c);
    ManualJoined(c, |xs|);
    forall i | 0 <= i < |xs|
      ensures HasManual(c(i)) <==> xs[i].item == id && NeedsHuman(policy, xs[i])
    {
      ManualContribution(policy, xs, id, i);
    }
  }

  lemma ManualContribution(policy: Policy, xs: seq<Inputs>, id: string, i: nat)
    requires i < |xs|
    ensures HasManual(Contribution(policy, xs, id, HeldSessions(xs), i)) <==> xs[i].item == id && NeedsHuman(policy, xs[i])
  {
    NeedsHumanExactly(policy, xs[i]);
    SessionCleanupsPermitted(policy, xs[i], Filter(xs[i].sessions, (s: Session) => s.item == Some(id)), HeldSessions(xs));
    var own := if xs[i].item == id && Told(policy, xs, i) then OwnAction(policy, xs[i]) else [];
    var clean := if Stopped(xs[i]) then [] else CleanupsNaming(policy, xs[i], id, HeldSessions(xs));
    assert forall a :: a in own + clean <==> a in own || a in clean;
  }

  /**
    "Stop on manual" holds for an item in a whole plan exactly when every input of the item that
    calls for a human speaks alone about it.
  */
  lemma StopsOnManualExactly(policy: Policy, xs: seq<Inputs>, id: string)
    ensures (HasManual(Naming(Plan(policy, xs), id)) ==> |Naming(Plan(policy, xs), id)| == 1) <==>
            forall i | 0 <= i < |xs| && xs[i].item == id && NeedsHuman(policy, xs[i]) :: SpeaksAlone(policy, xs, id, i)
  {
    ManualNamingExactly(policy, xs, id);
    forall i | 0 <= i < |xs| && xs[i].item == id && NeedsHuman(policy, xs[i])
      ensures |Naming(Plan(policy, xs), id)| == 1 <==> SpeaksAlone(policy, xs, id, i)
    {
      NeedsHumanExactly(policy, xs[i]);
      OneActionExactly(policy, xs, i);
    }
  }

  // ----- Inputs for which it fails -----------------------------------------

  lemma NoSessionHeld(xs: seq<Inputs>, id: string)
    requires forall x | x in xs && x.claim.Some? :: x.claim.value.StaleAt(x.now)
    ensures !SessionHeld(xs, id)
  {
  }

  /** An item stopped on its expired lease, and another item whose observations list an old session of the first. */
  lemma StoppedItemNamedTwice(policy: Policy, a: Inputs, b: Inputs, old_: Session)
    requires old_ == Session("s", Some("A"), None, "lane", 0, false, false)
    requires var queued := WorkflowState("run", Domain.Queued, None, 0, None, [], [], [], NO_EXTRAS);
             a == Inputs("A", Some(queued), Some(ItemClaim("run", 0, policy.sessionTtl - 1, None, None)), [old_], [], [], policy.sessionTtl, None)
    requires b == Inputs("B", None, None, [old_], [], [], policy.sessionTtl, None)
    ensures PreCheck(a) != [] && PreCheck(a)[0].kind.Escalate?
    ensures HasManual(Naming(Plan(policy, [a, b]), "A")) && |Naming(Plan(policy, [a, b]), "A")| != 1
  {
    var xs := [a, b];
    assert StaleLease(a) != [] && BranchMoved(a) == [];
    assert RunSessions(b) == [] && PreCheck(b) == [];
    assert xs[0] == a && xs[1] == b && b in xs && old_ in b.sessions;
    NoSessionHeld(xs, old_.id);
    assert Intrudes(policy, xs, "A", b);
    assert NeedsHuman(policy, xs[0]);
    StoppedItemsGetOneAction(policy, xs, 0);
    ManualNamingExactly(policy, xs, "A");
  }

  /** The same beside a finished item, which gets more than its one no-op. */
  lemma TerminalItemNamedTwice(policy: Policy, a: Inputs, b: Inputs, old_: Session)
    requires old_ == Session("s", Some("A"), None, "lane", 0, false, false)
    requires var done := WorkflowState("run", Domain.Phase.Done, None, 0, Some("ci green"), [], [], [], NO_EXTRAS);
             a == Inputs("A", Some(done), None, [old_], [], [], policy.sessionTtl, None)
    requires b == Inputs("B", None, None, [old_], [], [], policy.sessionTtl, None)
    ensures a.IsTerminal() && |Naming(Plan(policy, [a, b]), "A")| != 1
  {
    var xs := [a, b];
    assert RunSessions(b) == [] && PreCheck(b) == [];
    assert xs[0] == a && b in xs && old_ in b.sessions;
    NoSessionHeld(xs, old_.id);
    assert Intrudes(policy, xs, "A", b);
    StoppedItemsGetOneAction(policy, xs, 0);
  }

  /** One item alone: a queued state without a claim and an old session of its own, named by an escalation and a cleanup. */
  lemma ManualRowWithCleanup(policy: Policy, a: Inputs, old_: Session)
    requires old_ == Session("s", Some("A"), None, "lane", 0, false, false)
    requires var queued := WorkflowState("run", Domain.Queued, None, 0, None, [], [], [], NO_EXTRAS);
             a == Inputs("A", Some(queued), None, [old_], [], [], policy.sessionTtl, None)
    ensures HasManual(Naming(Plan(policy, [a]), "A")) && |Naming(Plan(policy, [a]), "A")| != 1
  {
    var xs := [a];
    assert a.sessions[1..] == [] && RunSessions(a) == [] && PreCheck(a) == [];
    assert xs[0] == a && a in xs && old_ in a.sessions;
    NoSessionHeld(xs, old_.id);
    assert Intrudes(policy, xs, "A", a);
    assert NeedsHuman(policy, xs[0]);
    NeedsHumanExactly(policy, xs[0]);
    OneActionExactly(policy, xs, 0);
    ManualNamingExactly(policy, xs, "A");
  }

  // ----- What is cleaned ---------------------------------------------------

  lemma {:induction false} PlannedBy(plan: Inputs -> seq<Action>, xs: seq<Inputs>, x: Inputs, a: Action)
    requires x in xs && a in plan(x)
    ensures a in PlanEach(plan, xs)
  {
    if x != xs[0] {
      PlannedBy(plan, xs[1..], x, a);
    }
  }

  lemma {:induction false} OthersSurvive(actions: seq<Action>, seen: set<string>, a: Action)
    requires a in actions && !a.kind.Relaunch?
    ensures a in Finalized(actions, seen)
    decreases |actions|
  {
    if a != actions[0] {
      OthersSurvive(actions[1..], if actions[0].kind.Relaunch? then seen + {RunKey(actions[0])} else seen, a);
      assert RunKey(actions[0]) in seen ==> seen + {RunKey(actions[0])} == seen;
    }
  }

  lemma PlanHas(policy: Policy, xs: seq<Inputs>, x: Inputs, a: Action)
    requires x in xs && a in PlanOne(policy, x, HeldBranches(xs), HeldSessions(xs)) && !a.kind.Relaunch?
    ensures a in Plan(policy, xs)
  {
    var branches, sessions := HeldBranches(xs), HeldSessions(xs);
    var plan := (x: Inputs) => PlanOne(policy, x, branches, sessions);
    PlannedBy(plan, xs, x, a);
    assert PlanAll(policy, xs, branches, sessions) == PlanEach(plan, xs);
    OthersSurvive(PlanEach(plan, xs), {}, a);
  }

  lemma PlanFrom(policy: Policy, xs: seq<Inputs>, a: Action) returns (x: Inputs)
    requires a in Plan(policy, xs) && Cleans(a)
    ensures x in xs && a in PlanOne(policy, x, HeldBranches(xs), HeldSessions(xs))
  {
    var branches, sessions := HeldBranches(xs), HeldSessions(xs);
    var plan := (x: Inputs) => PlanOne(policy, x, branches, sessions);
    var all := PlanAll(policy, xs, branches, sessions);
    assert all == PlanEach(plan, xs);
    FinalizedDropsOnlyRepeats(if all == [] then [Action(Noop, None, None, None, None, None, None)] else all, {});
    PlannedFor(plan, xs, a);
    x :| x in xs && a in plan(x);
  }

  lemma {:induction false} WorktreeCleaned(policy: Policy, x: Inputs, w: seq<Worktree>, live: set<string>, t: Worktree)
    requires t in w && OrphanWorktree(policy, x, t, live)
    ensures Action(CleanOrphanWorktree, None, None, None, Some(t.branch), Some(t.path), None) in WorktreeCleanups(policy, x, w, live)
  {
    if t != w[0] {
      WorktreeCleaned(policy, x, w[1..], live, t);
    }
  }

  lemma CleanedWorktree(policy: Policy, xs: seq<Inputs>, a: Action) returns (x: Inputs, w: Worktree)
    requires a in Plan(policy, xs) && a.kind.CleanOrphanWorktree?
    ensures x in xs && !Stopped(x) && w in x.worktrees && OrphanWorktree(policy, x, w, HeldBranches(xs)) && a.branch == Some(w.branch)
  {
    var branches, sessions := HeldBranches(xs), HeldSessions(xs);
    x := PlanFrom(policy, xs, a);
    PlanOneParts(policy, x, branches, sessions);
    if a in OwnAction(policy, x) {
      OwnCleansNothing(policy, x, a);
    }
    CleanupsPermitted(policy, x, branches, sessions, a);
    w :| w in x.worktrees && OrphanWorktree(policy, x, w, branches) && a.branch == Some(w.branch);
  }

  lemma OwnCleansNothing(policy: Policy, x: Inputs, a: Action)
    requires a in OwnAction(policy, x)
    ensures !Cleans(a)
  {
    if !x.IsTerminal() {
      OnlyCleanupsClean(policy, x, a);
    }
  }

  lemma OldWorktreeCleaned(policy: Policy, xs: seq<Inputs>, x: Inputs, w: Worktree)
    requires x in xs && !Stopped(x) && w in x.worktrees && OrphanWorktree(policy, x, w, HeldBranches(xs))
    ensures Action(CleanOrphanWorktree, None, None, None, Some(w.branch), Some(w.path), None) in Plan(policy, xs)
  {
    WorktreeCleaned(policy, x, x.worktrees, HeldBranches(xs), w);
    PlanOneParts(policy, x, HeldBranches(xs), HeldSessions(xs));
    PlanHas(policy, xs, x, Action(CleanOrphanWorktree, None, None, None, Some(w.branch), Some(w.path), None));
  }

  predicate CleansBranch(actions: seq<Action>, branch: string) {
    exists a | a in actions :: a.kind.CleanOrphanWorktree? && a.branch == Some(branch)
  }

  /** An input that is not stopped observes an old worktree of the branch. */
  predicate SeesOldWorktree(policy: Policy, x: Inputs, branch: string) {
    !Stopped(x) && exists w | w in x.worktrees :: !w.isDefault && w.branch == branch && x.now - w.lastCommit >= policy.worktreeTtl
  }

  lemma CleanedIsOld(policy: Policy, xs: seq<Inputs>, branch: string, plan: seq<Action>)
    requires plan == Plan(policy, xs) && CleansBranch(plan, branch)
    ensures !BranchHeld(xs, branch) && exists x | x in xs :: SeesOldWorktree(policy, x, branch)
  {
    var a :| a in plan && a.kind.CleanOrphanWorktree? && a.branch == Some(branch);
    HeldBranchesExact(xs, branch);
    var x, w := CleanedWorktree(policy, xs, a);
    assert SeesOldWorktree(policy, x, branch);
  }

  lemma OldIsCleaned(policy: Policy, xs: seq<Inputs>, branch: string, plan: seq<Action>, x: Inputs)
    requires plan == Plan(policy, xs) && !BranchHeld(xs, branch) && x in xs && SeesOldWorktree(policy, x, branch)
    ensures CleansBranch(plan, branch)
  {
    HeldBranchesExact(xs, branch);
    var w :| w in x.worktrees && !w.isDefault && w.branch == branch && x.now - w.lastCommit >= policy.worktreeTtl;
    OldWorktreeCleaned(policy, xs, x, w);
  }

  /**
    The plan cleans a worktree of a branch exactly when no unexpired claim holds the branch and
    an input that is not stopped observes an old worktree on it; the cleanup names no item.
  */
  lemma WorktreesCleanedExactly(policy: Policy, xs: seq<Inputs>, branch: string, plan: seq<Action>)
    requires plan == Plan(policy, xs)
    ensures CleansBranch(plan, branch) <==> !BranchHeld(xs, branch) && exists x | x in xs :: SeesOldWorktree(policy, x, branch)
  {
    if CleansBranch(plan, branch) {
      CleanedIsOld(policy, xs, branch, plan);
    } else if x :| x in xs && SeesOldWorktree(policy, x, branch) {
      if !BranchHeld(xs, branch) {
        OldIsCleaned(policy, xs, branch, plan, x);
      }
    }
  }

  lemma CleanupsAreAutomatic(policy: Policy, x: Inputs, branches: set<string>, sessions: set<string>)
    ensures !HasManual(Cleanups(policy, x, branches, sessions))
  {
    SessionCleanupsPermitted(policy, x, x.sessions, sessions);
    WorktreeCleanupsPermitted(policy, x, x.worktrees, branches);
  }

  /**
    Within one item's own planning, cleanups of any session and worktree it observes included, a
    manual action is alone exactly unless a manual row is reached through the table, past the
    pre-checks, while something observed is to be cleaned.
  */
  lemma ItemStopsOnManualExactly(policy: Policy, x: Inputs, branches: set<string>, sessions: set<string>)
    ensures var c := ContextOf(policy, x);
            (HasManual(PlanOne(policy, x, branches, sessions)) ==> |PlanOne(policy, x, branches, sessions)| == 1) <==>
            !(!x.IsTerminal() && PreCheck(x) == []
              && (c.prHeadMoved || (c.leasePresent && !c.leaseAlive) || c.duplicateCoders)
              && ((exists s | s in x.sessions :: OrphanSession(policy, x, s, sessions))
                  || exists w | w in x.worktrees :: OrphanWorktree(policy, x, w, branches)))
  {
    if !x.IsTerminal() && PreCheck(x) == [] {
      ManualRowsExactly(ContextOf(policy, x));
      CleanupsAreAutomatic(policy, x, branches, sessions);
      CleanupsExactly(policy, x, branches, sessions);
      ManualAlone(CrashPoint(policy, x), Cleanups(policy, x, branches, sessions));
    } else {
      ItemPlanIsOneAction(policy, x, branches, sessions);
    }
  }

  lemma ManualAlone(crash: seq<Action>, clean: seq<Action>)
    requires |crash| <= 1 && !HasManual(clean)
    ensures (HasManual(crash + clean) ==> |crash + clean| == 1) <==> !(crash != [] && crash[0].kind.Manual() && clean != [])
  {
    assert forall a :: a in crash + clean <==> a in crash || a in clean;
    if crash != [] {
      assert crash == [crash[0]];
    }
  }

  lemma {:induction false} SessionCleanupsExactly(policy: Policy, x: Inputs, s: seq<Session>, live: set<string>)
    ensures SessionCleanups(policy, x, s, live) != [] <==> exists t | t in s :: OrphanSession(policy, x, t, live)
  {
    if s != [] {
      SessionCleanupsExactly(policy, x, s[1..], live);
      assert s == [s[0]] + s[1..];
      assert forall t :: t in s <==> t == s[0] || t in s[1..];
    }
  }

  lemma {:induction false} WorktreeCleanupsExactly(policy: Policy, x: Inputs, w: seq<Worktree>, live: set<string>)
    ensures WorktreeCleanups(policy, x, w, live) != [] <==> exists t | t in w :: OrphanWorktree(policy, x, t, live)
  {
    if w != [] {
      WorktreeCleanupsExactly(policy, x, w[1..], live);
      assert w == [w[0]] + w[1..];
      assert forall t :: t in w <==> t == w[0] || t in w[1..];
    }
  }

  lemma CleanupsExactly(policy: Policy, x: Inputs, branches: set<string>, sessions: set<string>)
    ensures Cleanups(policy, x, branches, sessions) != [] <==>
            (exists s | s in x.sessions :: OrphanSession(policy, x, s, sessions))
            || exists w | w in x.worktrees :: OrphanWorktree(policy, x, w, branches)
  {
    SessionCleanupsExactly(policy, x, x.sessions, sessions);
    WorktreeCleanupsExactly(policy, x, x.worktrees, branches);
  }

  /** A queued state without any claim, next to an old unclaimed worktree: an escalation and a cleanup. */
  lemma ManualWithCleanup(policy: Policy, w: Worktree)
    requires !w.isDefault
    ensures var s := WorkflowState("run", Domain.Queued, None, 0, None, [], [], [], NO_EXTRAS);
            var x := Inputs("item", Some(s), None, [], [w], [], w.lastCommit + policy.worktreeTtl, None);
            var plan := PlanOne(policy, x, HeldBranches([x]), HeldSessions([x]));
            |plan| == 2 && plan[0].kind.Escalate? && plan[1].kind.CleanOrphanWorktree?
  {
    var s := WorkflowState("run", Domain.Queued, None, 0, None, [], [], [], NO_EXTRAS);
    var x := Inputs("item", Some(s), None, [], [w], [], w.lastCommit + policy.worktreeTtl, None);
    assert [w][1..] == [];
    assert RunSessions(x) == [] && ItemSessions(x) == [];
    assert CodingSessions(policy, x) == [] && Live([]) == [];
    assert FirstRow(ContextOf(policy, x)) == Some(RowStaleLease);
    assert PreCheck(x) == [] && |CrashPoint(policy, x)| == 1;
    assert HeldBranches([x]) == {} && x.worktrees[1..] == [];
    assert OrphanWorktree(policy, x, w, {});
    assert x.sessions == [];
    SessionCleanupsExactly(policy, x, x.sessions, HeldSessions([x]));
    assert |WorktreeCleanups(policy, x, x.worktrees, {})| == 1;
  }
}
