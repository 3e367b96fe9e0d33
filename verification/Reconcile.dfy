/**
  The recovery planner: per item the pre-checks, the first applicable row of the decision
  table and the orphan cleanups; across items the protection of live branches and sessions
  and the rule of one relaunch per run.
*/
module Reconcile {
  import opened Wrappers
  import opened Domain
  import opened Compaction
  import opened Leases
  import opened Sorting

  // ----- Observations ------------------------------------------------------

  datatype Session = Session(
    id: string, item: Option<string>, run: Option<string>, lane: string, lastActivity: int, success: bool, terminal: bool)

  datatype Worktree = Worktree(path: string, branch: string, lastCommit: int, lastPush: Option<int>, isDefault: bool)

  datatype PullRequest = PullRequest(number: int, branch: string, head: string, expected: Option<string>) {
    predicate HeadMoved() {
      expected.Some? && expected.value != head
    }
  }

  datatype ItemClaim = ItemClaim(run: string, claimedAt: int, expires: int, branch: Option<string>, prNumber: Option<int>) {
    predicate StaleAt(now: int) {
      now > expires
    }
  }

  datatype GateSnapshot = GateSnapshot(passed: Option<bool>, pending: seq<string>)

  datatype Inputs = Inputs(
    item: string, state: Option<WorkflowState>, claim: Option<ItemClaim>, sessions: seq<Session>,
    worktrees: seq<Worktree>, pullRequests: seq<PullRequest>, now: int, ci: Option<GateSnapshot>)
  {
    function RunId(): Option<string> {
      if state.Some? then Some(state.value.runId) else None
    }

    predicate IsTerminal() {
      state.Some? && state.value.phase.Terminal()
    }
  }

  /** Idle times after which unclaimed sessions and worktrees are cleaned, and the role of each lane. */
  datatype Policy = Policy(sessionTtl: int, worktreeTtl: int, roles: map<string, Role>)

  datatype Kind =
    | ResumeSession | CollectResult | Relaunch | Escalate | HaltBranchMoved | CleanOrphanSession | CleanOrphanWorktree | Noop
  {
    predicate Manual() {
      Escalate? || HaltBranchMoved?
    }
  }

  datatype Action = Action(
    kind: Kind, item: Option<string>, run: Option<string>, session: Option<string>, branch: Option<string>,
    worktree: Option<string>, prNumber: Option<int>)

  // ----- Pre-checks --------------------------------------------------------

  function BranchMoved(x: Inputs): seq<Action> {
    if x.claim.None? || x.claim.value.prNumber.None? then []
    else if exists pr | pr in x.pullRequests :: pr.number == x.claim.value.prNumber.value && pr.HeadMoved() then
      [Action(HaltBranchMoved, Some(x.item), x.RunId(), None, x.claim.value.branch, None, x.claim.value.prNumber)]
    else []
  }

  function StaleLease(x: Inputs): seq<Action> {
    if x.state.None? || x.claim.None? || x.IsTerminal() || !x.claim.value.StaleAt(x.now) then []
    else [Action(Escalate, Some(x.item), Some(x.claim.value.run), None, x.claim.value.branch, None, x.claim.value.prNumber)]
  }

  predicate OneLane(s: seq<Session>) {
    forall i, j | 0 <= i < |s| && 0 <= j < |s| :: s[i].lane == s[j].lane
  }

  function RunSessions(x: Inputs): seq<Session> {
    if x.RunId().None? then [] else Filter(x.sessions, (s: Session) => s.run == x.RunId())
  }

  function Live(s: seq<Session>): seq<Session> {
    Filter(s, (t: Session) => !t.terminal)
  }

  function Ended(s: seq<Session>): seq<Session> {
    Filter(s, (t: Session) => t.terminal)
  }

  function DuplicateSessions(x: Inputs): seq<Action> {
    var all := RunSessions(x);
    var live, ended := Live(all), Ended(all);
    if |all| < 2 then []
    else if |live| >= 2 && OneLane(live) then
      [Action(Escalate, Some(x.item), x.RunId(), Some(live[0].id), None, None, None)]
    else if live != [] && ended != [] && OneLane(live + ended) then
      [Action(Escalate, Some(x.item), x.RunId(), Some(ended[0].id), None, None, None)]
    else if live != [] && ended != [] then
      [Action(CollectResult, Some(x.item), x.RunId(), Some(ended[0].id), None, None, None)]
    else []
  }

  /** The first pre-check that fires; a fired check is the whole plan of the item. */
  function PreCheck(x: Inputs): seq<Action> {
    if BranchMoved(x) != [] then BranchMoved(x)
    else if StaleLease(x) != [] then StaleLease(x)
    else DuplicateSessions(x)
  }

  // ----- The decision table ------------------------------------------------

  function ItemSessions(x: Inputs): seq<Session> {
    Filter(x.sessions, (s: Session) => s.item == Some(x.item))
  }

  predicate HasRole(policy: Policy, lane: string, role: Role) {
    lane in policy.roles && policy.roles[lane] == role
  }

  function CodingSessions(policy: Policy, x: Inputs): seq<Session> {
    Filter(ItemSessions(x), (s: Session) => HasRole(policy, s.lane, Role.Worker))
  }

  function ReviewSessions(policy: Policy, x: Inputs): seq<Session> {
    Filter(ItemSessions(x), (s: Session) => HasRole(policy, s.lane, Role.Reviewer))
  }

  function ClaimWorktrees(x: Inputs): seq<Worktree> {
    Filter(x.worktrees, (w: Worktree) => x.claim.Some? && x.claim.value.branch == Some(w.branch))
  }

  predicate FindingsPublished(state: Option<WorkflowState>) {
    state.Some? && exists f | f in state.value.findings :: f.threadId.Some?
  }

  predicate AllDispositioned(state: Option<WorkflowState>) {
    state.Some? && state.value.findings != []
    && forall f | f in state.value.findings :: exists d | d in state.value.dispositions :: d.findingId == f.id
  }

  /** What the rows of the table read. */
  datatype Context = Context(
    leasePresent: bool, leaseAlive: bool, terminal: bool, hasClaim: bool, hasBranch: bool, hasPr: bool,
    worktreeExists: bool, liveSession: bool, codingEnded: bool, reviewEnded: bool, commitRecorded: bool,
    coderSucceeded: bool, branchPushed: bool, prHeadMoved: bool, findingsPublished: bool,
    allDispositioned: bool, ciRecorded: bool, finalLabel: bool, duplicateCoders: bool)

  function FirstForBranch(prs: seq<PullRequest>, branch: string): Option<PullRequest> {
    if prs == [] then None
    else if prs[0].branch == branch then Some(prs[0])
    else FirstForBranch(prs[1..], branch)
  }

  function ContextOf(policy: Policy, x: Inputs): Context {
    var coding, review := CodingSessions(policy, x), ReviewSessions(policy, x);
    var liveCoding := Live(coding);
    var trees := ClaimWorktrees(x);
    var succeeded := exists s | s in coding :: s.success && s.terminal;
    var newer := x.claim.Some? && x.claim.value.branch.Some? && trees != [] && trees[0].lastCommit > x.claim.value.claimedAt;
    var pr := if x.claim.Some? && x.claim.value.branch.Some? then FirstForBranch(x.pullRequests, x.claim.value.branch.value) else None;
    Context(
      x.state.Some?, x.state.Some? && Leased(x.state.value, x.now), x.IsTerminal(), x.claim.Some?,
      x.claim.Some? && x.claim.value.branch.Some?, x.claim.Some? && x.claim.value.prNumber.Some?,
      trees != [], exists s | s in ItemSessions(x) :: !s.terminal,
      Ended(coding) != [], Ended(review) != [], newer && succeeded, succeeded,
      x.claim.Some? && trees != [] && trees[0].lastPush.Some? && trees[0].lastPush.value > x.claim.value.claimedAt,
      pr.Some? && pr.value.HeadMoved(), FindingsPublished(x.state), AllDispositioned(x.state),
      x.ci.Some? && x.ci.value.passed.Some? && x.ci.value.pending == [],
      x.state.Some? && (x.state.value.phase.Done? || x.state.value.phase.Failed? || x.state.value.phase.Escalated?),
      |liveCoding| >= 2 && OneLane(liveCoding))
  }

  datatype Row =
    | RowBranchMoved | RowStaleLease | RowDuplicates | PostPushBeforeReview | PostReviewNoFindings | PostFindingsNoDisposition
    | PostDispositionNoCi | PostCiNoPr | PostPrNoLabel | TerminalPreCommit | TerminalPrePush | AfterClaimBeforeBranch
    | PostPushNoPr | BranchNoSession | SessionInFlight | AlreadyTerminal | NoStateYet
  {
    function Kind(): Kind {
      match this
      case RowBranchMoved => HaltBranchMoved
      case RowStaleLease | RowDuplicates => Escalate
      case PostPushBeforeReview | PostDispositionNoCi | PostPrNoLabel | AfterClaimBeforeBranch | PostPushNoPr => ResumeSession
      case PostReviewNoFindings | TerminalPreCommit | TerminalPrePush | SessionInFlight => CollectResult
      case PostFindingsNoDisposition | PostCiNoPr | BranchNoSession => Relaunch
      case AlreadyTerminal | NoStateYet => Noop
    }
  }

  /** The first applicable row, in table order. */
  function FirstRow(c: Context): Option<Row> {
    if c.prHeadMoved then Some(RowBranchMoved)
    else if c.leasePresent && !c.leaseAlive && !c.terminal then Some(RowStaleLease)
    else if c.duplicateCoders then Some(RowDuplicates)
    else if c.hasClaim && c.hasPr && !c.reviewEnded && !c.liveSession then Some(PostPushBeforeReview)
    else if c.hasClaim && c.hasPr && c.reviewEnded && !c.findingsPublished then Some(PostReviewNoFindings)
    else if c.hasClaim && c.hasPr && c.findingsPublished && !c.allDispositioned then Some(PostFindingsNoDisposition)
    else if c.hasClaim && c.hasPr && c.allDispositioned && !c.ciRecorded then Some(PostDispositionNoCi)
    else if c.hasClaim && c.allDispositioned && c.ciRecorded && !c.hasPr then Some(PostCiNoPr)
    else if c.hasClaim && c.hasPr && !c.finalLabel then Some(PostPrNoLabel)
    else if c.hasClaim && c.codingEnded && c.coderSucceeded && !c.commitRecorded then Some(TerminalPreCommit)
    else if c.hasClaim && c.codingEnded && c.coderSucceeded && c.commitRecorded && !c.branchPushed then Some(TerminalPrePush)
    else if c.hasClaim && !c.hasBranch && c.leaseAlive then Some(AfterClaimBeforeBranch)
    else if c.hasClaim && c.hasBranch && !c.hasPr && c.branchPushed && !c.liveSession then Some(PostPushNoPr)
    else if c.hasClaim && c.hasBranch && c.worktreeExists && !c.liveSession then Some(BranchNoSession)
    else if c.hasClaim && c.liveSession && !c.codingEnded then Some(SessionInFlight)
    else if c.terminal then Some(AlreadyTerminal)
    else if !c.leasePresent then Some(NoStateYet)
    else None
  }

  /** The first of the most recently active sessions. */
  function MostRecent(s: seq<Session>): (r: Session)
    requires s != []
    ensures r in s && forall t | t in s :: t.lastActivity <= r.lastActivity
  {
    if |s| == 1 then s[0]
    else
      assert s == [s[0]] + s[1..];
      var rest := MostRecent(s[1..]);
      if s[0].lastActivity >= rest.lastActivity then s[0] else rest
  }

  function SessionFor(policy: Policy, x: Inputs, row: Row): Option<string> {
    var all, run := ItemSessions(x), RunSessions(x);
    match row
    case SessionInFlight | PostPushBeforeReview | PostPushNoPr | AfterClaimBeforeBranch | BranchNoSession | PostPrNoLabel =>
      if Live(all) != [] then Some(MostRecent(Live(all)).id) else if all != [] then Some(MostRecent(all).id) else None
    case PostReviewNoFindings | TerminalPreCommit | TerminalPrePush =>
      var pool := if row.PostReviewNoFindings? then ReviewSessions(policy, x) else CodingSessions(policy, x);
      if pool != [] then Some(MostRecent(pool).id) else if Ended(run) != [] then Some(Ended(run)[0].id) else None
    case RowDuplicates => if Ended(run) != [] then Some(Ended(run)[0].id) else None
    case _ => None
  }

  function RowActions(policy: Policy, x: Inputs, row: Option<Row>): seq<Action> {
    if row.None? then []
    else [Action(row.value.Kind(), Some(x.item), x.RunId(), SessionFor(policy, x, row.value),
                 if x.claim.Some? then x.claim.value.branch else None, None,
                 if x.claim.Some? then x.claim.value.prNumber else None)]
  }

  function CrashPoint(policy: Policy, x: Inputs): seq<Action> {
    RowActions(policy, x, FirstRow(ContextOf(policy, x)))
  }

  // ----- Orphans and protection --------------------------------------------

  /** A branch some item's unexpired claim names. */
  predicate BranchHeld(xs: seq<Inputs>, branch: string) {
    exists x | x in xs :: x.claim.Some? && x.claim.value.branch == Some(branch) && !x.claim.value.StaleAt(x.now)
  }

  /** A session of the claimed run among the observed sessions of an item with an unexpired claim. */
  predicate HeldBy(x: Inputs, id: string) {
    x.claim.Some? && !x.claim.value.StaleAt(x.now)
    && exists s | s in x.sessions :: s.id == id && s.item == Some(x.item) && (s.run.Some? ==> s.run.value == x.claim.value.run)
  }

  predicate SessionHeld(xs: seq<Inputs>, id: string) {
    exists x | x in xs :: HeldBy(x, id)
  }

  predicate OrphanSession(policy: Policy, x: Inputs, s: Session, live: set<string>) {
    s.item.Some? && s.id !in live && x.now - s.lastActivity >= policy.sessionTtl
  }

  predicate OrphanWorktree(policy: Policy, x: Inputs, w: Worktree, live: set<string>) {
    !w.isDefault && w.branch !in live && x.now - w.lastCommit >= policy.worktreeTtl
  }

  function SessionCleanups(policy: Policy, x: Inputs, s: seq<Session>, live: set<string>): seq<Action> {
    if s == [] then []
    else (if OrphanSession(policy, x, s[0], live) then [Action(CleanOrphanSession, s[0].item, None, Some(s[0].id), None, None, None)] else [])
         + SessionCleanups(policy, x, s[1..], live)
  }

  function WorktreeCleanups(policy: Policy, x: Inputs, w: seq<Worktree>, live: set<string>): seq<Action> {
    if w == [] then []
    else (if OrphanWorktree(policy, x, w[0], live) then [Action(CleanOrphanWorktree, None, None, None, Some(w[0].branch), Some(w[0].path), None)] else [])
         + WorktreeCleanups(policy, x, w[1..], live)
  }

  function Cleanups(policy: Policy, x: Inputs, branches: set<string>, sessions: set<string>): seq<Action> {
    SessionCleanups(policy, x, x.sessions, sessions) + WorktreeCleanups(policy, x, x.worktrees, branches)
  }

  // ----- The plan ----------------------------------------------------------

  function PlanOne(policy: Policy, x: Inputs, branches: set<string>, sessions: set<string>): seq<Action> {
    if x.IsTerminal() then [Action(Noop, Some(x.item), x.RunId(), None, None, None, None)]
    else if PreCheck(x) != [] then PreCheck(x)
    else CrashPoint(policy, x) + Cleanups(policy, x, branches, sessions)
  }

  function PlanEach(plan: Inputs -> seq<Action>, xs: seq<Inputs>): seq<Action> {
    if xs == [] then [] else plan(xs[0]) + PlanEach(plan, xs[1..])
  }

  function PlanAll(policy: Policy, xs: seq<Inputs>, branches: set<string>, sessions: set<string>): seq<Action> {
    PlanEach((x: Inputs) => PlanOne(policy, x, branches, sessions), xs)
  }

  function RunKey(a: Action): string {
    a.run.GetOr("")
  }

  /** Drops every relaunch whose run was relaunched before. */
  function Finalized(actions: seq<Action>, seen: set<string>): seq<Action>
    decreases |actions|
  {
    if actions == [] then []
    else
      var a := actions[0];
      if !a.kind.Relaunch? then [a] + Finalized(actions[1..], seen)
      else if RunKey(a) in seen then Finalized(actions[1..], seen)
      else [a] + Finalized(actions[1..], seen + {RunKey(a)})
  }

  function HeldBranches(xs: seq<Inputs>): set<string> {
    set x | x in xs && x.claim.Some? && x.claim.value.branch.Some? && !x.claim.value.StaleAt(x.now) :: x.claim.value.branch.value
  }

  function SessionsHeldBy(x: Inputs): set<string> {
    set s | s in x.sessions && HeldBy(x, s.id) :: s.id
  }

  function HeldSessions(xs: seq<Inputs>): set<string> {
    set x, s | x in xs && s in SessionsHeldBy(x) :: s
  }

  function Plan(policy: Policy, xs: seq<Inputs>): seq<Action> {
    var all := PlanAll(policy, xs, HeldBranches(xs), HeldSessions(xs));
    Finalized(if all == [] then [Action(Noop, None, None, None, None, None, None)] else all, {})
  }

  method CollectBranches(xs: seq<Inputs>) returns (branches: set<string>)
    ensures branches == HeldBranches(xs)
  {
    branches := {};
    for i := 0 to |xs|
      invariant branches == HeldBranches(xs[..i])
    {
      var claim := xs[i].claim;
      assert forall x :: x in xs[..i + 1] <==> x in xs[..i] || x == xs[i];
      if claim.Some? && claim.value.branch.Some? && !claim.value.StaleAt(xs[i].now) {
        branches := branches + {claim.value.branch.value};
      }
    }
    assert xs[..|xs|] == xs;
  }

  method CollectItemSessions(x: Inputs) returns (ids: set<string>)
    ensures ids == SessionsHeldBy(x)
  {
    ids := {};
    if x.claim.None? || x.claim.value.StaleAt(x.now) {
      return;
    }
    for j := 0 to |x.sessions|
      invariant ids == set s | s in x.sessions[..j] && s.item == Some(x.item) && (s.run.Some? ==> s.run.value == x.claim.value.run) :: s.id
    {
      var s := x.sessions[j];
      assert forall t :: t in x.sessions[..j + 1] <==> t in x.sessions[..j] || t == s;
      if s.item == Some(x.item) && !(s.run.Some? && s.run.value != x.claim.value.run) {
        ids := ids + {s.id};
      }
    }
    assert x.sessions[..|x.sessions|] == x.sessions;
  }

  method CollectSessions(xs: seq<Inputs>) returns (ids: set<string>)
    ensures ids == HeldSessions(xs)
  {
    ids := {};
    for i := 0 to |xs|
      invariant ids == HeldSessions(xs[..i])
    {
      var more := CollectItemSessions(xs[i]);
      assert forall x :: x in xs[..i + 1] <==> x in xs[..i] || x == xs[i];
      ids := ids + more;
    }
    assert xs[..|xs|] == xs;
  }

  method Finalize(actions: seq<Action>) returns (out: seq<Action>)
    ensures out == Finalized(actions, {})
  {
    var seen: set<string> := {};
    out := [];
    for i := 0 to |actions|
      invariant out + Finalized(actions[i..], seen) == Finalized(actions, {})
    {
      var a := actions[i];
      assert actions[i..][0] == a && actions[i..][1..] == actions[i + 1..];
      if a.kind.Relaunch? {
        if RunKey(a) !in seen {
          seen := seen + {RunKey(a)};
          out := out + [a];
        }
      } else {
        out := out + [a];
      }
    }
  }

  lemma {:induction false} PlanEachSnoc(plan: Inputs -> seq<Action>, xs: seq<Inputs>, x: Inputs)
    ensures PlanEach(plan, xs + [x]) == PlanEach(plan, xs) + plan(x)
  {
    if xs == [] {
      assert [] + [x] == [x] && [x][1..] == [];
    } else {
      assert (xs + [x])[1..] == xs[1..] + [x];
      PlanEachSnoc(plan, xs[1..], x);
    }
  }

  method PlanItems(policy: Policy, xs: seq<Inputs>, branches: set<string>, sessions: set<string>) returns (actions: seq<Action>)
    ensures actions == PlanAll(policy, xs, branches, sessions)
  {
    actions := [];
    ghost var before: seq<Inputs> := [];
    for i := 0 to |xs|
      invariant before == xs[..i] && actions == PlanAll(policy, before, branches, sessions)
    {
      PlanEachSnoc((x: Inputs) => PlanOne(policy, x, branches, sessions), before, xs[i]);
      actions := actions + PlanOne(policy, xs[i], branches, sessions);
      before := before + [xs[i]];
    }
    assert xs[..|xs|] == xs;
  }

  method PlanMany(policy: Policy, xs: seq<Inputs>) returns (plan: seq<Action>)
    ensures plan == Plan(policy, xs)
  {
    var branches := CollectBranches(xs);
    var sessions := CollectSessions(xs);
    var actions := PlanItems(policy, xs, branches, sessions);
    if actions == [] {
      actions := [Action(Noop, None, None, None, None, None, None)];
    }
    plan := Finalize(actions);
  }

  // ----- One relaunch per run ----------------------------------------------

  lemma {:induction false} FinalizedRelaunchesNew(actions: seq<Action>, seen: set<string>)
    ensures forall a | a in Finalized(actions, seen) && a.kind.Relaunch? :: RunKey(a) !in seen
    decreases |actions|
  {
    if actions != [] {
      var a := actions[0];
      FinalizedRelaunchesNew(actions[1..], seen);
      FinalizedRelaunchesNew(actions[1..], seen + {RunKey(a)});
    }
  }

  /** No two relaunches of the list are for the same run. */
  ghost predicate DistinctRuns(out: seq<Action>) {
    forall i, j | 0 <= i < j < |out| && out[i].kind.Relaunch? && out[j].kind.Relaunch? :: RunKey(out[i]) != RunKey(out[j])
  }

  lemma DistinctRunsCons(a: Action, rest: seq<Action>)
    requires DistinctRuns(rest)
    requires a.kind.Relaunch? ==> forall b | b in rest && b.kind.Relaunch? :: RunKey(b) != RunKey(a)
    ensures DistinctRuns([a] + rest)
  {
    assert forall k | 0 <= k < |rest| :: ([a] + rest)[k + 1] == rest[k] && rest[k] in rest;
  }

  lemma {:induction false} OneRelaunchPerRun(actions: seq<Action>, seen: set<string>)
    ensures DistinctRuns(Finalized(actions, seen))
    decreases |actions|
  {
    if actions != [] {
      var a := actions[0];
      var next := if a.kind.Relaunch? && RunKey(a) !in seen then seen + {RunKey(a)} else seen;
      OneRelaunchPerRun(actions[1..], next);
      FinalizedRelaunchesNew(actions[1..], next);
      DistinctRunsCons(a, Finalized(actions[1..], next));
    }
  }

  /** Whatever the observations, a plan relaunches a run at most once. */
  lemma PlanRelaunchesOnce(policy: Policy, xs: seq<Inputs>)
    ensures DistinctRuns(Plan(policy, xs))
  {
    var all := PlanAll(policy, xs, HeldBranches(xs), HeldSessions(xs));
    OneRelaunchPerRun(if all == [] then [Action(Noop, None, None, None, None, None, None)] else all, {});
  }

  /** Everything else stays in order, and every run asked to relaunch still relaunches. */
  lemma {:induction false} FinalizedDropsOnlyRepeats(actions: seq<Action>, seen: set<string>)
    ensures Filter(Finalized(actions, seen), (a: Action) => !a.kind.Relaunch?) == Filter(actions, (a: Action) => !a.kind.Relaunch?)
    ensures forall a | a in actions && a.kind.Relaunch? && RunKey(a) !in seen ::
              exists b | b in Finalized(actions, seen) :: b.kind.Relaunch? && RunKey(b) == RunKey(a)
    ensures forall a | a in Finalized(actions, seen) :: a in actions
    decreases |actions|
  {
    if actions != [] {
      var a := actions[0];
      var next := if a.kind.Relaunch? && RunKey(a) !in seen then seen + {RunKey(a)} else seen;
      FinalizedDropsOnlyRepeats(actions[1..], next);
      var rest := Finalized(actions[1..], next);
      assert actions == [a] + actions[1..];
      assert ([a] + rest)[1..] == rest && a in [a] + rest;
      assert forall b | b in rest :: b in [a] + rest;
    }
  }

  // ----- Protection --------------------------------------------------------

  lemma HeldBranchesExact(xs: seq<Inputs>, branch: string)
    ensures branch in HeldBranches(xs) <==> BranchHeld(xs, branch)
  {
  }

  lemma HeldSessionsExact(xs: seq<Inputs>, id: string)
    ensures id in HeldSessions(xs) <==> SessionHeld(xs, id)
  {
    if SessionHeld(xs, id) {
      var x :| x in xs && HeldBy(x, id);
      assert id in SessionsHeldBy(x);
    }
  }

  /** A cleanup the rules allow for some observed session or worktree of the item. */
  ghost predicate Permitted(policy: Policy, x: Inputs, a: Action, branches: set<string>, sessions: set<string>) {
    && (a.kind.CleanOrphanSession? ==> exists s | s in x.sessions :: OrphanSession(policy, x, s, sessions) && a.session == Some(s.id))
    && (a.kind.CleanOrphanWorktree? ==> exists w | w in x.worktrees :: OrphanWorktree(policy, x, w, branches) && a.branch == Some(w.branch))
  }

  lemma {:induction false} SessionCleanupsPermitted(policy: Policy, x: Inputs, s: seq<Session>, live: set<string>)
    ensures forall a | a in SessionCleanups(policy, x, s, live) ::
              a.kind.CleanOrphanSession? && exists t | t in s :: OrphanSession(policy, x, t, live) && a.session == Some(t.id)
  {
    if s != [] {
      SessionCleanupsPermitted(policy, x, s[1..], live);
      assert s == [s[0]] + s[1..];
      assert s[0] in s && forall t | t in s[1..] :: t in s;
    }
  }

  lemma {:induction false} WorktreeCleanupsPermitted(policy: Policy, x: Inputs, w: seq<Worktree>, live: set<string>)
    ensures forall a | a in WorktreeCleanups(policy, x, w, live) ::
              a.kind.CleanOrphanWorktree? && exists t | t in w :: OrphanWorktree(policy, x, t, live) && a.branch == Some(t.branch)
  {
    if w != [] {
      WorktreeCleanupsPermitted(policy, x, w[1..], live);
      assert w == [w[0]] + w[1..];
      assert w[0] in w && forall t | t in w[1..] :: t in w;
    }
  }

  predicate Cleans(a: Action) {
    a.kind.CleanOrphanSession? || a.kind.CleanOrphanWorktree?
  }

  lemma PreChecksCleanNothing(x: Inputs)
    ensures forall a | a in BranchMoved(x) :: !Cleans(a)
    ensures forall a | a in StaleLease(x) :: !Cleans(a)
  {
  }

  lemma DuplicatesCleanNothing(x: Inputs)
    ensures forall a | a in DuplicateSessions(x) :: !Cleans(a)
  {
  }

  lemma RowsCleanNothing(policy: Policy, x: Inputs, row: Option<Row>)
    ensures forall a | a in RowActions(policy, x, row) :: !Cleans(a)
  {
  }

  lemma OnlyCleanupsClean(policy: Policy, x: Inputs, a: Action)
    requires a in PreCheck(x) || a in CrashPoint(policy, x)
    ensures !Cleans(a)
  {
    PreChecksCleanNothing(x);
    DuplicatesCleanNothing(x);
    RowsCleanNothing(policy, x, FirstRow(ContextOf(policy, x)));
  }

  lemma CleanupsPermitted(policy: Policy, x: Inputs, branches: set<string>, sessions: set<string>, a: Action)
    requires a in Cleanups(policy, x, branches, sessions)
    ensures Permitted(policy, x, a, branches, sessions)
  {
    SessionCleanupsPermitted(policy, x, x.sessions, sessions);
    WorktreeCleanupsPermitted(policy, x, x.worktrees, branches);
  }

  lemma PlanOnePermitted(policy: Policy, x: Inputs, branches: set<string>, sessions: set<string>, a: Action)
    requires a in PlanOne(policy, x, branches, sessions)
    ensures Permitted(policy, x, a, branches, sessions)
  {
    if x.IsTerminal() {
      assert a.kind.Noop?;
    } else if a in PreCheck(x) || a in CrashPoint(policy, x) {
      OnlyCleanupsClean(policy, x, a);
    } else {
      CleanupsPermitted(policy, x, branches, sessions, a);
    }
  }

  lemma {:induction false} PlannedFor(plan: Inputs -> seq<Action>, xs: seq<Inputs>, a: Action)
    requires a in PlanEach(plan, xs)
    ensures exists x | x in xs :: a in plan(x)
  {
    if a in plan(xs[0]) {
      assert xs[0] in xs;
    } else {
      PlannedFor(plan, xs[1..], a);
    }
  }

  /** No plan cleans a branch or a session that any item's unexpired claim protects. */
  lemma NothingHeldIsCleaned(policy: Policy, xs: seq<Inputs>, a: Action)
    requires a in Plan(policy, xs)
    ensures a.kind.CleanOrphanWorktree? ==> a.branch.Some? && !BranchHeld(xs, a.branch.value)
    ensures a.kind.CleanOrphanSession? ==> a.session.Some? && !SessionHeld(xs, a.session.value)
  {
    var branches, sessions := HeldBranches(xs), HeldSessions(xs);
    var all := PlanAll(policy, xs, branches, sessions);
    FinalizedDropsOnlyRepeats(if all == [] then [Action(Noop, None, None, None, None, None, None)] else all, {});
    if all != [] {
      PlannedFor((x: Inputs) => PlanOne(policy, x, branches, sessions), xs, a);
      var x :| x in xs && a in PlanOne(policy, x, branches, sessions);
      PlanOnePermitted(policy, x, branches, sessions, a);
      if a.kind.CleanOrphanWorktree? {
        HeldBranchesExact(xs, a.branch.value);
      }
      if a.kind.CleanOrphanSession? {
        HeldSessionsExact(xs, a.session.value);
      }
    }
  }
}
