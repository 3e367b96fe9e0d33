/**
  The versioned claim and lease machine over one work item: claim, reject, heartbeat,
  transition, abandon and reclaim, each a compare-and-swap on the stored `updatedAt`.
  Callers hold arbitrary old handles. The clock is strictly increasing, so the instant of
  a write is a fresh version.
*/
module Leases {
  import opened Wrappers
  import opened Domain
  import opened Compaction

  datatype LeaseError =
    | NotEnabled | NoActiveClaim | ClaimConflict | StateConflict | InvalidState | TooLarge | MalformedClaim

  /** The claim attribution kept in the open-ended part of the state. */
  datatype Claim = Claim(
    host: string, claimedAt: int, expires: int, heartbeatAt: Option<int>,
    branch: Option<Value>, worktree: Option<Value>, prNumber: Option<Value>)
  {
    predicate StaleAt(now: int) {
      now > expires
    }

    /** Writes the claim over `e`; absent optional parts leave what `e` has. */
    function Over(e: Extras): Extras {
      Extras(Some(Text(host)), Some(Instant(claimedAt)), Some(Instant(expires)),
             if heartbeatAt.Some? then Some(Instant(heartbeatAt.value)) else e.heartbeatAt,
             if branch.Some? then branch else e.branch,
             if worktree.Some? then worktree else e.worktree,
             if prNumber.Some? then prNumber else e.prNumber, e.others)
    }
  }

  /** Without any claim attribution. */
  function Unclaimed(e: Extras): Extras {
    Extras(None, None, None, None, None, None, None, e.others)
  }

  /** Without the lease, keeping branch, worktree and pull request. */
  function Unleased(e: Extras): Extras {
    e.(host := None, claimedAt := None, expires := None, heartbeatAt := None)
  }

  function ReadClaim(e: Extras): Result<Claim, LeaseError> {
    if e.host.None? || e.claimedAt.None? || e.expires.None? then Err(NoActiveClaim)
    else if !e.host.value.Text? || !e.claimedAt.value.Instant? || !e.expires.value.Instant? then Err(MalformedClaim)
    else if e.heartbeatAt.Some? && !e.heartbeatAt.value.Instant? then Err(MalformedClaim)
    else Ok(Claim(e.host.value.text, e.claimedAt.value.at, e.expires.value.at,
                  if e.heartbeatAt.Some? then Some(e.heartbeatAt.value.at) else None,
                  e.branch, e.worktree, e.prNumber))
  }

  const NO_EXTRAS := Extras(None, None, None, None, None, None, None, map[])

  /** Somebody holds an unexpired lease. */
  predicate Leased(s: WorkflowState, now: int) {
    ReadClaim(s.extras).Ok? && !ReadClaim(s.extras).value.StaleAt(now)
  }

  predicate LanesStopped(e: Extras) {
    "lanes_stopped" in e.others && e.others["lanes_stopped"] == Flag(true)
  }

  /** Configuration: how long a lease runs and how large a stored block may be. */
  datatype Settings = Settings(size: Size, max: nat, lease: int)

  /** Who claims, and the optional attribution the claim starts with. */
  datatype Claimant = Claimant(host: string, run: string, branch: Option<Value>, worktree: Option<Value>, prNumber: Option<Value>) {
    function ClaimAt(now: int, lease: int): Claim {
      Claim(host, now, now + lease, None, branch, worktree, prNumber)
    }
  }

  datatype Op =
    | ClaimItem(who: Claimant, enabled: bool)
    | Reject(run: string, why: string)
    | Heartbeat(handle: WorkflowState, host: string)
    | Transition(handle: WorkflowState, phase: Phase, round: Option<RoundId>, reason: Option<string>)
    | Abandon(handle: WorkflowState, host: string)
    | Reclaim(handle: WorkflowState, who: Claimant)
  {
    predicate UsesHandle() {
      Heartbeat? || Transition? || Abandon? || Reclaim?
    }
  }

  /** What an operation wants: a write against an expected version, or nothing. */
  datatype Proposal = Write(state: WorkflowState, expected: Option<int>) | Nothing(state: WorkflowState)

  function Moved(s: WorkflowState, phase: Phase, round: Option<RoundId>, reason: Option<string>, now: int): WorkflowState {
    s.(phase := phase, round := if round.Some? then round else s.round, updatedAt := now, reason := reason)
  }

  function ProposeTransition(s: WorkflowState, phase: Phase, round: Option<RoundId>, reason: Option<string>, now: int)
    : Result<Proposal, LeaseError>
  {
    if s.phase.Terminal() then Err(NoActiveClaim)
    else
      var next := Moved(s, phase, round, reason, now);
      if !next.WellFormed() then Err(InvalidState) else Ok(Write(next, Some(s.updatedAt)))
  }

  function ProposeClaim(cfg: Settings, stored: Option<WorkflowState>, who: Claimant, enabled: bool, now: int): Result<Proposal, LeaseError> {
    var created := WorkflowState(who.run, Claiming, None, now, None, [], [], [], who.ClaimAt(now, cfg.lease).Over(NO_EXTRAS));
    if !enabled then Err(ClaimConflict)
    else if stored.None? then Ok(Write(created, None))
    else
      var s := stored.value;
      if !s.phase.Queued? then Err(ClaimConflict)
      else Ok(Write(created.(round := s.round, findings := s.findings, dispositions := s.dispositions, archived := s.archived,
                           extras := who.ClaimAt(now, cfg.lease).Over(Unclaimed(s.extras))), Some(s.updatedAt)))
  }

  function ProposeHeartbeat(cfg: Settings, s: WorkflowState, host: string, now: int): Result<Proposal, LeaseError> {
    var claim :- ReadClaim(s.extras);
    if claim.host != host || claim.StaleAt(now) then Err(ClaimConflict)
    else
      var renewed := claim.(expires := now + cfg.lease, heartbeatAt := Some(now));
      Ok(Write(s.(updatedAt := now, extras := renewed.Over(s.extras)), Some(s.updatedAt)))
  }

  function ProposeAbandon(stored: Option<WorkflowState>, s: WorkflowState, host: string, now: int): Result<Proposal, LeaseError> {
    if stored != Some(s) then Err(StateConflict)
    else if s.phase.Queued? && s.extras.host.None? then Ok(Nothing(s))
    else
      var claim :- ReadClaim(s.extras);
      if claim.host != host || !LanesStopped(s.extras) then Err(ClaimConflict)
      else ProposeTransition(s.(extras := Unleased(s.extras)), Queued, None, None, now)
  }

  function ProposeReclaim(cfg: Settings, s: WorkflowState, who: Claimant, now: int): Result<Proposal, LeaseError> {
    if s.phase.Terminal() then Err(NoActiveClaim)
    else
      var claim := ReadClaim(s.extras);
      if claim == Err(MalformedClaim) then Err(MalformedClaim)
      else if claim.Ok? && !claim.value.StaleAt(now) then Err(ClaimConflict)
      else Ok(Write(s.(runId := who.run, updatedAt := now, reason := None,
                       extras := who.ClaimAt(now, cfg.lease).Over(Unclaimed(s.extras))), Some(s.updatedAt)))
  }

  function Propose(cfg: Settings, stored: Option<WorkflowState>, op: Op, now: int): Result<Proposal, LeaseError> {
    match op
    case ClaimItem(who, enabled) => ProposeClaim(cfg, stored, who, enabled, now)
    case Reject(run, why) =>
      var s := WorkflowState(run, Escalated, None, now, Some(why), [], [], [], NO_EXTRAS);
      if !s.WellFormed() then Err(InvalidState) else Ok(Write(s, None))
    case Heartbeat(s, host) => ProposeHeartbeat(cfg, s, host, now)
    case Transition(s, phase, round, reason) => ProposeTransition(s, phase, round, reason, now)
    case Abandon(s, host) => ProposeAbandon(stored, s, host, now)
    case Reclaim(s, who) => ProposeReclaim(cfg, s, who, now)
  }

  /** The optimistic save: the stored block, or the refusal. */
  function Saved(cfg: Settings, stored: Option<WorkflowState>, s: WorkflowState, expected: Option<int>): Result<WorkflowState, LeaseError> {
    var block := Compacted(cfg.size, cfg.max, s);
    if block.None? then Err(TooLarge)
    else if expected.None? then if stored.Some? then Err(ClaimConflict) else Ok(block.value)
    else if stored.None? || stored.value.updatedAt != expected.value then Err(StateConflict)
    else Ok(block.value)
  }

  /** Carrying out a proposal: what is stored then, and the handle the caller gets. */
  function Settled(cfg: Settings, stored: Option<WorkflowState>, p: Proposal): Result<(Option<WorkflowState>, WorkflowState), LeaseError> {
    match p
    case Nothing(s) => Ok((stored, s))
    case Write(s, expected) =>
      var block :- Saved(cfg, stored, s, expected);
      Ok((Some(block), s))
  }

  function Committed(cfg: Settings, stored: Option<WorkflowState>, op: Op, now: int): Result<(Option<WorkflowState>, WorkflowState), LeaseError> {
    var p :- Propose(cfg, stored, op, now);
    Settled(cfg, stored, p)
  }

  // ----- Runs over arbitrary handles ---------------------------------------

  /** The stored state, every state a caller may still hold, and the time of the last event. */
  datatype World = World(stored: Option<WorkflowState>, handles: set<WorkflowState>, clock: int)

  /** An operation some time after the previous event. */
  datatype Event = Event(op: Op, delay: nat)

  /** The world after an operation at `now`; a failed one changes only the clock. */
  function After(w: World, r: Result<(Option<WorkflowState>, WorkflowState), LeaseError>, now: int): World {
    if r.Err? then w.(clock := now)
    else World(r.value.0, w.handles + {r.value.1} + (if r.value.0.Some? then {r.value.0.value} else {}), now)
  }

  /** Handles must have been stored or returned before; a made-up one is no event at all. */
  function Step(cfg: Settings, w: World, e: Event): World {
    var now := w.clock + 1 + e.delay;
    if e.op.UsesHandle() && e.op.handle !in w.handles then w.(clock := now)
    else After(w, Committed(cfg, w.stored, e.op, now), now)
  }

  function Run(cfg: Settings, w: World, events: seq<Event>): World
    decreases |events|
  {
    if events == [] then w else Run(cfg, Step(cfg, w, events[0]), events[1..])
  }

  /** A handle is the stored state up to compaction, or it is older. */
  ghost predicate Current(h: WorkflowState, stored: WorkflowState) {
    h.updatedAt == stored.updatedAt ==> SameButFindings(h, stored)
  }

  ghost predicate Inv(w: World) {
    && (w.stored.None? ==> w.handles == {})
    && (w.stored.Some? ==> w.stored.value.updatedAt <= w.clock)
    && (w.stored.Some? ==> forall h | h in w.handles :: h.updatedAt <= w.stored.value.updatedAt && Current(h, w.stored.value))
  }

  lemma SavedIsCompaction(cfg: Settings, stored: Option<WorkflowState>, s: WorkflowState, expected: Option<int>)
    requires Saved(cfg, stored, s, expected).Ok?
    ensures SameButFindings(s, Saved(cfg, stored, s, expected).value)
  {
    CompactionIsMinimal(cfg.size, cfg.max, s);
  }

  /** Every proposed write carries the instant of the operation as its version. */
  lemma ProposedVersion(cfg: Settings, stored: Option<WorkflowState>, op: Op, now: int)
    requires Propose(cfg, stored, op, now).Ok? && Propose(cfg, stored, op, now).value.Write?
    ensures Propose(cfg, stored, op, now).value.state.updatedAt == now
  {
  }

  lemma NothingOnlyForStored(cfg: Settings, stored: Option<WorkflowState>, op: Op, now: int)
    requires Propose(cfg, stored, op, now).Ok? && Propose(cfg, stored, op, now).value.Nothing?
    ensures op.Abandon? && stored == Some(op.handle) == Some(Propose(cfg, stored, op, now).value.state)
  {
  }

  /** The event replaced the stored state. */
  predicate Writes(cfg: Settings, w: World, e: Event) {
    Step(cfg, w, e).stored != w.stored
  }

  /** What became of a proposal: it is stored under the current instant, or nothing changed. */
  ghost predicate Shaped(w: World, v: World, p: Option<Proposal>, now: int) {
    && v.clock == now
    && if v.stored == w.stored then v.handles == w.handles
       else p.Some? && p.value.Write? && p.value.state.updatedAt == now && v.stored.Some?
            && SameButFindings(p.value.state, v.stored.value)
            && v.handles == w.handles + {p.value.state, v.stored.value}
  }

  lemma SettledShape(cfg: Settings, w: World, p: Proposal, now: int)
    requires w.stored.Some? ==> w.stored.value.updatedAt < now
    requires p.Write? ==> p.state.updatedAt == now
    requires p.Nothing? ==> w.stored == Some(p.state) && p.state in w.handles
    ensures Shaped(w, After(w, Settled(cfg, w.stored, p), now), Some(p), now)
  {
    match p
    case Nothing(s) =>
      assert w.handles + {s} == w.handles;
    case Write(s, expected) =>
      if Saved(cfg, w.stored, s, expected).Ok? {
        SavedIsCompaction(cfg, w.stored, s, expected);
      }
  }

  lemma StepIsSettled(cfg: Settings, w: World, e: Event, p: Result<Proposal, LeaseError>)
    requires p == Propose(cfg, w.stored, e.op, w.clock + 1 + e.delay)
    ensures var now := w.clock + 1 + e.delay;
            Step(cfg, w, e) == if p.Err? || (e.op.UsesHandle() && e.op.handle !in w.handles) then w.(clock := now)
                               else After(w, Settled(cfg, w.stored, p.value), now)
  {
  }

  /** What is known of every proposal before it is carried out. */
  predicate Plausible(stored: Option<WorkflowState>, op: Op, p: Proposal, now: int) {
    && (p.Write? ==> p.state.updatedAt == now)
    && (p.Nothing? ==> op.Abandon? && stored == Some(op.handle) == Some(p.state))
  }

  lemma ProposedIsPlausible(cfg: Settings, stored: Option<WorkflowState>, op: Op, now: int)
    requires Propose(cfg, stored, op, now).Ok?
    ensures Plausible(stored, op, Propose(cfg, stored, op, now).value, now)
  {
    if Propose(cfg, stored, op, now).value.Write? {
      ProposedVersion(cfg, stored, op, now);
    } else {
      NothingOnlyForStored(cfg, stored, op, now);
    }
  }

  lemma CarriedOutShape(cfg: Settings, w: World, op: Op, p: Proposal, now: int)
    requires Inv(w) && w.clock < now && Plausible(w.stored, op, p, now)
    requires op.UsesHandle() ==> op.handle in w.handles
    ensures Shaped(w, After(w, Settled(cfg, w.stored, p), now), Some(p), now)
  {
    SettledShape(cfg, w, p, now);
  }

  lemma StepShape(cfg: Settings, w: World, e: Event, p: Result<Proposal, LeaseError>)
    requires Inv(w) && p == Propose(cfg, w.stored, e.op, w.clock + 1 + e.delay)
    ensures Shaped(w, Step(cfg, w, e), if p.Ok? then Some(p.value) else None, w.clock + 1 + e.delay)
  {
    var now := w.clock + 1 + e.delay;
    StepIsSettled(cfg, w, e, p);
    if p.Ok? && (e.op.UsesHandle() ==> e.op.handle in w.handles) {
      ProposedIsPlausible(cfg, w.stored, e.op, now);
      CarriedOutShape(cfg, w, e.op, p.value, now);
    }
  }

  /** What a write stores: the proposed state, compacted, under the current instant. */
  lemma WriteShape(cfg: Settings, w: World, e: Event) returns (s: WorkflowState)
    requires Inv(w) && Writes(cfg, w, e)
    ensures var now := w.clock + 1 + e.delay; var v := Step(cfg, w, e);
            && Propose(cfg, w.stored, e.op, now).Ok? && Propose(cfg, w.stored, e.op, now).value.Write?
            && s == Propose(cfg, w.stored, e.op, now).value.state
            && s.updatedAt == now && v.clock == now && v.stored.Some?
            && SameButFindings(s, v.stored.value) && v.handles == w.handles + {s, v.stored.value}
  {
    var p := Propose(cfg, w.stored, e.op, w.clock + 1 + e.delay);
    StepShape(cfg, w, e, p);
    s := p.value.state;
  }

  lemma WriteKeeps(w: World, v: World, s: WorkflowState)
    requires Inv(w) && v.clock > w.clock && s.updatedAt == v.clock
    requires v.stored.Some? && SameButFindings(s, v.stored.value) && v.handles == w.handles + {s, v.stored.value}
    ensures Inv(v)
  {
  }

  lemma StepKeeps(cfg: Settings, w: World, e: Event)
    requires Inv(w)
    ensures Inv(Step(cfg, w, e))
  {
    if Writes(cfg, w, e) {
      var s := WriteShape(cfg, w, e);
      WriteKeeps(w, Step(cfg, w, e), s);
    } else {
      StepShape(cfg, w, e, Propose(cfg, w.stored, e.op, w.clock + 1 + e.delay));
    }
  }

  lemma {:induction false} RunKeeps(cfg: Settings, w: World, events: seq<Event>)
    requires Inv(w)
    ensures Inv(Run(cfg, w, events))
    decreases |events|
  {
    if events != [] {
      StepKeeps(cfg, w, events[0]);
      RunKeeps(cfg, Step(cfg, w, events[0]), events[1..]);
    }
  }

  // ----- Stale handles -----------------------------------------------------

  /** An operation from a handle older than the stored version is refused. */
  lemma StaleHandleFails(cfg: Settings, stored: WorkflowState, op: Op, now: int)
    requires op.UsesHandle() && op.handle.updatedAt != stored.updatedAt
    ensures Committed(cfg, Some(stored), op, now).Err?
  {
  }

  /** The stored version never goes back. */
  lemma StepAdvances(cfg: Settings, w: World, e: Event)
    requires Inv(w) && w.stored.Some?
    ensures var v := Step(cfg, w, e); v.stored.Some? && w.stored.value.updatedAt <= v.stored.value.updatedAt
  {
    if Writes(cfg, w, e) {
      var s := WriteShape(cfg, w, e);
    }
  }

  lemma {:induction false} RunAdvances(cfg: Settings, w: World, events: seq<Event>)
    requires Inv(w) && w.stored.Some?
    ensures var v := Run(cfg, w, events); v.stored.Some? && w.stored.value.updatedAt <= v.stored.value.updatedAt
    decreases |events|
  {
    if events != [] {
      StepKeeps(cfg, w, events[0]);
      StepAdvances(cfg, w, events[0]);
      RunAdvances(cfg, Step(cfg, w, events[0]), events[1..]);
    }
  }

  /**
    Once anybody wrote after a handle was obtained, nothing attempted from that handle ever
    succeeds again, whatever happens in between. A reclaimed owner is locked out this way.
  */
  lemma SupersededForever(cfg: Settings, w: World, e: Event, later: seq<Event>, op: Op, now: int)
    requires Inv(w) && Writes(cfg, w, e)
    requires op.UsesHandle() && op.handle in w.handles
    ensures Committed(cfg, Run(cfg, Step(cfg, w, e), later).stored, op, now).Err?
  {
    var v := Step(cfg, w, e);
    StepKeeps(cfg, w, e);
    var s := WriteShape(cfg, w, e);
    RunAdvances(cfg, v, later);
    StaleHandleFails(cfg, Run(cfg, v, later).stored.value, op, now);
  }

  // ----- Terminal phases ---------------------------------------------------

  /** A successful write replaces the version its handle or claim was read from. */
  lemma WriteFollowsStored(cfg: Settings, w: World, e: Event)
    requires Inv(w) && Writes(cfg, w, e) && e.op.UsesHandle()
    ensures w.stored.Some? && SameButFindings(e.op.handle, w.stored.value)
  {
    if w.stored.Some? && e.op.handle.updatedAt != w.stored.value.updatedAt {
      StaleHandleFails(cfg, w.stored.value, e.op, w.clock + 1 + e.delay);
    }
  }

  lemma CreateNeedsEmptyStore(cfg: Settings, w: World, e: Event)
    requires Writes(cfg, w, e) && e.op.Reject?
    ensures w.stored.None?
  {
  }

  lemma ClaimNeedsQueued(cfg: Settings, w: World, e: Event)
    requires Writes(cfg, w, e) && e.op.ClaimItem?
    ensures w.stored.Some? ==> w.stored.value.phase.Queued?
  {
  }

  /** From a terminal handle only a heartbeat can write, and it keeps the phase. */
  lemma ProposalKeepsTerminal(cfg: Settings, stored: Option<WorkflowState>, op: Op, now: int)
    requires Propose(cfg, stored, op, now).Ok? && Propose(cfg, stored, op, now).value.Write?
    requires op.UsesHandle() && op.handle.phase.Terminal()
    ensures var s := Propose(cfg, stored, op, now).value.state; s.phase == op.handle.phase && s.reason == op.handle.reason
  {
  }

  lemma TerminalStep(cfg: Settings, w: World, e: Event)
    requires Inv(w) && w.stored.Some? && w.stored.value.phase.Terminal()
    ensures var v := Step(cfg, w, e);
            v.stored.Some? && v.stored.value.phase == w.stored.value.phase && v.stored.value.reason == w.stored.value.reason
  {
    if Writes(cfg, w, e) {
      var s := WriteShape(cfg, w, e);
      if e.op.UsesHandle() {
        WriteFollowsStored(cfg, w, e);
        ProposalKeepsTerminal(cfg, w.stored, e.op, w.clock + 1 + e.delay);
      } else if e.op.ClaimItem? {
        ClaimNeedsQueued(cfg, w, e);
      } else {
        CreateNeedsEmptyStore(cfg, w, e);
      }
    }
  }

  /** A terminal phase is absorbing: no sequence of operations changes it or its reason. */
  lemma {:induction false} TerminalForever(cfg: Settings, w: World, events: seq<Event>)
    requires Inv(w) && w.stored.Some? && w.stored.value.phase.Terminal()
    ensures var v := Run(cfg, w, events);
            v.stored.Some? && v.stored.value.phase == w.stored.value.phase && v.stored.value.reason == w.stored.value.reason
    decreases |events|
  {
    if events != [] {
      StepKeeps(cfg, w, events[0]);
      TerminalStep(cfg, w, events[0]);
      TerminalForever(cfg, Step(cfg, w, events[0]), events[1..]);
    }
  }

  // ----- Leases ------------------------------------------------------------

  /** Reading back a claim written over cleared attribution gives that claim. */
  lemma ClaimRoundTrip(e: Extras, c: Claim)
    ensures ReadClaim(c.Over(Unclaimed(e))) == Ok(c) && c.Over(Unclaimed(e)).others == e.others
  {
  }

  /** A heartbeat renews the two instants of the lease and keeps everything else. */
  lemma HeartbeatTouchesLease(cfg: Settings, s: WorkflowState, host: string, now: int)
    requires ProposeHeartbeat(cfg, s, host, now).Ok?
    ensures ProposeHeartbeat(cfg, s, host, now).value.state ==
            s.(updatedAt := now,
            extras := s.extras.(expires := Some(Instant(now + cfg.lease)), heartbeatAt := Some(Instant(now))))
    ensures Leased(s, now)
  {
  }

  /** No proposal but a claim or a reclaim holds a lease its handle does not hold. */
  lemma ProposalKeepsLease(cfg: Settings, stored: Option<WorkflowState>, op: Op, now: int)
    requires Propose(cfg, stored, op, now).Ok? && Propose(cfg, stored, op, now).value.Write?
    requires !op.Reclaim? && !op.ClaimItem?
    ensures Leased(Propose(cfg, stored, op, now).value.state, now) ==> op.UsesHandle() && Leased(op.handle, now)
  {
    if op.Heartbeat? {
      HeartbeatTouchesLease(cfg, op.handle, op.host, now);
    }
  }

  lemma LeaseThroughCompaction(s: WorkflowState, r: WorkflowState, now: int)
    requires SameButFindings(s, r)
    ensures Leased(s, now) == Leased(r, now)
  {
  }

  /** A lease that has run out is revived only by a reclaim or by claiming a queued item. */
  lemma RevivedOnlyByClaim(cfg: Settings, w: World, e: Event)
    requires Inv(w)
    ensures var v := Step(cfg, w, e);
            v.stored.Some? && Leased(v.stored.value, v.clock) && !(w.stored.Some? && Leased(w.stored.value, v.clock)) ==>
              e.op.Reclaim? || (e.op.ClaimItem? && (w.stored.Some? ==> w.stored.value.phase.Queued?))
  {
    if Writes(cfg, w, e) {
      if e.op.ClaimItem? {
        ClaimNeedsQueued(cfg, w, e);
      } else if !e.op.Reclaim? {
        var s := WriteShape(cfg, w, e);
        var v := Step(cfg, w, e);
        ProposalKeepsLease(cfg, w.stored, e.op, v.clock);
        LeaseThroughCompaction(s, v.stored.value, v.clock);
        if e.op.UsesHandle() {
          WriteFollowsStored(cfg, w, e);
          LeaseThroughCompaction(e.op.handle, w.stored.value, v.clock);
        }
      }
    }
  }

  lemma {:induction false} ExpiredStaysExpired(cfg: Settings, w: World, events: seq<Event>)
    requires Inv(w) && !(w.stored.Some? && Leased(w.stored.value, w.clock))
    requires forall e | e in events :: !e.op.Reclaim? && !e.op.ClaimItem?
    ensures var v := Run(cfg, w, events); !(v.stored.Some? && Leased(v.stored.value, v.clock))
    decreases |events|
  {
    if events != [] {
      assert events[0] in events && forall e | e in events[1..] :: e in events;
      StepKeeps(cfg, w, events[0]);
      RevivedOnlyByClaim(cfg, w, events[0]);
      ExpiredStaysExpired(cfg, Step(cfg, w, events[0]), events[1..]);
    }
  }

  // ----- Exclusive ownership -----------------------------------------------

  /** The same host and run hold the claim made at the same time. */
  predicate SameHolder(s: WorkflowState, t: WorkflowState) {
    && ReadClaim(s.extras).Ok? && ReadClaim(t.extras).Ok? && s.runId == t.runId
    && ReadClaim(s.extras).value.host == ReadClaim(t.extras).value.host
    && ReadClaim(s.extras).value.claimedAt == ReadClaim(t.extras).value.claimedAt
  }

  /** The holder gives the item up, or it is queued and claimed anew. */
  predicate GivesUp(s: WorkflowState, op: Op)
    requires ReadClaim(s.extras).Ok?
  {
    (op.Abandon? && op.host == ReadClaim(s.extras).value.host) || (op.ClaimItem? && s.phase.Queued?)
  }

  lemma ProposalKeepsHolder(cfg: Settings, stored: Option<WorkflowState>, op: Op, now: int)
    requires Propose(cfg, stored, op, now).Ok? && Propose(cfg, stored, op, now).value.Write?
    requires op.UsesHandle() && Leased(op.handle, now)
    ensures SameHolder(op.handle, Propose(cfg, stored, op, now).value.state) || GivesUp(op.handle, op)
    ensures !op.Reclaim?
  {
  }

  lemma HolderThroughCompaction(s: WorkflowState, t: WorkflowState, op: Op, now: int)
    requires SameButFindings(s, t)
    ensures Leased(s, now) == Leased(t, now)
    ensures ReadClaim(s.extras).Ok? ==> SameHolder(s, t) && GivesUp(s, op) == GivesUp(t, op)
  {
  }

  /** A lease that is live when an operation runs stays with its holder unless the holder gives it up. */
  lemma LiveLeaseIsExclusive(cfg: Settings, w: World, e: Event)
    requires Inv(w) && w.stored.Some? && Leased(w.stored.value, w.clock + 1 + e.delay)
    ensures var v := Step(cfg, w, e);
            v.stored.Some? && (SameHolder(w.stored.value, v.stored.value) || GivesUp(w.stored.value, e.op))
  {
    var now := w.clock + 1 + e.delay;
    if Writes(cfg, w, e) {
      var s := WriteShape(cfg, w, e);
      if e.op.UsesHandle() {
        WriteFollowsStored(cfg, w, e);
        HolderThroughCompaction(w.stored.value, e.op.handle, e.op, now);
        ProposalKeepsHolder(cfg, w.stored, e.op, now);
        HolderThroughCompaction(s, Step(cfg, w, e).stored.value, e.op, now);
      } else if e.op.Reject? {
        CreateNeedsEmptyStore(cfg, w, e);
      } else {
        ClaimNeedsQueued(cfg, w, e);
      }
    } else {
      StepShape(cfg, w, e, Propose(cfg, w.stored, e.op, now));
    }
  }

  /** At some event the stored lease had run out or was given up. */
  predicate EverFree(cfg: Settings, w: World, events: seq<Event>)
    decreases |events|
  {
    events != [] &&
    (w.stored.None? || !Leased(w.stored.value, w.clock + 1 + events[0].delay) || GivesUp(w.stored.value, events[0].op)
     || EverFree(cfg, Step(cfg, w, events[0]), events[1..]))
  }

  /** Ownership passes on only through a moment at which the lease had run out or was given up. */
  lemma {:induction false} OwnershipPassesOnlyWhenFree(cfg: Settings, w: World, events: seq<Event>)
    requires Inv(w) && w.stored.Some? && ReadClaim(w.stored.value.extras).Ok? && !EverFree(cfg, w, events)
    ensures var v := Run(cfg, w, events); v.stored.Some? && SameHolder(w.stored.value, v.stored.value)
    decreases |events|
  {
    if events != [] {
      StepKeeps(cfg, w, events[0]);
      LiveLeaseIsExclusive(cfg, w, events[0]);
      OwnershipPassesOnlyWhenFree(cfg, Step(cfg, w, events[0]), events[1..]);
    }
  }

  /** The state a reclaim asks for: a new lease, and the history of the old owner. */
  function Reclaimed(cfg: Settings, h: WorkflowState, who: Claimant, now: int): WorkflowState {
    h.(runId := who.run, updatedAt := now, reason := None, extras := who.ClaimAt(now, cfg.lease).Over(Unclaimed(h.extras)))
  }

  predicate Reclaimable(h: WorkflowState, now: int) {
    !h.phase.Terminal() && ReadClaim(h.extras) != Err(MalformedClaim) && !Leased(h, now)
  }

  lemma ReclaimProposed(cfg: Settings, h: WorkflowState, who: Claimant, now: int)
    ensures ProposeReclaim(cfg, h, who, now).Ok? <==> Reclaimable(h, now)
    ensures Reclaimable(h, now) ==> ProposeReclaim(cfg, h, who, now).value == Write(Reclaimed(cfg, h, who, now), Some(h.updatedAt))
  {
  }

  lemma ReclaimedLease(cfg: Settings, h: WorkflowState, who: Claimant, now: int, block: WorkflowState)
    requires SameButFindings(Reclaimed(cfg, h, who, now), block)
    ensures ReadClaim(block.extras) == Ok(who.ClaimAt(now, cfg.lease)) && block.runId == who.run
    ensures forall t :: Leased(block, t) <==> t <= now + cfg.lease
  {
  }

  /**
    Whoever holds the current state of a live item whose lease has run out can take it over,
    and nobody else can; the new lease is theirs and runs for exactly the configured time.
  */
  lemma ReclaimHandsOver(cfg: Settings, stored: WorkflowState, h: WorkflowState, who: Claimant, now: int, p: Result<Proposal, LeaseError>)
    requires p == ProposeReclaim(cfg, h, who, now)
    ensures var r := Committed(cfg, Some(stored), Reclaim(h, who), now);
            && (r.Ok? <==> Reclaimable(h, now) && h.updatedAt == stored.updatedAt
                           && Compacted(cfg.size, cfg.max, Reclaimed(cfg, h, who, now)).Some?)
            && (r.Ok? ==> r.value.0.Some? && r.value.1 == Reclaimed(cfg, h, who, now)
                          && ReadClaim(r.value.0.value.extras) == Ok(who.ClaimAt(now, cfg.lease))
                          && forall t :: Leased(r.value.0.value, t) <==> t <= now + cfg.lease)
  {
    ReclaimProposed(cfg, h, who, now);
    var next := Reclaimed(cfg, h, who, now);
    assert Committed(cfg, Some(stored), Reclaim(h, who), now)
        == if p.Err? then Err(p.error) else Settled(cfg, Some(stored), p.value);
    if Reclaimable(h, now) && Saved(cfg, Some(stored), next, Some(h.updatedAt)).Ok? {
      var block := Saved(cfg, Some(stored), next, Some(h.updatedAt)).value;
      SavedIsCompaction(cfg, Some(stored), next, Some(h.updatedAt));
      ReclaimedLease(cfg, h, who, now, block);
    }
  }

  // ----- History -----------------------------------------------------------

  /** A part of the findings that compaction keeps. */
  type View = seq<Finding> -> seq<Finding>

  ghost predicate KeptByCompaction(cfg: Settings, view: View) {
    forall s | Compacted(cfg.size, cfg.max, s).Some? :: view(Compacted(cfg.size, cfg.max, s).value.findings) == view(s.findings)
  }

  /** Handles of the current version show the same view as the stored state. */
  ghost predicate ViewsAgree(view: View, w: World) {
    w.stored.Some? ==>
      forall h | h in w.handles && h.updatedAt == w.stored.value.updatedAt :: view(h.findings) == view(w.stored.value.findings)
  }

  /** What every change of ownership must hand on. */
  ghost predicate SameHistory(view: View, s: WorkflowState, t: WorkflowState) {
    && s.dispositions == t.dispositions && s.archived == t.archived
    && s.extras.others == t.extras.others
    && view(s.findings) == view(t.findings)
  }

  /** A proposal carries over the content of the handle, or of the queued item, it starts from. */
  lemma ProposalCarriesContent(cfg: Settings, stored: Option<WorkflowState>, op: Op, now: int, h: WorkflowState)
    requires Propose(cfg, stored, op, now).Ok? && Propose(cfg, stored, op, now).value.Write?
    requires if op.UsesHandle() then h == op.handle else stored == Some(h) && op.ClaimItem?
    ensures var s := Propose(cfg, stored, op, now).value.state;
            && s.findings == h.findings && s.dispositions == h.dispositions && s.archived == h.archived
            && s.extras.others == h.extras.others
  {
  }

  lemma WriteKeepsView(cfg: Settings, view: View, w: World, e: Event) returns (s: WorkflowState)
    requires Inv(w) && Writes(cfg, w, e) && KeptByCompaction(cfg, view)
    ensures var now := w.clock + 1 + e.delay; var v := Step(cfg, w, e);
            && Propose(cfg, w.stored, e.op, now).Ok? && Propose(cfg, w.stored, e.op, now).value == Write(s, Propose(cfg, w.stored, e.op, now).value.expected)
            && v.stored.Some? && SameButFindings(s, v.stored.value) && view(v.stored.value.findings) == view(s.findings)
            && s.updatedAt == now && v.handles == w.handles + {s, v.stored.value}
  {
    s := WriteShape(cfg, w, e);
    var p := Propose(cfg, w.stored, e.op, w.clock + 1 + e.delay).value;
    assert Step(cfg, w, e).stored == Some(Compacted(cfg.size, cfg.max, s).value);
  }

  /** The state an event that writes starts from: the handle, or the queued item. */
  lemma Source(cfg: Settings, view: View, w: World, e: Event) returns (h: WorkflowState)
    requires Inv(w) && ViewsAgree(view, w) && Writes(cfg, w, e) && w.stored.Some?
    ensures if e.op.UsesHandle() then h == e.op.handle else w.stored == Some(h) && e.op.ClaimItem?
    ensures SameButFindings(h, w.stored.value) && view(h.findings) == view(w.stored.value.findings)
  {
    if e.op.UsesHandle() {
      WriteFollowsStored(cfg, w, e);
      h := e.op.handle;
    } else {
      if e.op.Reject? {
        CreateNeedsEmptyStore(cfg, w, e);
      }
      h := w.stored.value;
    }
  }

  lemma StepKeepsViews(cfg: Settings, view: View, w: World, e: Event)
    requires Inv(w) && ViewsAgree(view, w) && KeptByCompaction(cfg, view)
    ensures ViewsAgree(view, Step(cfg, w, e))
  {
    if Writes(cfg, w, e) {
      var s := WriteKeepsView(cfg, view, w, e);
    } else {
      StepShape(cfg, w, e, Propose(cfg, w.stored, e.op, w.clock + 1 + e.delay));
    }
  }

  lemma StepKeepsHistory(cfg: Settings, view: View, w: World, e: Event)
    requires Inv(w) && ViewsAgree(view, w) && KeptByCompaction(cfg, view) && w.stored.Some?
    ensures Step(cfg, w, e).stored.Some? && SameHistory(view, w.stored.value, Step(cfg, w, e).stored.value)
  {
    if Writes(cfg, w, e) {
      var s := WriteKeepsView(cfg, view, w, e);
      var h := Source(cfg, view, w, e);
      ProposalCarriesContent(cfg, w.stored, e.op, w.clock + 1 + e.delay, h);
    }
  }

  lemma {:induction false} RunKeepsHistory(cfg: Settings, view: View, w: World, events: seq<Event>)
    requires Inv(w) && ViewsAgree(view, w) && KeptByCompaction(cfg, view)
    ensures ViewsAgree(view, Run(cfg, w, events))
    ensures w.stored.Some? ==>
              Run(cfg, w, events).stored.Some? && SameHistory(view, w.stored.value, Run(cfg, w, events).stored.value)
    decreases |events|
  {
    if events != [] {
      StepKeeps(cfg, w, events[0]);
      StepKeepsViews(cfg, view, w, events[0]);
      if w.stored.Some? {
        StepKeepsHistory(cfg, view, w, events[0]);
      }
      RunKeepsHistory(cfg, view, Step(cfg, w, events[0]), events[1..]);
    }
  }

  lemma UnthreadedKept(cfg: Settings)
    ensures KeptByCompaction(cfg, UnthreadedOf)
  {
    forall s | Compacted(cfg.size, cfg.max, s).Some?
      ensures UnthreadedOf(Compacted(cfg.size, cfg.max, s).value.findings) == UnthreadedOf(s.findings)
    {
      CompactionIsMinimal(cfg.size, cfg.max, s);
    }
  }

  /**
    From the empty store, through any operations: dispositions, archive, unthreaded findings
    and foreign extras stored at some moment are still stored after any later operations.
  */
  lemma HistorySurvives(cfg: Settings, clock: int, events: seq<Event>, later: seq<Event>)
    ensures var w := Run(cfg, World(None, {}, clock), events); var v := Run(cfg, w, later);
            w.stored.Some? ==> v.stored.Some? && SameHistory(UnthreadedOf, w.stored.value, v.stored.value)
  {
    var start := World(None, {}, clock);
    UnthreadedKept(cfg);
    RunKeeps(cfg, start, events);
    RunKeepsHistory(cfg, UnthreadedOf, start, events);
    RunKeepsHistory(cfg, UnthreadedOf, Run(cfg, start, events), later);
  }

  // ----- The queue over the comment ----------------------------------------

  /** One host's view of the store; every operation reads, proposes and saves. */
  class IssueQueue {
    var stored: Option<WorkflowState>
    const cfg: Settings
    const host: string

    constructor (cfg: Settings, host: string, stored: Option<WorkflowState>)
      ensures this.cfg == cfg && this.host == host && this.stored == stored
    {
      this.cfg, this.host, this.stored := cfg, host, stored;
    }

    /** Compacts, checks the expected version, and writes. */
    method Save(s: WorkflowState, expected: Option<int>) returns (r: Result<WorkflowState, LeaseError>)
      modifies this`stored
      ensures Saved(cfg, old(stored), s, expected).Err? ==>
                r == Err(Saved(cfg, old(stored), s, expected).error) && stored == old(stored)
      ensures Saved(cfg, old(stored), s, expected).Ok? ==>
                r == Ok(s) && stored == Some(Saved(cfg, old(stored), s, expected).value)
    {
      var block := Compact(cfg.size, cfg.max, s);
      if block.None? {
        return Err(TooLarge);
      }
      if expected.None? {
        if stored.Some? {
          return Err(ClaimConflict);
        }
      } else if stored.None? || stored.value.updatedAt != expected.value {
        return Err(StateConflict);
      }
      stored := block;
      return Ok(s);
    }

    method ClaimItem(who: Claimant, enabled: bool, now: int) returns (r: Result<WorkflowState, LeaseError>)
      modifies this`stored
      ensures Outcome(old(stored), stored, r, Committed(cfg, old(stored), Op.ClaimItem(who, enabled), now))
    {
      if !enabled {
        return Err(ClaimConflict);
      }
      var claim := who.ClaimAt(now, cfg.lease);
      var s := WorkflowState(who.run, Claiming, None, now, None, [], [], [], claim.Over(NO_EXTRAS));
      if stored.None? {
        r := Save(s, None);
      } else if !stored.value.phase.Queued? {
        r := Err(ClaimConflict);
      } else {
        var queued := stored.value;
        s := s.(round := queued.round, findings := queued.findings, dispositions := queued.dispositions,
                archived := queued.archived, extras := claim.Over(Unclaimed(queued.extras)));
        r := Save(s, Some(queued.updatedAt));
      }
    }

    method Heartbeat(s: WorkflowState, now: int) returns (r: Result<WorkflowState, LeaseError>)
      modifies this`stored
      ensures Outcome(old(stored), stored, r, Committed(cfg, old(stored), Op.Heartbeat(s, host), now))
    {
      var claim := ReadClaim(s.extras);
      if claim.Err? {
        return Err(claim.error);
      }
      if claim.value.host != host || claim.value.StaleAt(now) {
        return Err(ClaimConflict);
      }
      var renewed := claim.value.(expires := now + cfg.lease, heartbeatAt := Some(now));
      r := Save(s.(updatedAt := now, extras := renewed.Over(s.extras)), Some(s.updatedAt));
    }

    method Transition(s: WorkflowState, phase: Phase, round: Option<RoundId>, reason: Option<string>, now: int)
      returns (r: Result<WorkflowState, LeaseError>)
      modifies this`stored
      ensures Outcome(old(stored), stored, r, Committed(cfg, old(stored), Op.Transition(s, phase, round, reason), now))
    {
      if s.phase.Terminal() {
        return Err(NoActiveClaim);
      }
      var next := Moved(s, phase, round, reason, now);
      if !next.WellFormed() {
        return Err(InvalidState);
      }
      r := Save(next, Some(s.updatedAt));
    }

    /** Requeues a stopped claim of this host, keeping its durable history. */
    method Abandon(s: WorkflowState, now: int) returns (r: Result<WorkflowState, LeaseError>)
      modifies this`stored
      ensures Outcome(old(stored), stored, r, Committed(cfg, old(stored), Op.Abandon(s, host), now))
    {
      if stored != Some(s) {
        return Err(StateConflict);
      }
      if s.phase.Queued? && s.extras.host.None? {
        return Ok(s);
      }
      var claim := ReadClaim(s.extras);
      if claim.Err? {
        return Err(claim.error);
      }
      if claim.value.host != host || !LanesStopped(s.extras) {
        return Err(ClaimConflict);
      }
      r := Transition(s.(extras := Unleased(s.extras)), Queued, None, None, now);
    }

    /** Takes over a claim whose lease ran out, or that has none. */
    method ReclaimExpired(s: WorkflowState, who: Claimant, now: int) returns (r: Result<WorkflowState, LeaseError>)
      modifies this`stored
      ensures Outcome(old(stored), stored, r, Committed(cfg, old(stored), Op.Reclaim(s, who), now))
    {
      if s.phase.Terminal() {
        return Err(NoActiveClaim);
      }
      var claim := ReadClaim(s.extras);
      if claim == Err(MalformedClaim) {
        return Err(MalformedClaim);
      }
      if claim.Ok? && !claim.value.StaleAt(now) {
        return Err(ClaimConflict);
      }
      var extras := who.ClaimAt(now, cfg.lease).Over(Unclaimed(s.extras));
      r := Save(s.(runId := who.run, updatedAt := now, reason := None, extras := extras), Some(s.updatedAt));
    }
  }

  /** What a caller sees and what is stored match the specification; a refusal stores nothing. */
  predicate Outcome(
    before: Option<WorkflowState>, stored: Option<WorkflowState>, r: Result<WorkflowState, LeaseError>,
    spec: Result<(Option<WorkflowState>, WorkflowState), LeaseError>)
  {
    match spec
    case Err(e) => r == Err(e) && stored == before
    case Ok((next, s)) => r == Ok(s) && stored == next
  }
}
