/**
  Who may settle a finding: worker proposals, their adjudication by reviewer lanes, the
  policy deferral of minor findings, and the durable history they leave, as the foreman
  carries them through its rounds. The key and the conflict grouping are parameters.
*/
module Adjudication {
  import opened Wrappers
  import opened Text
  import opened Sorting
  import opened Domain
  import opened Findings
  import opened Deduplication
  import opened Settlement
  import opened Conflicts

  type Grouping = (seq<Finding>, Finding) -> Option<string>

  datatype Policy = Policy(
    run: string, worker: string, reviewers: seq<string>, roles: map<string, Role>, requireReply: bool,
    key: KeyFn, group: Grouping)
  {
    predicate WorkerIsWorker() {
      worker in roles && roles[worker] == Role.Worker
    }
  }

  datatype Escalation =
    | LacksProvenance | NoReviewer | NoIndependentReviewer | InvalidProposal | RepeatedRebuttal | ConflictingReplay
    | InvalidResult | InvalidState

  type Ask = (string, Option<RoundId>)

  /** A reviewer's place in a wave, with the proposals it has to decide. */
  datatype Seat = Seat(lane: string, requests: seq<Ask>)

  /** What came back from a seat. */
  datatype Outcome = NoResult | Uncertain | Reported(exitCode: int, dispositions: seq<Disposition>, findings: seq<Finding>)

  /** The durable findings, decisions and archive. */
  datatype Book = Book(findings: seq<Finding>, dispositions: seq<Disposition>, archived: seq<ArchivedFinding>)

  // ----- Pending proposals -------------------------------------------------

  function Latest(ds: seq<Disposition>, id: string): Option<Disposition> {
    if ds == [] then None
    else if ds[|ds| - 1].findingId == id then Some(ds[|ds| - 1])
    else Latest(ds[..|ds| - 1], id)
  }

  /** An unanswered fix or rebuttal of this run's worker. */
  predicate IsProposal(p: Policy, d: Disposition) {
    && d.runId == Some(p.run) && d.decidedBy == p.worker && (d.action.Fix? || d.action.Rebut?)
    && d.responseTo.None? && d.roundId.Some?
  }

  predicate Awaiting(f: Finding, ds: seq<Disposition>) {
    f.status.Open? && Latest(ds, f.id).Some? && Latest(ds, f.id).value.responseTo.None?
  }

  function AwaitingIds(findings: seq<Finding>, ds: seq<Disposition>): set<string> {
    set f | f in findings && Awaiting(f, ds) :: f.id
  }

  /** The proposals to adjudicate by finding id. */
  function Pending(p: Policy, findings: seq<Finding>, ds: seq<Disposition>): Result<map<string, Disposition>, Escalation> {
    if exists f | f in findings :: Awaiting(f, ds) && !IsProposal(p, Latest(ds, f.id).value) then Err(LacksProvenance)
    else Ok(map id | id in AwaitingIds(findings, ds) && Latest(ds, id).Some? :: Latest(ds, id).value)
  }

  // ----- Who adjudicates ---------------------------------------------------

  /** Contested findings and rejected fixes need a reviewer with no part in them. */
  predicate NeedsIndependent(f: Finding, ds: seq<Disposition>) {
    || (f.conflictGroup.Some? && f.conflictGroup.value != "")
    || exists d | d in ds :: d.findingId == f.id && d.action.Fix? && d.responseTo.Some?
  }

  /** The lanes with a stake in the finding: its own, and those of its conflict group. */
  function Origins(f: Finding, findings: seq<Finding>): set<string> {
    {f.lane} + set g | g in findings && f.conflictGroup.Some? && f.conflictGroup.value != "" && g.conflictGroup == f.conflictGroup :: g.lane
  }

  function FirstOutside(lanes: seq<string>, origins: set<string>): (r: Option<string>)
    ensures r.Some? ==> r.value in lanes && r.value !in origins
    ensures r.None? ==> forall l | l in lanes :: l in origins
  {
    if lanes == [] then None
    else if lanes[0] !in origins then Some(lanes[0])
    else FirstOutside(lanes[1..], origins)
  }

  predicate AllReviewers(p: Policy) {
    forall l | l in p.reviewers :: l in p.roles && p.roles[l] == Role.Reviewer
  }

  function Adjudicator(p: Policy, f: Finding, findings: seq<Finding>, ds: seq<Disposition>): Result<string, Escalation> {
    if p.reviewers == [] || !AllReviewers(p) then Err(NoReviewer)
    else if !NeedsIndependent(f, ds) then Ok(if f.lane in p.reviewers then f.lane else p.reviewers[0])
    else
      var candidate := FirstOutside(p.reviewers, Origins(f, findings));
      if candidate.None? then Err(NoIndependentReviewer) else Ok(candidate.value)
  }

  /** A disputed finding never goes to a lane that reported it or a finding it conflicts with. */
  lemma AdjudicatorIsIndependent(p: Policy, f: Finding, findings: seq<Finding>, ds: seq<Disposition>)
    requires Adjudicator(p, f, findings, ds).Ok?
    ensures var lane := Adjudicator(p, f, findings, ds).value;
            && lane in p.reviewers && lane in p.roles && p.roles[lane] == Role.Reviewer
            && (NeedsIndependent(f, ds) ==>
                  lane != f.lane
                  && forall g | g in findings && f.conflictGroup.Some? && f.conflictGroup.value != ""
                                && g.conflictGroup == f.conflictGroup :: lane != g.lane)
    ensures p.WorkerIsWorker() ==> Adjudicator(p, f, findings, ds).value != p.worker
  {
    var origins := Origins(f, findings);
    assert f.lane in origins;
  }

  function Requests(p: Policy, lane: string, todo: seq<Finding>, findings: seq<Finding>, ds: seq<Disposition>, proposals: map<string, Disposition>)
    : Result<seq<Ask>, Escalation>
  {
    if todo == [] then Ok([])
    else
      var rest :- Requests(p, lane, todo[1..], findings, ds, proposals);
      if todo[0].id !in proposals then Ok(rest)
      else
        var adjudicator :- Adjudicator(p, todo[0], findings, ds);
        Ok(if adjudicator == lane then [(todo[0].id, proposals[todo[0].id].roundId)] + rest else rest)
  }

  function PlanSeats(p: Policy, lanes: seq<string>, findings: seq<Finding>, ds: seq<Disposition>, proposals: map<string, Disposition>)
    : Result<seq<Seat>, Escalation>
  {
    if lanes == [] then Ok([])
    else
      var requests :- Requests(p, lanes[0], findings, findings, ds, proposals);
      var rest :- PlanSeats(p, lanes[1..], findings, ds, proposals);
      Ok([Seat(lanes[0], requests)] + rest)
  }

  // ----- Results -----------------------------------------------------------

  function Answers(ds: seq<Disposition>): seq<Ask> {
    seq(|ds|, i requires 0 <= i < |ds| => (ds[i].findingId, ds[i].responseTo))
  }

  predicate Allowed(role: Role, action: Action) {
    match role
    case Reviewer => action.Accept? || action.Fix?
    case Worker => action.Fix? || action.Rebut?
    case Foreman => false
  }

  /** Exactly one decision per request, attributed to the lane and the turn, of an allowed kind. */
  predicate ValidDecisions(p: Policy, lane: string, round: Option<RoundId>, requests: seq<Ask>, ds: seq<Disposition>) {
    && lane in p.roles
    && multiset(Answers(ds)) == multiset(requests)
    && forall d | d in ds ::
         d.runId == Some(p.run) && d.roundId == round && d.decidedBy == lane && Allowed(p.roles[lane], d.action)
  }

  predicate ValidReport(p: Policy, lane: string, round: RoundId, head: string, f: Finding) {
    f.lane == lane && f.runId == p.run && f.roundId == round && f.headSha == Some(head)
  }

  /** Applies the accepted proposals of one reviewer. */
  function ApplyDecisions(p: Policy, findings: seq<Finding>, ds: seq<Disposition>, proposals: map<string, Disposition>)
    : Result<seq<Finding>, Escalation>
    decreases |ds|
  {
    if ds == [] then Ok(findings)
    else
      var n := |ds| - 1;
      var before :- ApplyDecisions(p, findings, ds[..n], proposals);
      var d := ds[n];
      if !d.action.Accept? then Ok(before)
      else if d.findingId !in proposals then Err(InvalidResult)
      else
        var settled := Settled(before, p.requireReply,
                               Settlement.Request(d.findingId, Accept, d.rationale, d.decidedBy, None, Some(proposals[d.findingId].rationale)));
        if settled.Err? then Err(InvalidResult) else Ok(settled.value.0)
  }

  /** Merges the new findings of one reviewer; an archived id may not come back. */
  function ApplyFindings(p: Policy, findings: seq<Finding>, archived: set<string>, reports: seq<Finding>): Result<seq<Finding>, Escalation>
    decreases |reports|
  {
    if reports == [] then Ok(findings)
    else
      var n := |reports| - 1;
      var before :- ApplyFindings(p, findings, archived, reports[..n]);
      if reports[n].id in archived then Err(InvalidResult)
      else
        var merged := Reconciled(p.key, before, reports[n]);
        if merged.Err? then Err(InvalidResult) else Ok(merged.value)
  }

  /** One seat's outcome: the findings after it, its decisions, and whether it was usable. */
  datatype Consumed = Consumed(findings: seq<Finding>, decisions: seq<Disposition>, usable: bool)

  /** An unusable outcome leaves the findings as they were and decides nothing. */
  function Consume(p: Policy, round: RoundId, head: string, archived: set<string>, proposals: map<string, Disposition>,
                   findings: seq<Finding>, seat: Seat, outcome: Outcome): Consumed
  {
    var unusable := Consumed(findings, [], false);
    if !outcome.Reported? || outcome.exitCode != 0 then unusable
    else if !ValidDecisions(p, seat.lane, Some(round), seat.requests, outcome.dispositions) then unusable
    else if exists f | f in outcome.findings :: !ValidReport(p, seat.lane, round, head, f) then unusable
    else
      var decided := ApplyDecisions(p, findings, outcome.dispositions, proposals);
      if decided.Err? then unusable
      else
        var merged := ApplyFindings(p, decided.value, archived, outcome.findings);
        if merged.Err? then unusable else Consumed(merged.value, outcome.dispositions, true)
  }

  /** The seats in order, each with what came back from it. */
  function Collect(p: Policy, round: RoundId, head: string, archived: set<string>, proposals: map<string, Disposition>,
                   findings: seq<Finding>, wave: seq<(Seat, Outcome)>): Consumed
    decreases |wave|
  {
    if wave == [] then Consumed(findings, [], true)
    else
      var n := |wave| - 1;
      var before := Collect(p, round, head, archived, proposals, findings, wave[..n]);
      var last := Consume(p, round, head, archived, proposals, before.findings, wave[n].0, wave[n].1);
      Consumed(last.findings, before.decisions + last.decisions, before.usable && last.usable)
  }

  // ----- Policy deferral ---------------------------------------------------

  function Grouped(group: Grouping, s: seq<Finding>): (r: seq<Finding>)
    ensures |r| == |s| && forall i | 0 <= i < |s| :: r[i] == s[i].(conflictGroup := group(s, s[i]))
  {
    seq(|s|, i requires 0 <= i < |s| => s[i].(conflictGroup := group(s, s[i])))
  }

  /** Below major, living on no thread, in no conflict group. */
  predicate Deferable(f: Finding) {
    f.conflictGroup.None? && f.severity.Rank() < Severity.Major.Rank() && f.threadId.None?
  }

  function Deferral(id: string): Settlement.Request {
    Settlement.Request(id, ReplyDeferred, "minor finding deferred by policy", "foreman", None, None)
  }

  /** Defers the open findings of `todo` that policy lets go. */
  function Defer(p: Policy, round: RoundId, findings: seq<Finding>, todo: seq<Finding>): Result<(seq<Finding>, seq<Disposition>), Escalation>
    decreases |todo|
  {
    if todo == [] then Ok((findings, []))
    else
      var n := |todo| - 1;
      var before :- Defer(p, round, findings, todo[..n]);
      if !todo[n].status.Open? || !Deferable(todo[n]) then Ok(before)
      else
        var settled := Settled(before.0, p.requireReply, Deferral(todo[n].id));
        if settled.Err? then Err(InvalidState)
        else Ok((settled.value.0, before.1 + [settled.value.1.(runId := Some(p.run), roundId := Some(round))]))
  }

  // ----- Durable history ---------------------------------------------------

  predicate SameDecisionKey(d: Disposition, e: Disposition) {
    d.runId == e.runId && d.roundId == e.roundId && d.decidedBy == e.decidedBy && d.findingId == e.findingId
  }

  /** Appends decisions; replaying one is fine, contradicting one is not. */
  function MergeDispositions(existing: seq<Disposition>, current: seq<Disposition>): Result<seq<Disposition>, Escalation>
    decreases |current|
  {
    if current == [] then Ok(existing)
    else
      var n := |current| - 1;
      var merged :- MergeDispositions(existing, current[..n]);
      var d := current[n];
      if !(exists e | e in merged :: SameDecisionKey(d, e)) then Ok(merged + [d])
      else if FirstWithKey(merged, d) == d then Ok(merged)
      else Err(ConflictingReplay)
  }

  function FirstWithKey(ds: seq<Disposition>, d: Disposition): (e: Disposition)
    requires exists x | x in ds :: SameDecisionKey(d, x)
    ensures e in ds && SameDecisionKey(d, e)
  {
    if SameDecisionKey(d, ds[0]) then ds[0] else FirstWithKey(ds[1..], d)
  }

  function ArchivedIds(records: seq<ArchivedFinding>): set<string> {
    set r | r in records :: r.findingId
  }

  function MergeArchived(existing: seq<ArchivedFinding>, current: seq<ArchivedFinding>): seq<ArchivedFinding>
    decreases |current|
  {
    if current == [] then existing
    else
      var merged := MergeArchived(existing, current[..|current| - 1]);
      var r := current[|current| - 1];
      if r.findingId in ArchivedIds(merged) then merged else merged + [r]
  }

  // ----- Steps -------------------------------------------------------------

  /** A wave that is planned and not yet reported, with the proposals its seats were asked about. */
  datatype Stage = NoWave | Waved(round: RoundId, head: string, seats: seq<Seat>)

  datatype Desk = Desk(book: Book, stage: Stage)

  datatype Step =
    | Propose(round: RoundId, dispositions: seq<Disposition>)
    | PlanWave(round: RoundId, head: string)
    | Persist(outcomes: seq<Outcome>)
    | Report

  function OpenFindings(s: seq<Finding>): seq<Finding> {
    Filter(s, (f: Finding) => f.status.Open?)
  }

  function ProposalRequests(s: seq<Finding>): seq<Ask> {
    seq(|s|, i requires 0 <= i < |s| => (s[i].id, None))
  }

  function ThreadOf(s: seq<Finding>, id: string): Option<string> {
    var i := IndexOf(s, id);
    if i < |s| then s[i].threadId else None
  }

  function WithThreads(s: seq<Finding>, ds: seq<Disposition>): (r: seq<Disposition>)
    ensures |r| == |ds|
  {
    seq(|ds|, i requires 0 <= i < |ds| => ds[i].(threadId := ThreadOf(s, ds[i].findingId), replyBody := Some(ds[i].rationale)))
  }

  /** A reviewer rejected this very rebuttal before. */
  predicate RepeatsRejected(history: seq<Disposition>, d: Disposition) {
    d.action.Rebut? &&
    exists old_, no | old_ in history && no in history ::
      && old_.action.Rebut? && old_.findingId == d.findingId
      && no.action.Fix? && no.responseTo.Some? && no.findingId == old_.findingId && no.responseTo == old_.roundId
      && NormalizeClaim(old_.rationale) == NormalizeClaim(d.rationale)
  }

  /** The worker answers every open finding; its answers join the history and nothing else changes. */
  function Proposed(p: Policy, book: Book, round: RoundId, ds: seq<Disposition>): Result<Book, Escalation> {
    if !ValidDecisions(p, p.worker, Some(round), ProposalRequests(OpenFindings(book.findings)), ds) then Err(InvalidProposal)
    else
      var proposals := WithThreads(book.findings, ds);
      if exists d | d in proposals :: RepeatsRejected(book.dispositions, d) then Err(RepeatedRebuttal)
      else
        var history :- MergeDispositions(book.dispositions, proposals);
        Ok(book.(dispositions := history))
  }

  function Planned(p: Policy, book: Book): Result<seq<Seat>, Escalation> {
    var proposals :- Pending(p, book.findings, book.dispositions);
    PlanSeats(p, p.reviewers, Grouped(p.group, book.findings), book.dispositions, proposals)
  }

  function Zipped(seats: seq<Seat>, outcomes: seq<Outcome>): (r: seq<(Seat, Outcome)>)
    ensures |r| == |seats|
  {
    seq(|seats|, i requires 0 <= i < |seats| => (seats[i], if i < |outcomes| then outcomes[i] else NoResult))
  }

  /** The findings and decisions of a wave once collected, grouped and deferred. */
  function Concluded(p: Policy, book: Book, round: RoundId, head: string, wave: seq<(Seat, Outcome)>)
    : Result<(seq<Finding>, seq<Disposition>), Escalation>
  {
    var proposals :- Pending(p, book.findings, book.dispositions);
    var c := Collect(p, round, head, ArchivedIds(book.archived), proposals, book.findings, wave);
    var grouped := Grouped(p.group, c.findings);
    var deferred :- Defer(p, round, grouped, grouped);
    Ok((deferred.0, c.decisions + deferred.1))
  }

  /** What a wave makes durable: active findings, the longer history, the longer archive. */
  function Persisted(p: Policy, book: Book, round: RoundId, head: string, wave: seq<(Seat, Outcome)>): Result<Book, Escalation> {
    var (findings, decisions) :- Concluded(p, book, round, head, wave);
    var archived := book.archived + Records(findings);
    var history :- MergeDispositions(book.dispositions, decisions);
    Ok(Book(Filter(Active(findings), (f: Finding) => f.id !in ArchivedIds(archived)), history, MergeArchived(book.archived, archived)))
  }

  /** One durable step; an escalation, or a step out of turn, leaves the desk as it was. */
  function Next(p: Policy, desk: Desk, step: Step): Desk {
    match step
    case Propose(round, ds) =>
      if !desk.stage.NoWave? then desk
      else
        var r := Proposed(p, desk.book, round, ds);
        if r.Ok? then desk.(book := r.value) else desk
    case PlanWave(round, head) =>
      if !desk.stage.NoWave? then desk
      else
        var r := Planned(p, desk.book);
        if r.Ok? then desk.(stage := Waved(round, head, r.value)) else desk
    case Persist(outcomes) =>
      if !desk.stage.Waved? then desk
      else
        var r := Persisted(p, desk.book, desk.stage.round, desk.stage.head, Zipped(desk.stage.seats, outcomes));
        if r.Ok? then desk.(book := r.value) else desk
    case Report => desk.(stage := NoWave)
  }

  function Run(p: Policy, desk: Desk, steps: seq<Step>): Desk
    decreases |steps|
  {
    if steps == [] then desk else Run(p, Next(p, desk, steps[0]), steps[1..])
  }

  // ----- Statuses through one wave -----------------------------------------

  /** A condition on findings that updating one of them must respect. */
  type Shape = Finding -> bool

  ghost predicate AllShaped(s: seq<Finding>, ok: Shape) {
    forall f | f in s :: ok(f)
  }

  lemma UpdateShaped(s: seq<Finding>, i: nat, f: Finding, ok: Shape)
    requires AllShaped(s, ok) && i < |s| && ok(f)
    ensures AllShaped(s[i := f], ok)
  {
    forall g | g in s[i := f]
      ensures ok(g)
    {
      assert g == f || g in s;
    }
  }

  lemma AppendShaped(s: seq<Finding>, f: Finding, ok: Shape)
    requires AllShaped(s, ok) && ok(f)
    ensures AllShaped(s + [f], ok)
  {
    assert forall g :: g in s + [f] <==> g in s || g == f;
  }

  function AcceptedOnly(ids: set<string>): Shape {
    (f: Finding) => f.status.Accepted? ==> f.id in ids
  }

  const MINOR: Shape := (f: Finding) => f.status.Deferred? ==> f.severity.Rank() < Severity.Major.Rank() && f.threadId.None?

  /** The shape does not read the conflict group, and open findings have it whatever else they say. */
  ghost predicate ReadsStatus(ok: Shape) {
    && (forall f: Finding, g | ok(f) :: ok(f.(conflictGroup := g)))
    && (forall f: Finding | f.status.Open? :: ok(f))
  }

  lemma SettledTarget(s: seq<Finding>, requireReply: bool, q: Settlement.Request)
    requires Settled(s, requireReply, q).Ok?
    ensures var i := IndexOf(s, q.id); i < |s| && s[i].id == q.id && (s[i].status.Open? || s[i].status.Deferred?)
  {
  }

  lemma SettledValue(s: seq<Finding>, requireReply: bool, q: Settlement.Request, i: nat)
    requires Settled(s, requireReply, q).Ok? && i == IndexOf(s, q.id) && i < |s|
    ensures Settled(s, requireReply, q).value == (s[i := Updated(s[i], q)], Decision(s[i], q))
  {
  }

  lemma SettledShape(s: seq<Finding>, requireReply: bool, q: Settlement.Request)
    requires Settled(s, requireReply, q).Ok?
    ensures var i := IndexOf(s, q.id);
            i < |s| && s[i].id == q.id && (s[i].status.Open? || s[i].status.Deferred?)
            && Settled(s, requireReply, q).value == (s[i := Updated(s[i], q)], Decision(s[i], q))
  {
    SettledTarget(s, requireReply, q);
    SettledValue(s, requireReply, q, IndexOf(s, q.id));
  }

  lemma MergedShaped(key: KeyFn, s: seq<Finding>, f: Finding, ok: Shape)
    requires AllShaped(s, ok) && ReadsStatus(ok) && f.status.Open? && Reconciled(key, s, f).Ok?
    ensures AllShaped(Reconciled(key, s, f).value, ok)
  {
    var i := FindKey(key, s, key(f).value, 0);
    if i == |s| {
      AppendShaped(s, f.Seeded(), ok);
    } else {
      var m := Merge([s[i], f.Seeded()], s[i]);
      assert m.status == s[i].status == f.status;
      UpdateShaped(s, i, m, ok);
    }
  }

  lemma {:induction false} ReportsShaped(p: Policy, s: seq<Finding>, archived: set<string>, reports: seq<Finding>, ok: Shape)
    requires AllShaped(s, ok) && ReadsStatus(ok) && ApplyFindings(p, s, archived, reports).Ok?
    requires forall f | f in reports :: f.status.Open?
    ensures AllShaped(ApplyFindings(p, s, archived, reports).value, ok)
    decreases |reports|
  {
    if reports != [] {
      var n := |reports| - 1;
      assert reports[n] in reports && forall f | f in reports[..n] :: f in reports;
      ReportsShaped(p, s, archived, reports[..n], ok);
      MergedShaped(p.key, ApplyFindings(p, s, archived, reports[..n]).value, reports[n], ok);
    }
  }

  /** Accepting keeps a shape when it allows the accepted ids. */
  lemma {:induction false} DecisionsShaped(p: Policy, s: seq<Finding>, ds: seq<Disposition>, proposals: map<string, Disposition>, ok: Shape)
    requires AllShaped(s, ok) && ApplyDecisions(p, s, ds, proposals).Ok?
    requires forall f: Finding, d | d in ds && d.action.Accept? && f.id == d.findingId && f.status.Accepted? :: ok(f)
    ensures AllShaped(ApplyDecisions(p, s, ds, proposals).value, ok)
    decreases |ds|
  {
    if ds != [] {
      var n := |ds| - 1;
      assert ds[n] in ds && forall d | d in ds[..n] :: d in ds;
      DecisionsShaped(p, s, ds[..n], proposals, ok);
      var before := ApplyDecisions(p, s, ds[..n], proposals).value;
      if ds[n].action.Accept? {
        var q := Settlement.Request(ds[n].findingId, Accept, ds[n].rationale, ds[n].decidedBy, None, Some(proposals[ds[n].findingId].rationale));
        SettledShape(before, p.requireReply, q);
        var i := IndexOf(before, q.id);
        UpdateShaped(before, i, Updated(before[i], q), ok);
      }
    }
  }

  // ----- Ids through one wave ----------------------------------------------

  ghost predicate SameIds(s: seq<Finding>, t: seq<Finding>) {
    |s| == |t| && forall i | 0 <= i < |s| :: s[i].id == t[i].id
  }

  lemma {:induction false} DecisionsKeepIds(p: Policy, s: seq<Finding>, ds: seq<Disposition>, proposals: map<string, Disposition>)
    requires ApplyDecisions(p, s, ds, proposals).Ok?
    ensures SameIds(s, ApplyDecisions(p, s, ds, proposals).value)
    decreases |ds|
  {
    if ds != [] {
      var n := |ds| - 1;
      DecisionsKeepIds(p, s, ds[..n], proposals);
      if ds[n].action.Accept? {
        SettledShape(ApplyDecisions(p, s, ds[..n], proposals).value, p.requireReply,
                     Settlement.Request(ds[n].findingId, Accept, ds[n].rationale, ds[n].decidedBy, None, Some(proposals[ds[n].findingId].rationale)));
      }
    }
  }

  lemma {:induction false} ReportsKeepUnique(p: Policy, s: seq<Finding>, archived: set<string>, reports: seq<Finding>)
    requires ReadsIdentity(p.key) && UniqueIds(s) && ApplyFindings(p, s, archived, reports).Ok?
    ensures UniqueIds(ApplyFindings(p, s, archived, reports).value)
    decreases |reports|
  {
    if reports != [] {
      var n := |reports| - 1;
      ReportsKeepUnique(p, s, archived, reports[..n]);
      ReconciledIds(p.key, ApplyFindings(p, s, archived, reports[..n]).value, reports[n]);
    }
  }

  lemma ConsumeKeepsUnique(p: Policy, round: RoundId, head: string, archived: set<string>, proposals: map<string, Disposition>,
                           findings: seq<Finding>, seat: Seat, outcome: Outcome)
    requires ReadsIdentity(p.key) && UniqueIds(findings)
    ensures UniqueIds(Consume(p, round, head, archived, proposals, findings, seat, outcome).findings)
  {
    var c := Consume(p, round, head, archived, proposals, findings, seat, outcome);
    if c.usable {
      DecisionsKeepIds(p, findings, outcome.dispositions, proposals);
      ReportsKeepUnique(p, ApplyDecisions(p, findings, outcome.dispositions, proposals).value, archived, outcome.findings);
    }
  }

  lemma {:induction false} CollectKeepsUnique(p: Policy, round: RoundId, head: string, archived: set<string>, proposals: map<string, Disposition>,
                                              findings: seq<Finding>, wave: seq<(Seat, Outcome)>)
    requires ReadsIdentity(p.key) && UniqueIds(findings)
    ensures UniqueIds(Collect(p, round, head, archived, proposals, findings, wave).findings)
    decreases |wave|
  {
    if wave != [] {
      var n := |wave| - 1;
      CollectKeepsUnique(p, round, head, archived, proposals, findings, wave[..n]);
      ConsumeKeepsUnique(p, round, head, archived, proposals,
                         Collect(p, round, head, archived, proposals, findings, wave[..n]).findings, wave[n].0, wave[n].1);
    }
  }

  // ----- Decisions of one wave ---------------------------------------------

  /** A decision one of the seats was asked for and gave, under its own name and turn. */
  ghost predicate GivenBy(p: Policy, round: RoundId, seat: Seat, d: Disposition) {
    && d.runId == Some(p.run) && d.roundId == Some(round) && d.decidedBy == seat.lane
    && seat.lane in p.roles && Allowed(p.roles[seat.lane], d.action)
    && (d.findingId, d.responseTo) in seat.requests
  }

  ghost predicate Given(p: Policy, round: RoundId, wave: seq<(Seat, Outcome)>, d: Disposition) {
    exists k | 0 <= k < |wave| :: GivenBy(p, round, wave[k].0, d)
  }

  lemma ValidAreGiven(p: Policy, round: RoundId, seat: Seat, ds: seq<Disposition>, d: Disposition)
    requires ValidDecisions(p, seat.lane, Some(round), seat.requests, ds) && d in ds
    ensures GivenBy(p, round, seat, d)
  {
    var i :| 0 <= i < |ds| && ds[i] == d;
    assert Answers(ds)[i] in Answers(ds);
    SameElements(Answers(ds), seat.requests);
  }

  lemma {:induction false} AcceptedWereProposed(p: Policy, s: seq<Finding>, ds: seq<Disposition>, proposals: map<string, Disposition>)
    requires ApplyDecisions(p, s, ds, proposals).Ok?
    ensures forall d | d in ds && d.action.Accept? :: d.findingId in proposals
    decreases |ds|
  {
    if ds != [] {
      var n := |ds| - 1;
      AcceptedWereProposed(p, s, ds[..n], proposals);
      assert forall d | d in ds :: d in ds[..n] || d == ds[n];
    }
  }

  lemma ConsumedDecisions(p: Policy, round: RoundId, head: string, archived: set<string>, proposals: map<string, Disposition>,
                          findings: seq<Finding>, seat: Seat, outcome: Outcome, d: Disposition)
    requires d in Consume(p, round, head, archived, proposals, findings, seat, outcome).decisions
    ensures GivenBy(p, round, seat, d) && (d.action.Accept? ==> d.findingId in proposals)
  {
    ValidAreGiven(p, round, seat, outcome.dispositions, d);
    AcceptedWereProposed(p, findings, outcome.dispositions, proposals);
  }

  /** Every decision of a wave was asked for, and every acceptance answers a pending proposal. */
  lemma {:induction false} CollectedDecisions(p: Policy, round: RoundId, head: string, archived: set<string>, proposals: map<string, Disposition>,
                                              findings: seq<Finding>, wave: seq<(Seat, Outcome)>, d: Disposition)
    requires d in Collect(p, round, head, archived, proposals, findings, wave).decisions
    ensures Given(p, round, wave, d) && (d.action.Accept? ==> d.findingId in proposals)
    decreases |wave|
  {
    var n := |wave| - 1;
    var before := Collect(p, round, head, archived, proposals, findings, wave[..n]);
    if d in before.decisions {
      CollectedDecisions(p, round, head, archived, proposals, findings, wave[..n], d);
      var k :| 0 <= k < n && GivenBy(p, round, wave[..n][k].0, d);
      assert wave[k] == wave[..n][k];
    } else {
      ConsumedDecisions(p, round, head, archived, proposals, before.findings, wave[n].0, wave[n].1, d);
    }
  }

  /** Reviewer findings arrive open: their parser rejects anything else. */
  predicate ParsedOpen(outcome: Outcome) {
    outcome.Reported? ==> forall f | f in outcome.findings :: f.status.Open?
  }

  ghost predicate AllowsAccepted(ok: Shape, ds: seq<Disposition>) {
    forall f: Finding, d | d in ds && d.action.Accept? && f.id == d.findingId && f.status.Accepted? :: ok(f)
  }

  lemma ConsumeShaped(p: Policy, round: RoundId, head: string, archived: set<string>, proposals: map<string, Disposition>,
                      findings: seq<Finding>, seat: Seat, outcome: Outcome, ok: Shape)
    requires AllShaped(findings, ok) && ReadsStatus(ok) && ParsedOpen(outcome)
    requires AllowsAccepted(ok, Consume(p, round, head, archived, proposals, findings, seat, outcome).decisions)
    ensures AllShaped(Consume(p, round, head, archived, proposals, findings, seat, outcome).findings, ok)
  {
    var c := Consume(p, round, head, archived, proposals, findings, seat, outcome);
    if c.usable {
      DecisionsShaped(p, findings, outcome.dispositions, proposals, ok);
      ReportsShaped(p, ApplyDecisions(p, findings, outcome.dispositions, proposals).value, archived, outcome.findings, ok);
    }
  }

  lemma {:induction false} CollectShaped(p: Policy, round: RoundId, head: string, archived: set<string>, proposals: map<string, Disposition>,
                                         findings: seq<Finding>, wave: seq<(Seat, Outcome)>, ok: Shape)
    requires AllShaped(findings, ok) && ReadsStatus(ok) && forall w | w in wave :: ParsedOpen(w.1)
    requires AllowsAccepted(ok, Collect(p, round, head, archived, proposals, findings, wave).decisions)
    ensures AllShaped(Collect(p, round, head, archived, proposals, findings, wave).findings, ok)
    decreases |wave|
  {
    if wave != [] {
      var n := |wave| - 1;
      assert wave[n] in wave && forall w | w in wave[..n] :: w in wave;
      var before := Collect(p, round, head, archived, proposals, findings, wave[..n]);
      var all := Collect(p, round, head, archived, proposals, findings, wave).decisions;
      assert forall d | d in before.decisions :: d in all;
      CollectShaped(p, round, head, archived, proposals, findings, wave[..n], ok);
      var last := Consume(p, round, head, archived, proposals, before.findings, wave[n].0, wave[n].1);
      assert forall d | d in last.decisions :: d in all;
      ConsumeShaped(p, round, head, archived, proposals, before.findings, wave[n].0, wave[n].1, ok);
    }
  }

  lemma UnusableConsumed(p: Policy, round: RoundId, head: string, archived: set<string>, proposals: map<string, Disposition>,
                         findings: seq<Finding>, seat: Seat, outcome: Outcome)
    ensures var c := Consume(p, round, head, archived, proposals, findings, seat, outcome);
            !c.usable ==> c == Consumed(findings, [], false)
    ensures Consume(p, round, head, archived, proposals, findings, seat, NoResult) == Consumed(findings, [], false)
  {
  }

  /** An unusable outcome might as well not have arrived: findings and decisions are the same. */
  lemma {:induction false} UnusableChangesNothing(p: Policy, round: RoundId, head: string, archived: set<string>, proposals: map<string, Disposition>,
                                                  findings: seq<Finding>, wave: seq<(Seat, Outcome)>, k: nat)
    requires k < |wave|
    requires !Consume(p, round, head, archived, proposals,
                      Collect(p, round, head, archived, proposals, findings, wave[..k]).findings, wave[k].0, wave[k].1).usable
    ensures var c := Collect(p, round, head, archived, proposals, findings, wave);
            var without := Collect(p, round, head, archived, proposals, findings, wave[k := (wave[k].0, NoResult)]);
            c.findings == without.findings && c.decisions == without.decisions
    decreases |wave|
  {
    var n := |wave| - 1;
    var other := wave[k := (wave[k].0, NoResult)];
    var before := Collect(p, round, head, archived, proposals, findings, wave[..n]);
    var before' := Collect(p, round, head, archived, proposals, findings, other[..n]);
    if k == n {
      assert other[..n] == wave[..n];
      UnusableConsumed(p, round, head, archived, proposals, before.findings, wave[n].0, wave[n].1);
    } else {
      assert other[..n] == wave[..n][k := (wave[k].0, NoResult)] && wave[..n][..k] == wave[..k];
      UnusableChangesNothing(p, round, head, archived, proposals, findings, wave[..n], k);
    }
    CollectLast(p, round, head, archived, proposals, findings, wave, before,
                Consume(p, round, head, archived, proposals, before.findings, wave[n].0, wave[n].1));
    CollectLast(p, round, head, archived, proposals, findings, other, before',
                Consume(p, round, head, archived, proposals, before'.findings, other[n].0, other[n].1));
  }

  // ----- Deferral ----------------------------------------------------------

  /** The first `n` findings with the open deferable ones deferred, and the rest as they are. */
  function DeferredUpTo(g: seq<Finding>, n: nat): (r: seq<Finding>)
    ensures |r| == |g|
    ensures forall i | 0 <= i < |g| ::
              r[i] == if i < n && g[i].status.Open? && Deferable(g[i]) then Updated(g[i], Deferral(g[i].id)) else g[i]
  {
    seq(|g|, i requires 0 <= i < |g| =>
      if i < n && g[i].status.Open? && Deferable(g[i]) then Updated(g[i], Deferral(g[i].id)) else g[i])
  }

  lemma IndexOfUnique(s: seq<Finding>, g: seq<Finding>, n: nat)
    requires UniqueIds(g) && SameIds(g, s) && n < |g|
    ensures IndexOf(s, g[n].id) == n
  {
  }

  predicate LetGo(f: Finding) {
    f.status.Open? && Deferable(f)
  }

  lemma DeferredNext(g: seq<Finding>, n: nat)
    requires n < |g|
    ensures SameIds(g, DeferredUpTo(g, n)) && DeferredUpTo(g, n)[n] == g[n]
    ensures DeferredUpTo(g, n + 1) == if LetGo(g[n]) then DeferredUpTo(g, n)[n := Updated(g[n], Deferral(g[n].id))] else DeferredUpTo(g, n)
  {
  }

  lemma DeferOne(p: Policy, g: seq<Finding>, n: nat)
    requires UniqueIds(g) && n < |g| && LetGo(g[n])
    requires Settled(DeferredUpTo(g, n), p.requireReply, Deferral(g[n].id)).Ok?
    ensures Settled(DeferredUpTo(g, n), p.requireReply, Deferral(g[n].id)).value.0 == DeferredUpTo(g, n + 1)
    ensures Settled(DeferredUpTo(g, n), p.requireReply, Deferral(g[n].id)).value.1.action.ReplyDeferred?
  {
    DeferredNext(g, n);
    SettledShape(DeferredUpTo(g, n), p.requireReply, Deferral(g[n].id));
    IndexOfUnique(DeferredUpTo(g, n), g, n);
  }

  /** Deferral touches exactly the open findings that are minor, unthreaded and uncontested. */
  lemma {:induction false} DeferExact(p: Policy, round: RoundId, g: seq<Finding>, n: nat)
    requires UniqueIds(g) && n <= |g| && Defer(p, round, g, g[..n]).Ok?
    ensures Defer(p, round, g, g[..n]).value.0 == DeferredUpTo(g, n)
    ensures forall d | d in Defer(p, round, g, g[..n]).value.1 :: d.action.ReplyDeferred?
  {
    if n == 0 {
      assert g[..0] == [];
      assert DeferredUpTo(g, 0) == g;
    } else {
      var m := n - 1;
      assert g[..n][..m] == g[..m] && g[..n][m] == g[m];
      DeferExact(p, round, g, m);
      if LetGo(g[m]) {
        DeferOne(p, g, m);
      } else {
        DeferredNext(g, m);
      }
    }
  }

  lemma GroupedShaped(group: Grouping, s: seq<Finding>, ok: Shape)
    requires AllShaped(s, ok) && ReadsStatus(ok)
    ensures AllShaped(Grouped(group, s), ok)
  {
    var g := Grouped(group, s);
    forall f | f in g
      ensures ok(f)
    {
      var i :| 0 <= i < |g| && g[i] == f;
      assert s[i] in s;
    }
  }

  /** Everything one wave establishes about the findings it leaves. */
  lemma ConcludedShape(p: Policy, book: Book, round: RoundId, head: string, wave: seq<(Seat, Outcome)>)
    returns (c: Consumed, proposals: map<string, Disposition>)
    requires ReadsIdentity(p.key) && UniqueIds(book.findings) && Concluded(p, book, round, head, wave).Ok?
    ensures Pending(p, book.findings, book.dispositions) == Ok(proposals)
    ensures c == Collect(p, round, head, ArchivedIds(book.archived), proposals, book.findings, wave)
    ensures UniqueIds(c.findings)
    ensures var (findings, decisions) := Concluded(p, book, round, head, wave).value;
            var g := Grouped(p.group, c.findings);
            && findings == DeferredUpTo(g, |g|)
            && forall d | d in decisions :: d in c.decisions || d.action.ReplyDeferred?
    ensures forall d | d in c.decisions :: d in Concluded(p, book, round, head, wave).value.1
  {
    proposals := Pending(p, book.findings, book.dispositions).value;
    c := Collect(p, round, head, ArchivedIds(book.archived), proposals, book.findings, wave);
    CollectKeepsUnique(p, round, head, ArchivedIds(book.archived), proposals, book.findings, wave);
    var g := Grouped(p.group, c.findings);
    assert g[..|g|] == g;
    DeferExact(p, round, g, |g|);
  }

  /** Whatever wave concludes, a finding it newly defers is minor, unthreaded and uncontested. */
  lemma OnlyMinorIsDeferred(p: Policy, book: Book, round: RoundId, head: string, wave: seq<(Seat, Outcome)>, i: nat)
    requires ReadsIdentity(p.key) && UniqueIds(book.findings) && Concluded(p, book, round, head, wave).Ok?
    requires i < |Concluded(p, book, round, head, wave).value.0|
    ensures var f := Concluded(p, book, round, head, wave).value.0[i];
            var c := Collect(p, round, head, ArchivedIds(book.archived), Pending(p, book.findings, book.dispositions).value, book.findings, wave);
            |c.findings| == |Concluded(p, book, round, head, wave).value.0| &&
            (f.status.Deferred? && !c.findings[i].status.Deferred? ==>
               Deferable(f) && p.group(c.findings, c.findings[i]) == None && c.findings[i].status.Open?)
  {
    var c, proposals := ConcludedShape(p, book, round, head, wave);
  }

  // ----- Merging into history ----------------------------------------------

  /** Merging keeps what is there in front. */
  lemma {:induction false} MergeKeepsHistory(existing: seq<Disposition>, current: seq<Disposition>)
    requires MergeDispositions(existing, current).Ok?
    ensures existing <= MergeDispositions(existing, current).value
    decreases |current|
  {
    if current != [] {
      MergeKeepsHistory(existing, current[..|current| - 1]);
    }
  }

  /** Merging keeps every decision and adds nothing else. */
  lemma {:induction false} MergeIsUnion(existing: seq<Disposition>, current: seq<Disposition>)
    requires MergeDispositions(existing, current).Ok?
    ensures forall d :: d in MergeDispositions(existing, current).value <==> d in existing || d in current
    decreases |current|
  {
    if current != [] {
      var n := |current| - 1;
      MergeIsUnion(existing, current[..n]);
      assert current == current[..n] + [current[n]];
    }
  }

  lemma MergeAppends(existing: seq<Disposition>, current: seq<Disposition>)
    requires MergeDispositions(existing, current).Ok?
    ensures existing <= MergeDispositions(existing, current).value
    ensures forall d | d in current :: d in MergeDispositions(existing, current).value
  {
    MergeKeepsHistory(existing, current);
    MergeIsUnion(existing, current);
  }

  /** The latest decision on a finding stays, or is one of the merged ones. */
  lemma {:induction false} LatestMerged(existing: seq<Disposition>, current: seq<Disposition>, id: string)
    requires MergeDispositions(existing, current).Ok?
    ensures var l := Latest(MergeDispositions(existing, current).value, id);
            l == Latest(existing, id) || (l.Some? && l.value in current)
    decreases |current|
  {
    if current != [] {
      var n := |current| - 1;
      LatestMerged(existing, current[..n], id);
      assert current == current[..n] + [current[n]];
      var merged := MergeDispositions(existing, current[..n]).value;
      assert (merged + [current[n]])[..|merged|] == merged;
    }
  }

  lemma {:induction false} ArchiveMerged(existing: seq<ArchivedFinding>, current: seq<ArchivedFinding>)
    ensures forall r | r in MergeArchived(existing, current) :: r in existing || r in current
    ensures existing <= MergeArchived(existing, current)
    ensures forall r | r in current :: r.findingId in ArchivedIds(MergeArchived(existing, current))
    decreases |current|
  {
    if current != [] {
      var n := |current| - 1;
      ArchiveMerged(existing, current[..n]);
      assert current == current[..n] + [current[n]];
      var merged := MergeArchived(existing, current[..n]);
      assert forall r | r in merged :: r in merged + [current[n]];
    }
  }

  // ----- What holds between durable steps ----------------------------------

  /** Requests of a seat name the round of the proposal still pending for their finding. */
  ghost predicate Agree(p: Policy, seats: seq<Seat>, ds: seq<Disposition>) {
    forall s, a | s in seats && a in s.requests && Latest(ds, a.0).Some? && IsProposal(p, Latest(ds, a.0).value) ::
      a.1 == Latest(ds, a.0).value.roundId
  }

  /** Only reviewers are asked to decide anything. */
  ghost predicate ReviewersAsked(p: Policy, seats: seq<Seat>) {
    forall s | s in seats && s.requests != [] :: s.lane in p.roles && p.roles[s.lane] == Role.Reviewer
  }

  ghost predicate SoundBook(book: Book) {
    UniqueIds(book.findings) && AllShaped(book.findings, AcceptedOnly({})) && AllShaped(book.findings, MINOR)
  }

  ghost predicate Inv(p: Policy, desk: Desk) {
    && SoundBook(desk.book)
    && (desk.stage.Waved? ==> Agree(p, desk.stage.seats, desk.book.dispositions) && ReviewersAsked(p, desk.stage.seats))
  }

  lemma PendingAreProposals(p: Policy, findings: seq<Finding>, ds: seq<Disposition>, id: string)
    requires Pending(p, findings, ds).Ok? && id in Pending(p, findings, ds).value
    ensures Latest(ds, id) == Some(Pending(p, findings, ds).value[id]) && IsProposal(p, Pending(p, findings, ds).value[id])
  {
    var f :| f in findings && Awaiting(f, ds) && f.id == id;
  }

  lemma {:induction false} RequestsNamePending(p: Policy, lane: string, todo: seq<Finding>, findings: seq<Finding>, ds: seq<Disposition>, proposals: map<string, Disposition>)
    requires Requests(p, lane, todo, findings, ds, proposals).Ok?
    ensures var r := Requests(p, lane, todo, findings, ds, proposals).value;
            && (forall a | a in r :: a.0 in proposals && a.1 == proposals[a.0].roundId)
            && (r != [] ==> lane in p.roles && p.roles[lane] == Role.Reviewer)
  {
    if todo != [] {
      RequestsNamePending(p, lane, todo[1..], findings, ds, proposals);
      if todo[0].id in proposals {
        AdjudicatorIsIndependent(p, todo[0], findings, ds);
      }
    }
  }

  lemma {:induction false} PlannedSeatsAgree(p: Policy, lanes: seq<string>, findings: seq<Finding>, book: Book)
    requires Pending(p, book.findings, book.dispositions).Ok?
    requires PlanSeats(p, lanes, findings, book.dispositions, Pending(p, book.findings, book.dispositions).value).Ok?
    ensures var seats := PlanSeats(p, lanes, findings, book.dispositions, Pending(p, book.findings, book.dispositions).value).value;
            Agree(p, seats, book.dispositions) && ReviewersAsked(p, seats)
  {
    if lanes != [] {
      var proposals := Pending(p, book.findings, book.dispositions).value;
      PlannedSeatsAgree(p, lanes[1..], findings, book);
      RequestsNamePending(p, lanes[0], findings, findings, book.dispositions, proposals);
      forall a | a in Requests(p, lanes[0], findings, findings, book.dispositions, proposals).value
        ensures a.1 == Latest(book.dispositions, a.0).GetOr(proposals[a.0]).roundId
      {
        PendingAreProposals(p, book.findings, book.dispositions, a.0);
      }
    }
  }

  /** Reviewer decisions and deferrals are no worker proposals. */
  lemma DecisionIsNoProposal(p: Policy, round: RoundId, wave: seq<(Seat, Outcome)>, seats: seq<Seat>, d: Disposition)
    requires p.WorkerIsWorker() && ReviewersAsked(p, seats)
    requires |wave| == |seats| && forall k | 0 <= k < |seats| :: wave[k].0 == seats[k]
    requires Given(p, round, wave, d) || d.action.ReplyDeferred?
    ensures !IsProposal(p, d)
  {
    if Given(p, round, wave, d) {
      var k :| 0 <= k < |wave| && GivenBy(p, round, wave[k].0, d);
      assert seats[k] in seats;
    }
  }

  /** An acceptance answers, by its exact round, the worker's latest unanswered fix or rebuttal. */
  ghost predicate Answered(p: Policy, before: seq<Disposition>, d: Disposition, id: string) {
    && d.action.Accept? && d.findingId == id && d.runId == Some(p.run)
    && d.decidedBy in p.roles && p.roles[d.decidedBy] == Role.Reviewer && d.decidedBy != p.worker
    && Latest(before, id).Some? && IsProposal(p, Latest(before, id).value)
    && d.responseTo == Latest(before, id).value.roundId
  }

  lemma AcceptanceAnswers(p: Policy, book: Book, round: RoundId, head: string, wave: seq<(Seat, Outcome)>, seats: seq<Seat>,
                          proposals: map<string, Disposition>, d: Disposition)
    requires p.WorkerIsWorker() && Agree(p, seats, book.dispositions)
    requires |wave| == |seats| && forall k | 0 <= k < |seats| :: wave[k].0 == seats[k]
    requires Pending(p, book.findings, book.dispositions) == Ok(proposals)
    requires d in Collect(p, round, head, ArchivedIds(book.archived), proposals, book.findings, wave).decisions && d.action.Accept?
    ensures Answered(p, book.dispositions, d, d.findingId)
  {
    CollectedDecisions(p, round, head, ArchivedIds(book.archived), proposals, book.findings, wave, d);
    var k :| 0 <= k < |wave| && GivenBy(p, round, wave[k].0, d);
    PendingAreProposals(p, book.findings, book.dispositions, d.findingId);
    assert seats[k] in seats && (d.findingId, d.responseTo) in seats[k].requests;
  }

  ghost function AcceptedIds(ds: seq<Disposition>): set<string> {
    set d | d in ds && d.action.Accept? :: d.findingId
  }

  lemma ShapesReadStatus(ids: set<string>)
    ensures ReadsStatus(AcceptedOnly(ids)) && ReadsStatus(MINOR)
  {
  }

  lemma DeferredUpToShaped(g: seq<Finding>, n: nat, ok: Shape)
    requires AllShaped(g, ok)
    requires forall f | LetGo(f) :: ok(Updated(f, Deferral(f.id)))
    ensures AllShaped(DeferredUpTo(g, n), ok)
  {
    var r := DeferredUpTo(g, n);
    forall f | f in r
      ensures ok(f)
    {
      var i :| 0 <= i < |r| && r[i] == f;
      assert g[i] in g && (i < n && LetGo(g[i]) ==> r[i] == Updated(g[i], Deferral(g[i].id)));
    }
  }

  /** After any wave, only findings some collected decision accepted are accepted, and deferred ones are minor. */
  lemma ConcludedShaped(p: Policy, book: Book, round: RoundId, head: string, wave: seq<(Seat, Outcome)>, c: Consumed)
    requires ReadsIdentity(p.key) && SoundBook(book) && Concluded(p, book, round, head, wave).Ok?
    requires forall w | w in wave :: ParsedOpen(w.1)
    requires c == Collect(p, round, head, ArchivedIds(book.archived), Pending(p, book.findings, book.dispositions).value, book.findings, wave)
    ensures var findings := Concluded(p, book, round, head, wave).value.0;
            AllShaped(findings, AcceptedOnly(AcceptedIds(c.decisions))) && AllShaped(findings, MINOR)
  {
    var ids := AcceptedIds(c.decisions);
    var c', proposals := ConcludedShape(p, book, round, head, wave);
    ShapesReadStatus(ids);
    assert forall f | f in book.findings :: AcceptedOnly({})(f);
    assert AllShaped(book.findings, AcceptedOnly(ids));
    CollectShaped(p, round, head, ArchivedIds(book.archived), proposals, book.findings, wave, AcceptedOnly(ids));
    CollectShaped(p, round, head, ArchivedIds(book.archived), proposals, book.findings, wave, MINOR);
    GroupedShaped(p.group, c.findings, AcceptedOnly(ids));
    GroupedShaped(p.group, c.findings, MINOR);
    var g := Grouped(p.group, c.findings);
    DeferredUpToShaped(g, |g|, AcceptedOnly(ids));
    DeferredUpToShaped(g, |g|, MINOR);
  }

  lemma ArchivedFrom(findings: seq<Finding>, ids: set<string>, r: ArchivedFinding)
    requires AllShaped(findings, AcceptedOnly(ids)) && r in Records(findings) && r.status.Accepted?
    ensures r.findingId in ids
  {
    CompactionConserves(findings);
    var f :| f in findings && Archivable(f) && r == Record(f);
    assert AcceptedOnly(ids)(f);
  }

  /** The seats of a wave, each with its outcome. */
  ghost predicate WaveOf(wave: seq<(Seat, Outcome)>, seats: seq<Seat>) {
    && |wave| == |seats| && (forall k | 0 <= k < |seats| :: wave[k].0 == seats[k])
    && forall w | w in wave :: ParsedOpen(w.1)
  }

  /** A record newly archived as accepted was accepted by a reviewer answering the latest proposal. */
  lemma AcceptedOnlyByAnswer(p: Policy, book: Book, round: RoundId, head: string, wave: seq<(Seat, Outcome)>, seats: seq<Seat>, r: ArchivedFinding)
    returns (d: Disposition)
    requires ReadsIdentity(p.key) && p.WorkerIsWorker() && SoundBook(book) && Agree(p, seats, book.dispositions) && WaveOf(wave, seats)
    requires Persisted(p, book, round, head, wave).Ok?
    requires r in Persisted(p, book, round, head, wave).value.archived && r !in book.archived && r.status.Accepted?
    ensures d in Persisted(p, book, round, head, wave).value.dispositions && Answered(p, book.dispositions, d, r.findingId)
  {
    var c, proposals := ConcludedShape(p, book, round, head, wave);
    ConcludedShaped(p, book, round, head, wave, c);
    var (findings, decisions) := Concluded(p, book, round, head, wave).value;
    ArchiveMerged(book.archived, book.archived + Records(findings));
    ArchivedFrom(findings, AcceptedIds(c.decisions), r);
    d :| d in c.decisions && d.action.Accept? && d.findingId == r.findingId;
    AcceptanceAnswers(p, book, round, head, wave, seats, proposals, d);
    MergeAppends(book.dispositions, decisions);
  }

  // ----- Runs --------------------------------------------------------------

  ghost predicate ParsedStep(step: Step) {
    step.Persist? ==> forall o | o in step.outcomes :: ParsedOpen(o)
  }

  lemma ZippedWave(seats: seq<Seat>, outcomes: seq<Outcome>)
    requires forall o | o in outcomes :: ParsedOpen(o)
    ensures WaveOf(Zipped(seats, outcomes), seats)
  {
    var w := Zipped(seats, outcomes);
    forall x | x in w
      ensures ParsedOpen(x.1)
    {
      var i :| 0 <= i < |w| && w[i] == x;
      assert i < |outcomes| ==> outcomes[i] in outcomes;
    }
  }

  lemma FilterShaped(s: seq<Finding>, keep: Finding -> bool, ok: Shape)
    requires AllShaped(s, ok)
    ensures AllShaped(Filter(s, keep), ok)
  {
  }

  lemma ActiveUnaccepted(s: seq<Finding>, ids: set<string>)
    requires AllShaped(s, AcceptedOnly(ids))
    ensures AllShaped(Active(s), AcceptedOnly({}))
  {
    forall f | f in Active(s)
      ensures AcceptedOnly({})(f)
    {
      assert !Archivable(f);
    }
  }

  lemma PersistedSound(p: Policy, book: Book, round: RoundId, head: string, wave: seq<(Seat, Outcome)>)
    requires ReadsIdentity(p.key) && SoundBook(book) && Persisted(p, book, round, head, wave).Ok?
    requires forall w | w in wave :: ParsedOpen(w.1)
    ensures SoundBook(Persisted(p, book, round, head, wave).value)
  {
    var c, proposals := ConcludedShape(p, book, round, head, wave);
    ConcludedShaped(p, book, round, head, wave, c);
    var (findings, decisions) := Concluded(p, book, round, head, wave).value;
    var archived := book.archived + Records(findings);
    var keep := (f: Finding) => f.id !in ArchivedIds(archived);
    GroupedIds(p.group, c.findings);
    var g := Grouped(p.group, c.findings);
    assert UniqueIds(g) && UniqueIds(DeferredUpTo(g, |g|));
    FilterUnique(findings, (f: Finding) => !Archivable(f));
    FilterUnique(Active(findings), keep);
    ActiveUnaccepted(findings, AcceptedIds(c.decisions));
    FilterShaped(Active(findings), keep, AcceptedOnly({}));
    FilterShaped(findings, (f: Finding) => !Archivable(f), MINOR);
    FilterShaped(Active(findings), keep, MINOR);
  }

  lemma GroupedIds(group: Grouping, s: seq<Finding>)
    ensures SameIds(s, Grouped(group, s))
  {
  }

  lemma PersistedAgrees(p: Policy, book: Book, round: RoundId, head: string, wave: seq<(Seat, Outcome)>, seats: seq<Seat>)
    requires ReadsIdentity(p.key) && p.WorkerIsWorker() && SoundBook(book) && Persisted(p, book, round, head, wave).Ok?
    requires WaveOf(wave, seats) && Agree(p, seats, book.dispositions) && ReviewersAsked(p, seats)
    ensures Agree(p, seats, Persisted(p, book, round, head, wave).value.dispositions)
  {
    var c, proposals := ConcludedShape(p, book, round, head, wave);
    var (findings, decisions) := Concluded(p, book, round, head, wave).value;
    var history := MergeDispositions(book.dispositions, decisions).value;
    forall s, a | s in seats && a in s.requests && Latest(history, a.0).Some? && IsProposal(p, Latest(history, a.0).value)
      ensures a.1 == Latest(history, a.0).value.roundId
    {
      LatestMerged(book.dispositions, decisions, a.0);
      var l := Latest(history, a.0).value;
      if l in decisions {
        if l in c.decisions {
          CollectedDecisions(p, round, head, ArchivedIds(book.archived), proposals, book.findings, wave, l);
        }
        DecisionIsNoProposal(p, round, wave, seats, l);
      }
    }
  }

  lemma StepKeeps(p: Policy, desk: Desk, step: Step)
    requires ReadsIdentity(p.key) && p.WorkerIsWorker() && Inv(p, desk) && ParsedStep(step)
    ensures Inv(p, Next(p, desk, step))
  {
    match step
    case Propose(round, ds) =>
    case PlanWave(round, head) =>
      if desk.stage.NoWave? && Planned(p, desk.book).Ok? {
        PlannedSeatsAgree(p, p.reviewers, Grouped(p.group, desk.book.findings), desk.book);
      }
    case Persist(outcomes) =>
      if desk.stage.Waved? {
        var wave := Zipped(desk.stage.seats, outcomes);
        ZippedWave(desk.stage.seats, outcomes);
        if Persisted(p, desk.book, desk.stage.round, desk.stage.head, wave).Ok? {
          PersistedSound(p, desk.book, desk.stage.round, desk.stage.head, wave);
          PersistedAgrees(p, desk.book, desk.stage.round, desk.stage.head, wave, desk.stage.seats);
        }
      }
    case Report =>
  }

  lemma {:induction false} RunKeeps(p: Policy, desk: Desk, steps: seq<Step>)
    requires ReadsIdentity(p.key) && p.WorkerIsWorker() && Inv(p, desk) && forall s | s in steps :: ParsedStep(s)
    ensures Inv(p, Run(p, desk, steps))
    decreases |steps|
  {
    if steps != [] {
      assert steps[0] in steps && forall s | s in steps[1..] :: s in steps;
      StepKeeps(p, desk, steps[0]);
      RunKeeps(p, Next(p, desk, steps[0]), steps[1..]);
    }
  }

  /**
    In every reachable run, whatever workers and reviewers answer and wherever it was interrupted,
    a step archives a finding as accepted only on a reviewer's acceptance that names the exact
    round of the worker's latest unanswered fix or rebuttal in this run.
  */
  lemma AcceptedOnlyAsProposed(p: Policy, desk: Desk, steps: seq<Step>, step: Step, r: ArchivedFinding) returns (d: Disposition)
    requires ReadsIdentity(p.key) && p.WorkerIsWorker() && SoundBook(desk.book) && desk.stage.NoWave?
    requires (forall s | s in steps :: ParsedStep(s)) && ParsedStep(step)
    requires r.status.Accepted?
    requires var before := Run(p, desk, steps); r in Next(p, before, step).book.archived && r !in before.book.archived
    ensures var before := Run(p, desk, steps);
            d in Next(p, before, step).book.dispositions && Answered(p, before.book.dispositions, d, r.findingId)
  {
    RunKeeps(p, desk, steps);
    var before := Run(p, desk, steps);
    var wave := Zipped(before.stage.seats, step.outcomes);
    ZippedWave(before.stage.seats, step.outcomes);
    d := AcceptedOnlyByAnswer(p, before.book, before.stage.round, before.stage.head, wave, before.stage.seats, r);
  }

  /** Workers, planning and reporting never touch findings or the archive: only a collected wave settles. */
  lemma OnlyWavesSettle(p: Policy, desk: Desk, step: Step)
    requires !step.Persist?
    ensures Next(p, desk, step).book.findings == desk.book.findings && Next(p, desk, step).book.archived == desk.book.archived
  {
  }

  /** The history only grows. */
  lemma HistoryGrows(p: Policy, desk: Desk, step: Step)
    ensures desk.book.dispositions <= Next(p, desk, step).book.dispositions
  {
    match step
    case Propose(round, ds) =>
      if desk.stage.NoWave? && Proposed(p, desk.book, round, ds).Ok? {
        MergeAppends(desk.book.dispositions, WithThreads(desk.book.findings, ds));
      }
    case Persist(outcomes) =>
      if desk.stage.Waved? {
        var wave := Zipped(desk.stage.seats, outcomes);
        if Persisted(p, desk.book, desk.stage.round, desk.stage.head, wave).Ok? {
          MergeAppends(desk.book.dispositions, Concluded(p, desk.book, desk.stage.round, desk.stage.head, wave).value.1);
        }
      }
    case _ =>
  }

  /** With the registry's own key and grouping: nothing newly deferred contradicts another finding. */
  lemma DeferredIsUncontested(p: Policy, h: Digest, digest: Digest, book: Book, round: RoundId, head: string, wave: seq<(Seat, Outcome)>, i: nat)
    requires p.key == KeyBy(h) && forall s, f :: p.group(s, f) == GroupOf(digest, Contradicts, s, f)
    requires UniqueIds(book.findings) && Concluded(p, book, round, head, wave).Ok?
    requires i < |Concluded(p, book, round, head, wave).value.0|
    ensures var c := Collect(p, round, head, ArchivedIds(book.archived), Pending(p, book.findings, book.dispositions).value, book.findings, wave);
            |c.findings| == |Concluded(p, book, round, head, wave).value.0| &&
            (Concluded(p, book, round, head, wave).value.0[i].status.Deferred? && !c.findings[i].status.Deferred? ==>
               !InConflict(Contradicts, c.findings, c.findings[i]))
  {
    KeyByReadsIdentity(h);
    OnlyMinorIsDeferred(p, book, round, head, wave, i);
  }

  // ----- Every proposal is decided -----------------------------------------

  lemma {:induction false} RequestsCover(p: Policy, lane: string, todo: seq<Finding>, findings: seq<Finding>, ds: seq<Disposition>,
                                         proposals: map<string, Disposition>, f: Finding)
    requires Requests(p, lane, todo, findings, ds, proposals).Ok? && f in todo && f.id in proposals
    ensures Adjudicator(p, f, findings, ds).Ok?
    ensures Adjudicator(p, f, findings, ds) == Ok(lane) ==>
              (f.id, proposals[f.id].roundId) in Requests(p, lane, todo, findings, ds, proposals).value
  {
    if f != todo[0] {
      assert f in todo[1..];
      RequestsCover(p, lane, todo[1..], findings, ds, proposals, f);
    }
  }

  lemma {:induction false} SeatsCover(p: Policy, lanes: seq<string>, findings: seq<Finding>, ds: seq<Disposition>,
                                      proposals: map<string, Disposition>, f: Finding) returns (k: nat)
    requires PlanSeats(p, lanes, findings, ds, proposals).Ok? && f in findings && f.id in proposals
    requires Adjudicator(p, f, findings, ds).Ok? && Adjudicator(p, f, findings, ds).value in lanes
    ensures var seats := PlanSeats(p, lanes, findings, ds, proposals).value;
            k < |seats| && (f.id, proposals[f.id].roundId) in seats[k].requests
  {
    RequestsCover(p, lanes[0], findings, findings, ds, proposals, f);
    if Adjudicator(p, f, findings, ds).value == lanes[0] {
      k := 0;
    } else {
      k := SeatsCover(p, lanes[1..], findings, ds, proposals, f);
      k := k + 1;
    }
  }

  lemma UsableAnswers(p: Policy, round: RoundId, head: string, archived: set<string>, proposals: map<string, Disposition>,
                      findings: seq<Finding>, seat: Seat, outcome: Outcome, a: Ask) returns (d: Disposition)
    requires a in seat.requests && Consume(p, round, head, archived, proposals, findings, seat, outcome).usable
    ensures d in Consume(p, round, head, archived, proposals, findings, seat, outcome).decisions && (d.findingId, d.responseTo) == a
  {
    var ds := outcome.dispositions;
    SameElements(Answers(ds), seat.requests);
    var i :| 0 <= i < |ds| && Answers(ds)[i] == a;
    d := ds[i];
  }

  lemma CollectLast(p: Policy, round: RoundId, head: string, archived: set<string>, proposals: map<string, Disposition>,
                    findings: seq<Finding>, wave: seq<(Seat, Outcome)>, before: Consumed, last: Consumed)
    requires wave != []
    requires before == Collect(p, round, head, archived, proposals, findings, wave[..|wave| - 1])
    requires last == Consume(p, round, head, archived, proposals, before.findings, wave[|wave| - 1].0, wave[|wave| - 1].1)
    ensures Collect(p, round, head, archived, proposals, findings, wave)
         == Consumed(last.findings, before.decisions + last.decisions, before.usable && last.usable)
    ensures forall d | d in before.decisions || d in last.decisions :: d in before.decisions + last.decisions
  {
  }

  /** Earlier seats' decisions stay, and a complete wave is complete up to each seat. */
  lemma {:induction false} CollectGrows(p: Policy, round: RoundId, head: string, archived: set<string>, proposals: map<string, Disposition>,
                                        findings: seq<Finding>, wave: seq<(Seat, Outcome)>, m: nat)
    requires m <= |wave|
    ensures Collect(p, round, head, archived, proposals, findings, wave[..m]).decisions <= Collect(p, round, head, archived, proposals, findings, wave).decisions
    ensures Collect(p, round, head, archived, proposals, findings, wave).usable ==> Collect(p, round, head, archived, proposals, findings, wave[..m]).usable
    decreases |wave|
  {
    if m == |wave| {
      assert wave[..m] == wave;
    } else {
      var n := |wave| - 1;
      assert wave[..n][..m] == wave[..m];
      CollectGrows(p, round, head, archived, proposals, findings, wave[..n], m);
      var before := Collect(p, round, head, archived, proposals, findings, wave[..n]);
      var last := Consume(p, round, head, archived, proposals, before.findings, wave[n].0, wave[n].1);
      CollectLast(p, round, head, archived, proposals, findings, wave, before, last);
      PrefixExtends(Collect(p, round, head, archived, proposals, findings, wave[..m]).decisions, before.decisions, last.decisions);
    }
  }

  lemma LastSeatAnswers(p: Policy, round: RoundId, head: string, archived: set<string>, proposals: map<string, Disposition>,
                        findings: seq<Finding>, wave: seq<(Seat, Outcome)>, a: Ask) returns (d: Disposition)
    requires wave != [] && a in wave[|wave| - 1].0.requests && Collect(p, round, head, archived, proposals, findings, wave).usable
    ensures d in Collect(p, round, head, archived, proposals, findings, wave).decisions && (d.findingId, d.responseTo) == a
  {
    var n := |wave| - 1;
    var before := Collect(p, round, head, archived, proposals, findings, wave[..n]);
    var last := Consume(p, round, head, archived, proposals, before.findings, wave[n].0, wave[n].1);
    CollectLast(p, round, head, archived, proposals, findings, wave, before, last);
    d := UsableAnswers(p, round, head, archived, proposals, before.findings, wave[n].0, wave[n].1, a);
  }

  lemma UsablePrefix(p: Policy, round: RoundId, head: string, archived: set<string>, proposals: map<string, Disposition>,
                     findings: seq<Finding>, wave: seq<(Seat, Outcome)>, k: nat, a: Ask) returns (d: Disposition)
    requires k < |wave| && a in wave[k].0.requests && Collect(p, round, head, archived, proposals, findings, wave).usable
    ensures d in Collect(p, round, head, archived, proposals, findings, wave).decisions && (d.findingId, d.responseTo) == a
  {
    var upTo := wave[..k + 1];
    CollectGrows(p, round, head, archived, proposals, findings, wave, k + 1);
    d := LastSeatAnswers(p, round, head, archived, proposals, findings, upTo, a);
    PrefixKeeps(Collect(p, round, head, archived, proposals, findings, upTo).decisions,
                Collect(p, round, head, archived, proposals, findings, wave).decisions, d);
  }

  lemma PrefixExtends(s: seq<Disposition>, t: seq<Disposition>, more: seq<Disposition>)
    requires s <= t
    ensures s <= t + more
  {
  }

  lemma PrefixKeeps(s: seq<Disposition>, t: seq<Disposition>, d: Disposition)
    requires s <= t && d in s
    ensures d in t
  {
  }

  /** After a complete planned wave, every pending proposal has an answer naming its round. */
  lemma CompleteWaveDecidesAll(p: Policy, book: Book, round: RoundId, head: string, wave: seq<(Seat, Outcome)>, id: string) returns (d: Disposition)
    requires p.reviewers != []
    requires Pending(p, book.findings, book.dispositions).Ok? && Planned(p, book).Ok? && WaveOf(wave, Planned(p, book).value)
    requires var proposals := Pending(p, book.findings, book.dispositions).value;
             id in proposals
             && Collect(p, round, head, ArchivedIds(book.archived), proposals, book.findings, wave).usable
    ensures var proposals := Pending(p, book.findings, book.dispositions).value;
            && d in Collect(p, round, head, ArchivedIds(book.archived), proposals, book.findings, wave).decisions
            && d.findingId == id && d.responseTo == proposals[id].roundId && d.responseTo.Some?
  {
    var proposals := Pending(p, book.findings, book.dispositions).value;
    var g := Grouped(p.group, book.findings);
    var f :| f in book.findings && Awaiting(f, book.dispositions) && f.id == id;
    var i :| 0 <= i < |book.findings| && book.findings[i] == f;
    assert g[i].id == id && g[i] in g;
    PendingAreProposals(p, book.findings, book.dispositions, id);
    PlannedAdjudicators(p, p.reviewers, g, book.dispositions, proposals, g[i]);
    AdjudicatorIsIndependent(p, g[i], g, book.dispositions);
    var k := SeatsCover(p, p.reviewers, g, book.dispositions, proposals, g[i]);
    d := UsablePrefix(p, round, head, ArchivedIds(book.archived), proposals, book.findings, wave, k, (id, proposals[id].roundId));
  }

  /** Planning any lane computes the adjudicator of every pending finding. */
  lemma PlannedAdjudicators(p: Policy, lanes: seq<string>, findings: seq<Finding>, ds: seq<Disposition>, proposals: map<string, Disposition>, f: Finding)
    requires PlanSeats(p, lanes, findings, ds, proposals).Ok? && lanes != [] && f in findings && f.id in proposals
    ensures Adjudicator(p, f, findings, ds).Ok?
  {
    RequestsCover(p, lanes[0], findings, findings, ds, proposals, f);
  }
}
