/**
  Why a complete wave leaves no proposal pending: every pending proposal is put to a seat, a
  usable seat answers all it was asked, and an answer given in a round of its own becomes the
  latest decision on its finding, also when the wave was interrupted and is persisted again.
*/
module Answering {
  import opened Wrappers
  import opened Sorting
  import opened Domain
  import opened Findings
  import opened Deduplication
  import opened Settlement
  import opened Adjudication

  // ----- Findings through one wave -----------------------------------------

  /** `t` goes on from `s`: same ids in place, nothing reopened, and what is added is not archived. */
  ghost predicate Continues(s: seq<Finding>, t: seq<Finding>, archived: set<string>) {
    && |s| <= |t|
    && (forall i | 0 <= i < |s| :: t[i].id == s[i].id && (t[i].status.Open? ==> s[i].status.Open?))
    && (forall i | |s| <= i < |t| :: t[i].id !in archived)
  }

  lemma ContinuesTransitive(s: seq<Finding>, t: seq<Finding>, u: seq<Finding>, archived: set<string>)
    requires Continues(s, t, archived) && Continues(t, u, archived)
    ensures Continues(s, u, archived)
  {
  }

  lemma AcceptContinues(s: seq<Finding>, requireReply: bool, q: Settlement.Request, archived: set<string>)
    requires q.action.Accept? && Settled(s, requireReply, q).Ok?
    ensures Continues(s, Settled(s, requireReply, q).value.0, archived)
  {
    SettledShape(s, requireReply, q);
  }

  lemma {:induction false} DecisionsContinue(p: Policy, s: seq<Finding>, ds: seq<Disposition>, proposals: map<string, Disposition>, archived: set<string>)
    requires ApplyDecisions(p, s, ds, proposals).Ok?
    ensures Continues(s, ApplyDecisions(p, s, ds, proposals).value, archived)
    decreases |ds|
  {
    if ds != [] {
      var n := |ds| - 1;
      DecisionsContinue(p, s, ds[..n], proposals, archived);
      var before := ApplyDecisions(p, s, ds[..n], proposals).value;
      if ds[n].action.Accept? {
        var q := Settlement.Request(ds[n].findingId, Accept, ds[n].rationale, ds[n].decidedBy, None, Some(proposals[ds[n].findingId].rationale));
        AcceptContinues(before, p.requireReply, q, archived);
        ContinuesTransitive(s, before, Settled(before, p.requireReply, q).value.0, archived);
      }
    }
  }

  lemma MergedStays(e: Finding, x: Finding)
    ensures Merge([e, x], e).id == e.id && Merge([e, x], e).status == e.status
  {
  }

  lemma UpdateContinues(s: seq<Finding>, i: nat, m: Finding, archived: set<string>)
    requires i < |s| && m.id == s[i].id && m.status == s[i].status
    ensures Continues(s, s[i := m], archived)
  {
  }

  lemma AppendContinues(s: seq<Finding>, f: Finding, archived: set<string>)
    requires f.id !in archived
    ensures Continues(s, s + [f], archived)
  {
  }

  lemma ReportContinues(key: KeyFn, s: seq<Finding>, f: Finding, archived: set<string>)
    requires Reconciled(key, s, f).Ok? && f.id !in archived
    ensures Continues(s, Reconciled(key, s, f).value, archived)
  {
    var i := FindKey(key, s, key(f).value, 0);
    if i == |s| {
      AppendContinues(s, f.Seeded(), archived);
    } else {
      MergedStays(s[i], f.Seeded());
      UpdateContinues(s, i, Merge([s[i], f.Seeded()], s[i]), archived);
    }
  }

  lemma {:induction false} ReportsContinue(p: Policy, s: seq<Finding>, archived: set<string>, reports: seq<Finding>)
    requires ApplyFindings(p, s, archived, reports).Ok?
    ensures Continues(s, ApplyFindings(p, s, archived, reports).value, archived)
    decreases |reports|
  {
    if reports != [] {
      var n := |reports| - 1;
      ReportsContinue(p, s, archived, reports[..n]);
      var before := ApplyFindings(p, s, archived, reports[..n]).value;
      ReportContinues(p.key, before, reports[n], archived);
      ContinuesTransitive(s, before, Reconciled(p.key, before, reports[n]).value, archived);
    }
  }

  lemma ConsumeContinues(p: Policy, round: RoundId, head: string, archived: set<string>, proposals: map<string, Disposition>,
                         findings: seq<Finding>, seat: Seat, outcome: Outcome)
    ensures Continues(findings, Consume(p, round, head, archived, proposals, findings, seat, outcome).findings, archived)
  {
    var c := Consume(p, round, head, archived, proposals, findings, seat, outcome);
    if c.usable {
      var decided := ApplyDecisions(p, findings, outcome.dispositions, proposals).value;
      DecisionsContinue(p, findings, outcome.dispositions, proposals, archived);
      ReportsContinue(p, decided, archived, outcome.findings);
      ContinuesTransitive(findings, decided, c.findings, archived);
    }
  }

  lemma {:induction false} CollectContinues(p: Policy, round: RoundId, head: string, archived: set<string>, proposals: map<string, Disposition>,
                                            findings: seq<Finding>, wave: seq<(Seat, Outcome)>)
    ensures Continues(findings, Collect(p, round, head, archived, proposals, findings, wave).findings, archived)
    decreases |wave|
  {
    if wave != [] {
      var n := |wave| - 1;
      CollectContinues(p, round, head, archived, proposals, findings, wave[..n]);
      var before := Collect(p, round, head, archived, proposals, findings, wave[..n]);
      var last := Consume(p, round, head, archived, proposals, before.findings, wave[n].0, wave[n].1);
      ConsumeContinues(p, round, head, archived, proposals, before.findings, wave[n].0, wave[n].1);
      CollectLast(p, round, head, archived, proposals, findings, wave, before, last);
      ContinuesTransitive(findings, before.findings, last.findings, archived);
    }
  }

  // ----- The latest decision after a merge ---------------------------------

  lemma LatestAppended(ds: seq<Disposition>, d: Disposition, id: string)
    ensures Latest(ds + [d], id) == if d.findingId == id then Some(d) else Latest(ds, id)
  {
    assert (ds + [d])[..|ds|] == ds;
  }

  /** A decision whose round the history does not hold for its finding makes the latest one current. */
  lemma {:induction false} NewRoundBecomesLatest(existing: seq<Disposition>, current: seq<Disposition>, d: Disposition)
    requires MergeDispositions(existing, current).Ok? && d in current
    requires forall e | e in existing && e.findingId == d.findingId :: e.roundId != d.roundId
    ensures var l := Latest(MergeDispositions(existing, current).value, d.findingId); l.Some? && l.value in current
    decreases |current|
  {
    var n := |current| - 1;
    var merged := MergeDispositions(existing, current[..n]).value;
    assert current == current[..n] + [current[n]];
    LatestAppended(merged, current[n], d.findingId);
    if x :| x in current[..n] && x.findingId == d.findingId && x.roundId == d.roundId {
      NewRoundBecomesLatest(existing, current[..n], x);
    } else {
      assert d == current[n];
      MergeIsUnion(existing, current[..n]);
      assert !exists e | e in merged :: SameDecisionKey(d, e);
    }
  }

  // ----- What holds of a book and of a wave over it ------------------------

  ghost function KnownIds(book: Book): set<string> {
    IdSet(book.findings) + ArchivedIds(book.archived)
  }

  /** Decisions are about findings the book still knows. */
  ghost predicate Grounded(book: Book) {
    UniqueIds(book.findings) && forall d | d in book.dispositions :: d.findingId in KnownIds(book)
  }

  /** Requests name a round and a known finding. */
  ghost predicate AsksKnown(seats: seq<Seat>, book: Book) {
    forall s, a | s in seats && a in s.requests :: a.1.Some? && a.0 in KnownIds(book)
  }

  /** Every pending proposal is put to some seat. */
  ghost predicate Covered(p: Policy, seats: seq<Seat>, book: Book) {
    var pending := Pending(p, book.findings, book.dispositions);
    pending.Ok? && forall id | id in pending.value :: exists s | s in seats :: (id, pending.value[id].roundId) in s.requests
  }

  /** No finding with a pending proposal was decided in the round. */
  ghost predicate Untouched(book: Book, round: RoundId) {
    forall f, d | f in book.findings && Awaiting(f, book.dispositions) && d in book.dispositions && d.findingId == f.id ::
      d.roundId != Some(round)
  }

  ghost predicate WaveReady(p: Policy, seats: seq<Seat>, book: Book, round: RoundId) {
    AsksKnown(seats, book) && Covered(p, seats, book) && Untouched(book, round)
  }

  ghost predicate NewRound(book: Book, round: RoundId) {
    forall d | d in book.dispositions :: d.roundId != Some(round)
  }

  // ----- One wave ----------------------------------------------------------

  /** The decision lets a finding of the list go. */
  ghost predicate LetsGo(todo: seq<Finding>, d: Disposition) {
    exists f | f in todo :: LetGo(f) && d.findingId == f.id
  }

  lemma DeferralName(s: seq<Finding>, requireReply: bool, id: string)
    requires Settled(s, requireReply, Deferral(id)).Ok?
    ensures Settled(s, requireReply, Deferral(id)).value.1.findingId == id
  {
    SettledShape(s, requireReply, Deferral(id));
  }

  lemma LetsGoLonger(todo: seq<Finding>, f: Finding, d: Disposition)
    requires LetsGo(todo, d) || (LetGo(f) && d.findingId == f.id)
    ensures LetsGo(todo + [f], d)
  {
    if LetsGo(todo, d) {
      var h :| h in todo && LetGo(h) && d.findingId == h.id;
      assert h in todo + [f];
    } else {
      assert f in todo + [f];
    }
  }

  /** The last finding of the list adds its own deferral, or nothing. */
  lemma DeferLast(p: Policy, round: RoundId, g: seq<Finding>, todo: seq<Finding>, last: Finding)
    requires todo != [] && last == todo[|todo| - 1] && Defer(p, round, g, todo).Ok?
    ensures Defer(p, round, g, todo[..|todo| - 1]).Ok?
    ensures var ds, before := Defer(p, round, g, todo).value.1, Defer(p, round, g, todo[..|todo| - 1]).value.1;
            ds == before ||
            (LetGo(last) && |ds| == |before| + 1 && ds[..|before|] == before
             && ds[|before|].findingId == last.id && ds[|before|].roundId == Some(round))
  {
    if LetGo(last) {
      DeferralName(Defer(p, round, g, todo[..|todo| - 1]).value.0, p.requireReply, last.id);
    }
  }

  /** Each deferral names a finding it lets go, in the round. */
  lemma {:induction false} DeferralsName(p: Policy, round: RoundId, g: seq<Finding>, todo: seq<Finding>)
    requires Defer(p, round, g, todo).Ok?
    ensures forall d | d in Defer(p, round, g, todo).value.1 :: LetsGo(todo, d) && d.roundId == Some(round)
    decreases |todo|
  {
    if todo != [] {
      var n := |todo| - 1;
      DeferLast(p, round, g, todo, todo[n]);
      DeferralsName(p, round, g, todo[..n]);
      assert todo == todo[..n] + [todo[n]];
      var before := Defer(p, round, g, todo[..n]).value.1;
      forall d | d in Defer(p, round, g, todo).value.1
        ensures LetsGo(todo, d) && d.roundId == Some(round)
      {
        assert d in before || (LetGo(todo[n]) && d.findingId == todo[n].id);
        LetsGoLonger(todo[..n], todo[n], d);
      }
    }
  }

  /** What one wave hands on: the collected findings grouped and deferred, and whose decisions it merges. */
  lemma WaveParts(p: Policy, book: Book, round: RoundId, head: string, wave: seq<(Seat, Outcome)>) returns (c: Consumed, g: seq<Finding>)
    requires ReadsIdentity(p.key) && UniqueIds(book.findings) && Concluded(p, book, round, head, wave).Ok?
    ensures Pending(p, book.findings, book.dispositions).Ok?
    ensures c == Collect(p, round, head, ArchivedIds(book.archived), Pending(p, book.findings, book.dispositions).value, book.findings, wave)
    ensures SameIds(c.findings, g) && UniqueIds(g) && Continues(book.findings, g, ArchivedIds(book.archived))
    ensures Concluded(p, book, round, head, wave).value.0 == DeferredUpTo(g, |g|)
    ensures forall d | d in Concluded(p, book, round, head, wave).value.1 ::
              d in c.decisions || LetsGo(g, d)
    ensures forall d | d in c.decisions :: d in Concluded(p, book, round, head, wave).value.1
  {
    var proposals;
    c, proposals := ConcludedShape(p, book, round, head, wave);
    g := Grouped(p.group, c.findings);
    CollectContinues(p, round, head, ArchivedIds(book.archived), proposals, book.findings, wave);
    ContinuesTransitive(book.findings, c.findings, g, ArchivedIds(book.archived));
    DeferralsName(p, round, g, g);
  }

  /** A finding still open after the wave: where it comes from, and that it was not let go. */
  lemma StillOpen(book: Book, g: seq<Finding>, f: Finding) returns (i: nat)
    requires UniqueIds(g) && Continues(book.findings, g, ArchivedIds(book.archived))
    requires f in DeferredUpTo(g, |g|) && f.status.Open?
    ensures i < |g| && g[i].id == f.id && g[i].status.Open? && !LetGo(g[i])
    ensures forall h | h in g && h.id == f.id :: h == g[i]
    ensures i < |book.findings| ==> book.findings[i].id == f.id && book.findings[i].status.Open?
    ensures i >= |book.findings| ==> f.id !in KnownIds(book)
  {
    i :| 0 <= i < |g| && DeferredUpTo(g, |g|)[i] == f;
  }

  /** A collected decision answers a request, in the round, about a known finding. */
  lemma AnswersRequest(p: Policy, round: RoundId, head: string, archived: set<string>, proposals: map<string, Disposition>,
                       book: Book, wave: seq<(Seat, Outcome)>, seats: seq<Seat>, d: Disposition)
    requires AsksKnown(seats, book) && WaveOf(wave, seats)
    requires d in Collect(p, round, head, archived, proposals, book.findings, wave).decisions
    ensures d.responseTo.Some? && d.roundId == Some(round) && d.findingId in KnownIds(book)
  {
    CollectedDecisions(p, round, head, archived, proposals, book.findings, wave, d);
    var k :| 0 <= k < |wave| && GivenBy(p, round, wave[k].0, d);
    assert seats[k] in seats && (d.findingId, d.responseTo) in seats[k].requests;
  }

  /**
    A finding that still awaits a decision after the wave awaited the same one before it, and
    the wave decided nothing about it.
  */
  lemma StillAwaiting(p: Policy, book: Book, round: RoundId, head: string, wave: seq<(Seat, Outcome)>, seats: seq<Seat>, f: Finding)
    returns (before: Finding)
    requires ReadsIdentity(p.key) && Grounded(book) && WaveReady(p, seats, book, round) && WaveOf(wave, seats)
    requires Persisted(p, book, round, head, wave).Ok?
    requires f in Persisted(p, book, round, head, wave).value.findings && Awaiting(f, Persisted(p, book, round, head, wave).value.dispositions)
    ensures before in book.findings && before.id == f.id && Awaiting(before, book.dispositions)
    ensures Latest(Persisted(p, book, round, head, wave).value.dispositions, f.id) == Latest(book.dispositions, f.id)
    ensures forall d | d in Concluded(p, book, round, head, wave).value.1 :: d.findingId != f.id
  {
    var c, g := WaveParts(p, book, round, head, wave);
    var (findings, decisions) := Concluded(p, book, round, head, wave).value;
    assert f in findings;
    var i := StillOpen(book, g, f);
    LatestMerged(book.dispositions, decisions, f.id);
    var l := Latest(MergeDispositions(book.dispositions, decisions).value, f.id).value;
    LatestIsAbout(MergeDispositions(book.dispositions, decisions).value, f.id);
    if l in decisions {
      if l in c.decisions {
        AnswersRequest(p, round, head, ArchivedIds(book.archived), Pending(p, book.findings, book.dispositions).value, book, wave, seats, l);
      }
      assert false;
    }
    LatestIsAbout(book.dispositions, f.id);
    before := book.findings[i];
    forall d | d in decisions
      ensures d.findingId != f.id
    {
      if d.findingId == f.id {
        if d in c.decisions {
          AnswersRequest(p, round, head, ArchivedIds(book.archived), Pending(p, book.findings, book.dispositions).value, book, wave, seats, d);
          NewRoundBecomesLatest(book.dispositions, decisions, d);
        }
        assert false;
      }
    }
  }

  lemma {:induction false} LatestIsAbout(ds: seq<Disposition>, id: string)
    ensures Latest(ds, id).Some? ==> Latest(ds, id).value in ds && Latest(ds, id).value.findingId == id
  {
    if ds != [] && ds[|ds| - 1].findingId != id {
      LatestIsAbout(ds[..|ds| - 1], id);
    }
  }

  /** A usable wave decides something about every pending proposal. */
  lemma UsableDecides(p: Policy, book: Book, round: RoundId, head: string, wave: seq<(Seat, Outcome)>, seats: seq<Seat>,
                      proposals: map<string, Disposition>, id: string) returns (d: Disposition)
    requires Pending(p, book.findings, book.dispositions) == Ok(proposals) && Covered(p, seats, book) && WaveOf(wave, seats) && id in proposals
    requires Collect(p, round, head, ArchivedIds(book.archived), proposals, book.findings, wave).usable
    ensures d in Collect(p, round, head, ArchivedIds(book.archived), proposals, book.findings, wave).decisions && d.findingId == id
  {
    var s :| s in seats && (id, proposals[id].roundId) in s.requests;
    var k :| 0 <= k < |seats| && seats[k] == s;
    d := UsablePrefix(p, round, head, ArchivedIds(book.archived), proposals, book.findings, wave, k, (id, proposals[id].roundId));
  }

  lemma PendingHolds(p: Policy, findings: seq<Finding>, ds: seq<Disposition>, f: Finding)
    requires Pending(p, findings, ds).Ok? && f in findings && Awaiting(f, ds)
    ensures f.id in Pending(p, findings, ds).value
  {
    assert f.id in AwaitingIds(findings, ds);
  }

  lemma NothingAwaits(p: Policy, book: Book, round: RoundId, head: string, wave: seq<(Seat, Outcome)>, seats: seq<Seat>,
                      proposals: map<string, Disposition>, f: Finding)
    requires ReadsIdentity(p.key) && Grounded(book) && WaveReady(p, seats, book, round) && WaveOf(wave, seats)
    requires Persisted(p, book, round, head, wave).Ok? && Pending(p, book.findings, book.dispositions) == Ok(proposals)
    requires Collect(p, round, head, ArchivedIds(book.archived), proposals, book.findings, wave).usable
    requires f in Persisted(p, book, round, head, wave).value.findings
    ensures !Awaiting(f, Persisted(p, book, round, head, wave).value.dispositions)
  {
    if Awaiting(f, Persisted(p, book, round, head, wave).value.dispositions) {
      var before := StillAwaiting(p, book, round, head, wave, seats, f);
      PendingHolds(p, book.findings, book.dispositions, before);
      var d := UsableDecides(p, book, round, head, wave, seats, proposals, f.id);
      var c, g := WaveParts(p, book, round, head, wave);
      assert false;
    }
  }

  /** When every seat of the wave was usable, what it persists leaves no proposal pending. */
  lemma CompleteWaveLeavesNothing(p: Policy, book: Book, round: RoundId, head: string, wave: seq<(Seat, Outcome)>, seats: seq<Seat>,
                                  proposals: map<string, Disposition>, after: Book)
    requires ReadsIdentity(p.key) && Grounded(book) && WaveReady(p, seats, book, round) && WaveOf(wave, seats)
    requires Persisted(p, book, round, head, wave) == Ok(after) && Pending(p, book.findings, book.dispositions) == Ok(proposals)
    requires Collect(p, round, head, ArchivedIds(book.archived), proposals, book.findings, wave).usable
    ensures Pending(p, after.findings, after.dispositions) == Ok(map[])
  {
    forall f | f in after.findings
      ensures !Awaiting(f, after.dispositions)
    {
      NothingAwaits(p, book, round, head, wave, seats, proposals, f);
    }
    NobodyAwaits(p, after.findings, after.dispositions);
  }

  lemma NobodyAwaits(p: Policy, findings: seq<Finding>, ds: seq<Disposition>)
    requires forall f | f in findings :: !Awaiting(f, ds)
    ensures Pending(p, findings, ds) == Ok(map[])
  {
    assert AwaitingIds(findings, ds) == {};
  }

  // ----- Keeping waves ready -----------------------------------------------

  lemma {:induction false} PlannedCovers(p: Policy, lanes: seq<string>, g: seq<Finding>, book: Book, seats: seq<Seat>, proposals: map<string, Disposition>)
    requires Pending(p, book.findings, book.dispositions) == Ok(proposals)
    requires PlanSeats(p, lanes, g, book.dispositions, proposals) == Ok(seats)
    ensures AsksKnown(seats, book)
  {
    if lanes != [] {
      var rest := PlanSeats(p, lanes[1..], g, book.dispositions, proposals).value;
      PlannedCovers(p, lanes[1..], g, book, rest, proposals);
      RequestsNamePending(p, lanes[0], g, g, book.dispositions, proposals);
      var first := Requests(p, lanes[0], g, g, book.dispositions, proposals).value;
      forall s, a | s in seats && a in s.requests
        ensures a.1.Some? && a.0 in KnownIds(book)
      {
        if s != seats[0] {
          assert s in rest;
        } else {
          PendingAreProposals(p, book.findings, book.dispositions, a.0);
        }
      }
    }
  }

  lemma SeatFor(p: Policy, book: Book, seats: seq<Seat>, proposals: map<string, Disposition>, id: string) returns (s: Seat)
    requires Pending(p, book.findings, book.dispositions) == Ok(proposals) && Planned(p, book) == Ok(seats)
    requires p.reviewers != [] && id in proposals
    ensures s in seats && (id, proposals[id].roundId) in s.requests
  {
    var g := Grouped(p.group, book.findings);
    var f :| f in book.findings && Awaiting(f, book.dispositions) && f.id == id;
    var i :| 0 <= i < |book.findings| && book.findings[i] == f;
    assert g[i].id == id && g[i] in g;
    PlannedAdjudicators(p, p.reviewers, g, book.dispositions, proposals, g[i]);
    AdjudicatorIsIndependent(p, g[i], g, book.dispositions);
    var k := SeatsCover(p, p.reviewers, g, book.dispositions, proposals, g[i]);
    s := seats[k];
  }

  /** A wave planned for a round nothing was decided in yet is ready. */
  lemma PlannedIsReady(p: Policy, book: Book, round: RoundId, seats: seq<Seat>)
    requires p.reviewers != [] && NewRound(book, round) && Planned(p, book) == Ok(seats)
    ensures WaveReady(p, seats, book, round)
  {
    var proposals := Pending(p, book.findings, book.dispositions).value;
    PlannedCovers(p, p.reviewers, Grouped(p.group, book.findings), book, seats, proposals);
    forall id | id in proposals
      ensures exists s | s in seats :: (id, proposals[id].roundId) in s.requests
    {
      var s := SeatFor(p, book, seats, proposals, id);
    }
  }

  lemma AnswerIsKnown(p: Policy, book: Book, round: RoundId, ds: seq<Disposition>, i: nat)
    requires ValidDecisions(p, p.worker, Some(round), ProposalRequests(OpenFindings(book.findings)), ds) && i < |ds|
    ensures ds[i].findingId in IdSet(book.findings)
  {
    var open := OpenFindings(book.findings);
    SameElements(Answers(ds), ProposalRequests(open));
    assert Answers(ds)[i] in Answers(ds);
    var j :| 0 <= j < |open| && ProposalRequests(open)[j] == Answers(ds)[i];
    assert open[j] in book.findings;
  }

  /** The worker's answers are about findings the book knows. */
  lemma ProposedIsGrounded(p: Policy, book: Book, round: RoundId, ds: seq<Disposition>)
    requires Grounded(book) && Proposed(p, book, round, ds).Ok?
    ensures Grounded(Proposed(p, book, round, ds).value)
  {
    var proposals := WithThreads(book.findings, ds);
    MergeIsUnion(book.dispositions, proposals);
    forall d | d in proposals
      ensures d.findingId in KnownIds(book)
    {
      var i :| 0 <= i < |ds| && proposals[i] == d;
      AnswerIsKnown(p, book, round, ds, i);
    }
  }

  /** Whatever the wave persists, no id the book knew is forgotten. */
  lemma IdsStayKnown(p: Policy, book: Book, round: RoundId, head: string, wave: seq<(Seat, Outcome)>, g: seq<Finding>, id: string)
    requires ReadsIdentity(p.key) && UniqueIds(book.findings) && Persisted(p, book, round, head, wave).Ok?
    requires Concluded(p, book, round, head, wave).value.0 == DeferredUpTo(g, |g|)
    requires Continues(book.findings, g, ArchivedIds(book.archived))
    requires id in KnownIds(book) || exists f | f in g :: f.id == id
    ensures id in KnownIds(Persisted(p, book, round, head, wave).value)
  {
    var findings := Concluded(p, book, round, head, wave).value.0;
    var archived := book.archived + Records(findings);
    ArchiveMerged(book.archived, archived);
    CompactionConserves(findings);
    if id in ArchivedIds(book.archived) {
      var r :| r in book.archived && r.findingId == id;
      assert r in archived;
    } else {
      var i := PlaceOf(book, g, id);
      var f := findings[i];
      assert f in findings && f.id == id;
      if f in Active(findings) {
        assert f.id in ArchivedIds(archived) || f in Persisted(p, book, round, head, wave).value.findings;
      } else {
        assert Record(f) in archived && Record(f).findingId == id;
      }
      if id in ArchivedIds(archived) {
        var r :| r in archived && r.findingId == id;
      }
    }
  }

  lemma PlaceOf(book: Book, g: seq<Finding>, id: string) returns (i: nat)
    requires Continues(book.findings, g, ArchivedIds(book.archived))
    requires id in IdSet(book.findings) || exists f | f in g :: f.id == id
    ensures i < |g| && g[i].id == id
  {
    if id in IdSet(book.findings) {
      i :| 0 <= i < |book.findings| && book.findings[i].id == id;
    } else {
      var f :| f in g && f.id == id;
      i :| 0 <= i < |g| && g[i] == f;
    }
  }

  /** Persisting a wave, complete or not, keeps decisions grounded and the wave ready to be persisted again. */
  lemma PersistedKeepsReady(p: Policy, book: Book, round: RoundId, head: string, wave: seq<(Seat, Outcome)>, seats: seq<Seat>, after: Book)
    requires ReadsIdentity(p.key) && Grounded(book) && WaveReady(p, seats, book, round) && WaveOf(wave, seats)
    requires Persisted(p, book, round, head, wave) == Ok(after)
    ensures Grounded(after) && WaveReady(p, seats, after, round)
  {
    PersistedGrounded(p, book, round, head, wave, seats, after);
    PersistedCovered(p, book, round, head, wave, seats, after);
    PersistedUntouched(p, book, round, head, wave, seats, after);
  }

  /** Every id the book knows or the wave's decisions name. */
  ghost predicate Carried(book: Book, g: seq<Finding>, id: string) {
    id in KnownIds(book) || exists f | f in g :: f.id == id
  }

  lemma DecisionsCarried(p: Policy, book: Book, round: RoundId, head: string, wave: seq<(Seat, Outcome)>, seats: seq<Seat>,
                         proposals: map<string, Disposition>, g: seq<Finding>, decisions: seq<Disposition>, c: Consumed)
    requires AsksKnown(seats, book) && WaveOf(wave, seats)
    requires c == Collect(p, round, head, ArchivedIds(book.archived), proposals, book.findings, wave)
    requires forall d | d in decisions :: d in c.decisions || LetsGo(g, d)
    ensures forall d | d in decisions :: Carried(book, g, d.findingId)
  {
    forall d | d in c.decisions
      ensures d.findingId in KnownIds(book)
    {
      AnswersRequest(p, round, head, ArchivedIds(book.archived), proposals, book, wave, seats, d);
    }
  }

  lemma GroundedAfter(book: Book, g: seq<Finding>, decisions: seq<Disposition>, seats: seq<Seat>, after: Book)
    requires Grounded(book) && AsksKnown(seats, book) && UniqueIds(after.findings)
    requires forall id | Carried(book, g, id) :: id in KnownIds(after)
    requires forall d | d in decisions :: Carried(book, g, d.findingId)
    requires forall d | d in after.dispositions :: d in book.dispositions || d in decisions
    ensures Grounded(after) && AsksKnown(seats, after)
  {
    forall d | d in after.dispositions
      ensures d.findingId in KnownIds(after)
    {
      assert Carried(book, g, d.findingId);
    }
    forall s, a | s in seats && a in s.requests
      ensures a.1.Some? && a.0 in KnownIds(after)
    {
      assert Carried(book, g, a.0);
    }
  }

  lemma PersistedGrounded(p: Policy, book: Book, round: RoundId, head: string, wave: seq<(Seat, Outcome)>, seats: seq<Seat>, after: Book)
    requires ReadsIdentity(p.key) && Grounded(book) && AsksKnown(seats, book) && WaveOf(wave, seats)
    requires Persisted(p, book, round, head, wave) == Ok(after)
    ensures Grounded(after) && AsksKnown(seats, after)
  {
    var c, g := WaveParts(p, book, round, head, wave);
    var (findings, decisions) := Concluded(p, book, round, head, wave).value;
    MergeIsUnion(book.dispositions, decisions);
    forall id | Carried(book, g, id)
      ensures id in KnownIds(after)
    {
      IdsStayKnown(p, book, round, head, wave, g, id);
    }
    DecisionsCarried(p, book, round, head, wave, seats, Pending(p, book.findings, book.dispositions).value, g, decisions, c);
    AfterIsUnique(g, findings, book.archived + Records(findings), after);
    GroundedAfter(book, g, decisions, seats, after);
  }

  lemma AfterIsUnique(g: seq<Finding>, findings: seq<Finding>, archived: seq<ArchivedFinding>, after: Book)
    requires UniqueIds(g) && findings == DeferredUpTo(g, |g|)
    requires after.findings == Filter(Active(findings), (f: Finding) => f.id !in ArchivedIds(archived))
    ensures UniqueIds(after.findings)
  {
    assert UniqueIds(findings);
    FilterUnique(findings, (f: Finding) => !Archivable(f));
    FilterUnique(Active(findings), (f: Finding) => f.id !in ArchivedIds(archived));
  }

  lemma PersistedCovered(p: Policy, book: Book, round: RoundId, head: string, wave: seq<(Seat, Outcome)>, seats: seq<Seat>, after: Book)
    requires ReadsIdentity(p.key) && Grounded(book) && WaveReady(p, seats, book, round) && WaveOf(wave, seats)
    requires Persisted(p, book, round, head, wave) == Ok(after)
    ensures Covered(p, seats, after)
  {
    var proposals := Pending(p, book.findings, book.dispositions).value;
    forall f | f in after.findings && Awaiting(f, after.dispositions)
      ensures f.id in proposals && Latest(after.dispositions, f.id) == Some(proposals[f.id]) && IsProposal(p, proposals[f.id])
    {
      var before := StillAwaiting(p, book, round, head, wave, seats, f);
      PendingHolds(p, book.findings, book.dispositions, before);
      PendingAreProposals(p, book.findings, book.dispositions, f.id);
    }
    PendingWithin(p, after.findings, after.dispositions, proposals);
  }

  lemma PendingWithin(p: Policy, findings: seq<Finding>, ds: seq<Disposition>, proposals: map<string, Disposition>)
    requires forall f | f in findings && Awaiting(f, ds) ::
               f.id in proposals && Latest(ds, f.id) == Some(proposals[f.id]) && IsProposal(p, proposals[f.id])
    ensures Pending(p, findings, ds).Ok?
    ensures forall id | id in Pending(p, findings, ds).value :: id in proposals && Pending(p, findings, ds).value[id] == proposals[id]
  {
  }

  lemma PersistedUntouched(p: Policy, book: Book, round: RoundId, head: string, wave: seq<(Seat, Outcome)>, seats: seq<Seat>, after: Book)
    requires ReadsIdentity(p.key) && Grounded(book) && WaveReady(p, seats, book, round) && WaveOf(wave, seats)
    requires Persisted(p, book, round, head, wave) == Ok(after)
    ensures Untouched(after, round)
  {
    var decisions := Concluded(p, book, round, head, wave).value.1;
    MergeIsUnion(book.dispositions, decisions);
    forall f, d | f in after.findings && Awaiting(f, after.dispositions) && d in after.dispositions && d.findingId == f.id
      ensures d.roundId != Some(round)
    {
      var before := StillAwaiting(p, book, round, head, wave, seats, f);
      assert d in book.dispositions;
    }
  }

  // ----- Runs --------------------------------------------------------------

  ghost predicate DeskReady(p: Policy, desk: Desk) {
    && Grounded(desk.book)
    && (desk.stage.Waved? ==> WaveReady(p, desk.stage.seats, desk.book, desk.stage.round))
  }

  /** Every wave is planned under a round no recorded decision carries. */
  ghost predicate PlansNewRounds(p: Policy, desk: Desk, steps: seq<Step>)
    decreases |steps|
  {
    steps == [] ||
    ((steps[0].PlanWave? ==> NewRound(desk.book, steps[0].round)) && PlansNewRounds(p, Next(p, desk, steps[0]), steps[1..]))
  }

  lemma StepKeepsReady(p: Policy, desk: Desk, step: Step)
    requires ReadsIdentity(p.key) && p.reviewers != [] && DeskReady(p, desk) && ParsedStep(step)
    requires step.PlanWave? ==> NewRound(desk.book, step.round)
    ensures DeskReady(p, Next(p, desk, step))
  {
    match step
    case Propose(round, ds) =>
      if desk.stage.NoWave? && Proposed(p, desk.book, round, ds).Ok? {
        ProposedIsGrounded(p, desk.book, round, ds);
      }
    case PlanWave(round, head) =>
      if desk.stage.NoWave? && Planned(p, desk.book).Ok? {
        PlannedIsReady(p, desk.book, round, Planned(p, desk.book).value);
      }
    case Persist(outcomes) =>
      if desk.stage.Waved? {
        var wave := Zipped(desk.stage.seats, outcomes);
        var after := Persisted(p, desk.book, desk.stage.round, desk.stage.head, wave);
        ZippedWave(desk.stage.seats, outcomes);
        if after.Ok? {
          PersistedKeepsReady(p, desk.book, desk.stage.round, desk.stage.head, wave, desk.stage.seats, after.value);
        }
      }
    case Report =>
  }

  lemma {:induction false} RunKeepsReady(p: Policy, desk: Desk, steps: seq<Step>)
    requires ReadsIdentity(p.key) && p.reviewers != [] && DeskReady(p, desk) && PlansNewRounds(p, desk, steps)
    requires forall s | s in steps :: ParsedStep(s)
    ensures DeskReady(p, Run(p, desk, steps))
    decreases |steps|
  {
    if steps != [] {
      assert steps[0] in steps && forall s | s in steps[1..] :: s in steps;
      StepKeepsReady(p, desk, steps[0]);
      RunKeepsReady(p, Next(p, desk, steps[0]), steps[1..]);
    }
  }

  /**
    In every run whose waves are planned under new rounds, interrupted and repeated as it may
    be: whenever a wave whose seats were all usable is persisted, no proposal is pending.
  */
  lemma CompleteWavesDecideEverything(p: Policy, desk: Desk, steps: seq<Step>, outcomes: seq<Outcome>, v: Desk, after: Book)
    requires ReadsIdentity(p.key) && p.reviewers != [] && Grounded(desk.book) && desk.stage.NoWave?
    requires PlansNewRounds(p, desk, steps) && (forall s | s in steps :: ParsedStep(s)) && (forall o | o in outcomes :: ParsedOpen(o))
    requires v == Run(p, desk, steps) && v.stage.Waved?
    requires Persisted(p, v.book, v.stage.round, v.stage.head, Zipped(v.stage.seats, outcomes)) == Ok(after)
    requires Collect(p, v.stage.round, v.stage.head, ArchivedIds(v.book.archived), Pending(p, v.book.findings, v.book.dispositions).value,
                     v.book.findings, Zipped(v.stage.seats, outcomes)).usable
    ensures Pending(p, after.findings, after.dispositions) == Ok(map[])
  {
    RunKeepsReady(p, desk, steps);
    ZippedWave(v.stage.seats, outcomes);
    CompleteWaveLeavesNothing(p, v.book, v.stage.round, v.stage.head, Zipped(v.stage.seats, outcomes), v.stage.seats,
                              Pending(p, v.book.findings, v.book.dispositions).value, after);
  }

  // ----- Round numbers -----------------------------------------------------

  /** The number in a numbered turn; other names count as 0. */
  function Number(r: Option<RoundId>): nat {
    match r
    case Some(Response(n)) => n
    case Some(Review(n)) => n
    case _ => 0
  }

  /** The highest round number any decision carries. */
  function Decided(ds: seq<Disposition>): nat {
    if ds == [] then 0
    else
      var n, rest := Number(ds[|ds| - 1].roundId), Decided(ds[..|ds| - 1]);
      if rest <= n then n else rest
  }

  lemma {:induction false} DecidedIsMaximum(ds: seq<Disposition>)
    ensures forall d | d in ds :: Number(d.roundId) <= Decided(ds)
    ensures Decided(ds) > 0 ==> exists d | d in ds :: Number(d.roundId) == Decided(ds)
  {
    if ds != [] {
      DecidedIsMaximum(ds[..|ds| - 1]);
      assert ds == ds[..|ds| - 1] + [ds[|ds| - 1]];
    }
  }

  /** A review numbered above every recorded decision is a new round. */
  lemma HigherRoundIsNew(book: Book, n: nat)
    requires n > Decided(book.dispositions)
    ensures NewRound(book, Review(n))
  {
    DecidedIsMaximum(book.dispositions);
  }

  /** Merging decisions of rounds up to `n` raises the highest number to `n` at most, and never lowers it. */
  lemma DecidedMerged(existing: seq<Disposition>, current: seq<Disposition>, n: nat)
    requires MergeDispositions(existing, current).Ok? && Decided(existing) <= n
    requires forall d | d in current :: Number(d.roundId) <= n
    ensures Decided(existing) <= Decided(MergeDispositions(existing, current).value) <= n
  {
    MergeIsUnion(existing, current);
    DecidedIsMaximum(existing);
    DecidedIsMaximum(MergeDispositions(existing, current).value);
  }

  lemma PersistedNumbers(p: Policy, book: Book, round: RoundId, head: string, wave: seq<(Seat, Outcome)>, after: Book)
    requires Persisted(p, book, round, head, wave) == Ok(after) && Decided(book.dispositions) <= Number(Some(round))
    ensures Decided(book.dispositions) <= Decided(after.dispositions) <= Number(Some(round))
  {
    var proposals := Pending(p, book.findings, book.dispositions).value;
    var c := Collect(p, round, head, ArchivedIds(book.archived), proposals, book.findings, wave);
    var g := Grouped(p.group, c.findings);
    DeferralsName(p, round, g, g);
    forall d | d in c.decisions
      ensures d.roundId == Some(round)
    {
      CollectedDecisions(p, round, head, ArchivedIds(book.archived), proposals, book.findings, wave, d);
    }
    DecidedMerged(book.dispositions, Concluded(p, book, round, head, wave).value.1, Number(Some(round)));
  }

  lemma ProposedNumbers(p: Policy, book: Book, round: RoundId, ds: seq<Disposition>, after: Book)
    requires Proposed(p, book, round, ds) == Ok(after) && Decided(book.dispositions) <= Number(Some(round))
    ensures Decided(book.dispositions) <= Decided(after.dispositions) <= Number(Some(round))
  {
    var proposals := WithThreads(book.findings, ds);
    forall d | d in proposals
      ensures d.roundId == Some(round)
    {
      var i :| 0 <= i < |ds| && proposals[i] == d;
      assert ds[i] in ds;
    }
    DecidedMerged(book.dispositions, proposals, Number(Some(round)));
  }

  // ----- What the foreman keeps of a wave ----------------------------------

  /** What came back, as the parser lets it through: a reported finding that is not open spoils its result. */
  function Arrived(raw: seq<Outcome>): (r: seq<Outcome>)
    ensures |r| == |raw| && forall o | o in r :: ParsedOpen(o)
  {
    seq(|raw|, i requires 0 <= i < |raw| => if ParsedOpen(raw[i]) then raw[i] else Uncertain)
  }

  /** Nothing open is left in the book when the wave left nothing open. */
  lemma NothingOpenStays(p: Policy, book: Book, round: RoundId, head: string, wave: seq<(Seat, Outcome)>, after: Book)
    requires Persisted(p, book, round, head, wave) == Ok(after)
    requires OpenFindings(Concluded(p, book, round, head, wave).value.0) == []
    ensures OpenFindings(after.findings) == []
  {
    var findings := Concluded(p, book, round, head, wave).value.0;
    forall f | f in after.findings
      ensures !f.status.Open?
    {
      assert f in findings;
      assert f.status.Open? ==> f in OpenFindings(findings);
    }
    FilterKeepsNone(after.findings, (f: Finding) => f.status.Open?);
  }
}
