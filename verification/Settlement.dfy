/** Settling findings by dispositions and compacting the settled ones into the archive. */
module Settlement {
  import opened Wrappers
  import opened Text
  import opened Sorting
  import opened Domain
  import opened Findings

  function IndexOf(s: seq<Finding>, id: string): (i: nat)
    ensures i <= |s|
    ensures i < |s| ==> s[i].id == id
    ensures forall j | 0 <= j < i :: s[j].id != id
  {
    if s == [] || s[0].id == id then 0 else 1 + IndexOf(s[1..], id)
  }

  function ActionText(a: Action): string {
    match a
    case Fix => "fix"
    case RejectWontFix => "reject_wont_fix"
    case ReplyDeferred => "reply_deferred"
    case AlreadyAddressed => "already_addressed"
    case EscalateHuman => "escalate_human"
    case Rebut => "rebut"
    case Accept => "accept"
  }

  /** A rebuttal leaves the finding open; every other action settles it. */
  function StatusAfter(a: Action): FindingStatus {
    match a
    case Fix => Accepted
    case RejectWontFix => Rejected
    case AlreadyAddressed => Rejected
    case ReplyDeferred => Deferred
    case EscalateHuman => Deferred
    case Accept => Accepted
    case Rebut => Open
  }

  datatype Request = Request(
    id: string, action: Action, rationale: string, decidedBy: string,
    threadId: Option<string>, replyBody: Option<string>)

  predicate Nonempty(t: Option<string>) {
    t.Some? && t.value != ""
  }

  function EffectiveThread(f: Finding, q: Request): Option<string> {
    if q.threadId.Some? then q.threadId else f.threadId
  }

  function Decision(f: Finding, q: Request): Disposition {
    Disposition(q.id, q.action, q.rationale, q.decidedBy, EffectiveThread(f, q), q.replyBody, None, None, None)
  }

  function Updated(f: Finding, q: Request): Finding {
    f.(status := StatusAfter(q.action), statusReason := Some(ActionText(q.action) + ": " + q.rationale))
  }

  /** The first reason not to settle `f` this way, if there is one. */
  function Refusal(f: Finding, requireReply: bool, q: Request): Option<FindingError> {
    if !f.status.Open? && !f.status.Deferred? then Some(AlreadySettled)
    else if q.threadId.Some? && Nonempty(f.threadId) && q.threadId != f.threadId then Some(ThreadMismatch)
    else if requireReply && Nonempty(EffectiveThread(f, q)) && IsBlank(q.replyBody.GetOr("")) then Some(ReplyRequired)
    else if IsBlank(q.rationale) then Some(BlankRationale)
    else if !Updated(f, q).WellFormed() then Some(InvalidFinding)
    else None
  }

  /** The outcome of one disposition: the updated list with the record, or the refusal. */
  function Settled(s: seq<Finding>, requireReply: bool, q: Request): Result<(seq<Finding>, Disposition), FindingError> {
    var i := IndexOf(s, q.id);
    if i == |s| then Err(UnknownFinding)
    else
      var refusal := Refusal(s[i], requireReply, q);
      if refusal.Some? then Err(refusal.value) else Ok((s[i := Updated(s[i], q)], Decision(s[i], q)))
  }

  /** What a caller can check before asking for a disposition of `f`. */
  predicate MaySettle(f: Finding, requireReply: bool, q: Request) {
    && (f.status.Open? || f.status.Deferred?)
    && (q.threadId.Some? && Nonempty(f.threadId) ==> q.threadId == f.threadId)
    && (requireReply && Nonempty(EffectiveThread(f, q)) ==> !IsBlank(q.replyBody.GetOr("")))
    && !IsBlank(q.rationale)
  }

  lemma {:induction false} VisibleStart(s: string)
    requires s != "" && !IsSpace(s[0])
    ensures !IsBlank(s)
  {
    StripRightKeepsStart(s);
  }

  lemma {:induction false} StripRightKeepsStart(s: string)
    requires s != "" && !IsSpace(s[0])
    ensures StripRight(s) != ""
  {
    if IsSpace(s[|s| - 1]) {
      StripRightKeepsStart(s[..|s| - 1]);
    }
  }

  lemma ReasonVisible(q: Request)
    ensures !IsBlank(ActionText(q.action) + ": " + q.rationale)
  {
    var r := ActionText(q.action) + ": " + q.rationale;
    assert r[0] == ActionText(q.action)[0];
    VisibleStart(r);
  }

  lemma UpdatedIsWellFormed(f: Finding, q: Request)
    requires f.WellFormed()
    ensures Updated(f, q).WellFormed() <==> q.action != Rebut
  {
    ReasonVisible(q);
  }

  lemma RefusedExactly(f: Finding, requireReply: bool, q: Request)
    requires f.WellFormed()
    ensures Refusal(f, requireReply, q).None? <==> MaySettle(f, requireReply, q) && q.action != Rebut
  {
    UpdatedIsWellFormed(f, q);
  }

  /** Success and failure of a disposition, by the refusal of the finding it names. */
  lemma SettledByRefusal(s: seq<Finding>, requireReply: bool, q: Request, i: nat, refusal: Option<FindingError>)
    requires i == IndexOf(s, q.id)
    requires i < |s| ==> refusal == Refusal(s[i], requireReply, q)
    ensures Settled(s, requireReply, q).Ok? <==> i < |s| && refusal.None?
    ensures Settled(s, requireReply, q).Ok? ==> Settled(s, requireReply, q).value == (s[i := Updated(s[i], q)], Decision(s[i], q))
  {
  }

  /** A disposition succeeds exactly when it may settle the finding and is not a rebuttal. */
  lemma SettledExactly(s: seq<Finding>, requireReply: bool, q: Request)
    requires forall f | f in s :: f.WellFormed()
    ensures Settled(s, requireReply, q).Ok? <==>
            var i := IndexOf(s, q.id); i < |s| && MaySettle(s[i], requireReply, q) && q.action != Rebut
  {
    var i := IndexOf(s, q.id);
    if i < |s| {
      assert s[i] in s;
      RefusedExactly(s[i], requireReply, q);
      SettledByRefusal(s, requireReply, q, i, Refusal(s[i], requireReply, q));
    }
  }

  /** A well-formed open finding and a rebuttal of it that nothing else speaks against: refused. */
  lemma RebuttalFails(f: Finding, q: Request)
    requires f == Finding("f", "lane", "body", Minor, "run", Review(1), 0, None, None, None, None, None, None, [], None, None, None, None,
                          FindingStatus.Open, None, None, [])
    requires q == Request("f", Rebut, "why", "coder", None, None)
    ensures f.WellFormed() && MaySettle(f, false, q) && Settled([f], false, q) == Err(InvalidFinding)
  {
    VisibleStart("why");
    ReasonVisible(q);
    UpdatedIsWellFormed(f, q);
    assert IndexOf([f], q.id) == 0;
  }

  lemma UpdatedEffect(f: Finding, requireReply: bool, q: Request)
    requires f.WellFormed() && Refusal(f, requireReply, q).None?
    ensures !Updated(f, q).status.Open? && Updated(f, q).id == f.id && Updated(f, q).WellFormed()
  {
    UpdatedIsWellFormed(f, q);
  }

  /** Success touches one finding, which leaves `open` or stays deferred with the reason recorded. */
  lemma SettledEffect(s: seq<Finding>, requireReply: bool, q: Request)
    requires (forall f | f in s :: f.WellFormed()) && Settled(s, requireReply, q).Ok?
    ensures var (t, d) := Settled(s, requireReply, q).value; var i := IndexOf(s, q.id);
            && i < |s| && t == s[i := t[i]] && d == Decision(s[i], q)
            && t[i].id == s[i].id && !t[i].status.Open? && t[i].WellFormed()
            && t[i] == s[i].(status := t[i].status, statusReason := t[i].statusReason)
  {
    var i := IndexOf(s, q.id);
    var refusal := if i < |s| then Refusal(s[i], requireReply, q) else None;
    SettledByRefusal(s, requireReply, q, i, refusal);
    assert s[i] in s;
    UpdatedEffect(s[i], requireReply, q);
  }

  // ----- Compaction of settled findings ------------------------------------

  predicate Archivable(f: Finding) {
    f.status.Accepted? || f.status.Rejected? || f.status.Archived?
  }

  function Record(f: Finding): ArchivedFinding {
    ArchivedFinding(f.id, f.lane, f.severity, f.status, f.statusReason.GetOr(""), ClaimOf(f), f.Seeded().sources)
  }

  function Records(s: seq<Finding>): seq<ArchivedFinding> {
    if s == [] then []
    else (if Archivable(s[0]) then [Record(s[0])] else []) + Records(s[1..])
  }

  function Active(s: seq<Finding>): seq<Finding> {
    Filter(s, (f: Finding) => !Archivable(f))
  }

  lemma {:induction false} RecordsSnoc(s: seq<Finding>, f: Finding)
    ensures Records(s + [f]) == Records(s) + (if Archivable(f) then [Record(f)] else [])
  {
    if s == [] {
      assert s + [f] == [f] && [f][1..] == [];
    } else {
      assert (s + [f])[1..] == s[1..] + [f];
      RecordsSnoc(s[1..], f);
      var first := if Archivable(s[0]) then [Record(s[0])] else [];
      var last := if Archivable(f) then [Record(f)] else [];
      assert Records(s + [f]) == first + (Records(s[1..]) + last);
    }
  }

  /** Compaction loses no finding: each one stays active or leaves a record naming it. */
  lemma {:induction false} CompactionConserves(s: seq<Finding>)
    ensures forall f | f in s :: f in Active(s) || Record(f) in Records(s)
    ensures forall r | r in Records(s) :: exists f | f in s :: Archivable(f) && r == Record(f)
    ensures |Active(s)| + |Records(s)| == |s|
  {
    if s != [] {
      CompactionConserves(s[1..]);
      assert s == [s[0]] + s[1..];
      forall r | r in Records(s)
        ensures exists f | f in s :: Archivable(f) && r == Record(f)
      {
        if r in Records(s[1..]) {
          var f :| f in s[1..] && Archivable(f) && r == Record(f);
          assert f in s;
        } else {
          assert s[0] in s;
        }
      }
    }
  }
}
