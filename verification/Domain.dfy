/** The value types of the workflow: phases, reviewer findings, dispositions, archive records. */
module Domain {
  import opened Wrappers
  import opened Text

  datatype Phase =
    | Queued | Claiming | Planning | Coding | Reviewing | CiGating | UpdatingPr
    | Escalated | Done | Failed | Cancelled
  {
    predicate Terminal() {
      Done? || Failed? || Escalated? || Cancelled?
    }
  }

  /** Round names are `response-N` for a coder turn and `review-N` for a reviewer wave. */
  datatype RoundId = Response(n: nat) | Review(n: nat) | Named(text: string)

  datatype Role = Foreman | Worker | Reviewer

  datatype LaneIdentity = LaneIdentity(lane: string, role: Role)

  datatype Severity = Info | Minor | Major | Blocker {
    function Rank(): nat {
      match this
      case Info => 0
      case Minor => 1
      case Major => 2
      case Blocker => 3
    }
  }

  datatype FindingStatus = Open | Accepted | Rejected | Deferred | Archived

  datatype EvidenceKind = FileEvidence | Snippet | Thread | Command | Log

  datatype Evidence = Evidence(
    kind: EvidenceKind, path: Option<string>, lineStart: Option<int>, lineEnd: Option<int>,
    snippet: Option<string>, threadId: Option<string>, text: Option<string>)

  datatype Provenance = Provenance(
    lane: string, findingId: string, runId: string, roundId: RoundId, threadId: Option<string>)

  datatype Finding = Finding(
    id: string, lane: string, body: string, severity: Severity, runId: string, roundId: RoundId,
    createdAt: int, path: Option<string>, line: Option<int>, lineEnd: Option<int>,
    threadId: Option<string>, confidence: Option<real>, claim: Option<string>,
    evidence: seq<Evidence>, falsification: Option<string>, reproduction: Option<string>,
    suggestedFix: Option<string>, headSha: Option<string>, status: FindingStatus,
    statusReason: Option<string>, conflictGroup: Option<string>, sources: seq<Provenance>)
  {
    /** What the constructor accepts. */
    predicate WellFormed() {
      && id != "" && lane != "" && body != "" && runId != ""
      && (line.Some? ==> line.value > 0)
      && (lineEnd.Some? ==> line.Some? && lineEnd.value >= line.value)
      && (path.Some? ==> !IsBlank(path.value))
      && (confidence.Some? ==> 0.0 <= confidence.value <= 1.0)
      && (headSha.Some? ==> !IsBlank(headSha.value))
      && (if status.Open? then statusReason.None? else statusReason.Some? && !IsBlank(statusReason.value))
    }

    function Origin(): Provenance {
      Provenance(lane, id, runId, roundId, threadId)
    }

    /** The finding with its own origin recorded when it carries no provenance yet. */
    function Seeded(): Finding {
      if sources == [] then this.(sources := [Origin()]) else this
    }
  }

  datatype ArchivedFinding = ArchivedFinding(
    findingId: string, lane: string, severity: Severity, status: FindingStatus,
    statusReason: string, summary: string, sources: seq<Provenance>)

  datatype Action = Fix | RejectWontFix | ReplyDeferred | AlreadyAddressed | EscalateHuman | Rebut | Accept

  datatype Disposition = Disposition(
    findingId: string, action: Action, rationale: string, decidedBy: string,
    threadId: Option<string>, replyBody: Option<string>, runId: Option<string>,
    roundId: Option<RoundId>, responseTo: Option<RoundId>)

  datatype FindingError =
    | ReservedSeparator
    | DuplicateId
    | IdReused
    | DispositionContradicted
    | MixedLifecycle
    | UnknownFinding
    | AlreadySettled
    | ThreadMismatch
    | ReplyRequired
    | BlankRationale
    | InvalidFinding
}
