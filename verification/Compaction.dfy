/**
  The durable workflow state and the compaction that keeps its serialized block within the
  configured bound. The size of a serialized state is a parameter.
*/
module Compaction {
  import opened Wrappers
  import opened Domain
  import opened Sorting

  /** Values of the open-ended part of the state; claim keys hold texts and instants. */
  datatype Value = Text(text: string) | Instant(at: int) | Flag(on: bool) | Json(source: string)

  /** The open-ended part: the seven keys of the claim attribution, and every other key. */
  datatype Extras = Extras(
    host: Option<Value>, claimedAt: Option<Value>, expires: Option<Value>, heartbeatAt: Option<Value>,
    branch: Option<Value>, worktree: Option<Value>, prNumber: Option<Value>, others: map<string, Value>)

  datatype WorkflowState = WorkflowState(
    runId: string, phase: Phase, round: Option<RoundId>, updatedAt: int, reason: Option<string>,
    findings: seq<Finding>, dispositions: seq<Disposition>, archived: seq<ArchivedFinding>,
    extras: Extras)
  {
    /** Terminal phases carry a nonempty reason, other phases none. */
    predicate WellFormed() {
      if phase.Terminal() then reason.Some? && reason.value != "" else reason.None?
    }
  }

  predicate Threaded(f: Finding) {
    f.threadId.Some?
  }

  function ThreadedOf(s: seq<Finding>): seq<Finding> {
    Filter(s, (f: Finding) => Threaded(f))
  }

  function UnthreadedOf(s: seq<Finding>): seq<Finding> {
    Filter(s, (f: Finding) => !Threaded(f))
  }

  type Size = WorkflowState -> nat

  /** The state with its `k` oldest threaded findings dropped, unthreaded ones first. */
  function Trimmed(s: WorkflowState, k: nat): WorkflowState
    requires k <= |ThreadedOf(s.findings)|
  {
    s.(findings := UnthreadedOf(s.findings) + ThreadedOf(s.findings)[k..])
  }

  /** What is stored for `s`: itself when it fits, otherwise the trimming the loop settles for. */
  function Compacted(size: Size, max: nat, s: WorkflowState): Option<WorkflowState> {
    if size(s) <= max then Some(s) else DropFrom(size, max, s, 1)
  }

  function DropFrom(size: Size, max: nat, s: WorkflowState, k: nat): Option<WorkflowState>
    decreases |ThreadedOf(s.findings)| + 1 - k
  {
    if k > |ThreadedOf(s.findings)| then None
    else if size(Trimmed(s, k)) <= max then Some(Trimmed(s, k))
    else DropFrom(size, max, s, k + 1)
  }

  /** The loop over the shrinking list of threaded findings. */
  method Compact(size: Size, max: nat, s: WorkflowState) returns (r: Option<WorkflowState>)
    ensures r == Compacted(size, max, s)
  {
    if size(s) <= max {
      return Some(s);
    }
    var threaded, unthreaded := ThreadedOf(s.findings), UnthreadedOf(s.findings);
    ghost var k := 0;
    while threaded != []
      invariant k <= |ThreadedOf(s.findings)| && threaded == ThreadedOf(s.findings)[k..]
      invariant Compacted(size, max, s) == DropFrom(size, max, s, k + 1)
      decreases |threaded|
    {
      threaded := threaded[1..];
      k := k + 1;
      var trimmed := s.(findings := unthreaded + threaded);
      assert trimmed == Trimmed(s, k);
      if size(trimmed) <= max {
        return Some(trimmed);
      }
    }
    return None;
  }

  lemma {:induction false} DropsFewest(size: Size, max: nat, s: WorkflowState, k: nat)
    ensures DropFrom(size, max, s, k).Some? <==>
            exists n | k <= n <= |ThreadedOf(s.findings)| :: size(Trimmed(s, n)) <= max
    ensures DropFrom(size, max, s, k).Some? ==>
              exists n | k <= n <= |ThreadedOf(s.findings)| ::
                && DropFrom(size, max, s, k).value == Trimmed(s, n)
                && size(Trimmed(s, n)) <= max
                && forall m | k <= m < n :: size(Trimmed(s, m)) > max
    decreases |ThreadedOf(s.findings)| + 1 - k
  {
    if k <= |ThreadedOf(s.findings)| && size(Trimmed(s, k)) > max {
      DropsFewest(size, max, s, k + 1);
    }
  }

  lemma KeepsFirst(u: seq<Finding>, t: seq<Finding>, keep: Finding -> bool)
    requires (forall f | f in u :: keep(f)) && (forall f | f in t :: !keep(f))
    ensures Filter(u + t, keep) == u
  {
    FilterConcat(u, t, keep);
    FilterKeepsAll(u, keep);
    FilterKeepsNone(t, keep);
  }

  lemma KeepsSecond(u: seq<Finding>, t: seq<Finding>, keep: Finding -> bool)
    requires (forall f | f in u :: !keep(f)) && (forall f | f in t :: keep(f))
    ensures Filter(u + t, keep) == t
  {
    FilterConcat(u, t, keep);
    FilterKeepsNone(u, keep);
    FilterKeepsAll(t, keep);
  }

  lemma PartsSeparate(s: seq<Finding>, k: nat)
    requires k <= |ThreadedOf(s)|
    ensures forall f | f in UnthreadedOf(s) :: !Threaded(f)
    ensures forall f | f in ThreadedOf(s)[k..] :: Threaded(f)
  {
    forall f | f in ThreadedOf(s)[k..]
      ensures Threaded(f)
    {
      assert f in ThreadedOf(s);
    }
  }

  /** Trimming keeps every unthreaded finding in order and the younger threaded ones. */
  lemma TrimmedParts(s: WorkflowState, k: nat)
    requires k <= |ThreadedOf(s.findings)|
    ensures UnthreadedOf(Trimmed(s, k).findings) == UnthreadedOf(s.findings)
    ensures ThreadedOf(Trimmed(s, k).findings) == ThreadedOf(s.findings)[k..]
  {
    PartsSeparate(s.findings, k);
    KeepsFirst(UnthreadedOf(s.findings), ThreadedOf(s.findings)[k..], (f: Finding) => !Threaded(f));
    KeepsSecond(UnthreadedOf(s.findings), ThreadedOf(s.findings)[k..], (f: Finding) => Threaded(f));
  }

  /** Equal except for the list of findings. */
  predicate SameButFindings(s: WorkflowState, r: WorkflowState) {
    r == s.(findings := r.findings)
  }

  /** `r` holds what `s` holds except for some number of its oldest threaded findings. */
  ghost predicate CompactionOf(s: WorkflowState, r: WorkflowState) {
    && SameButFindings(s, r)
    && UnthreadedOf(r.findings) == UnthreadedOf(s.findings)
    && exists k | 0 <= k <= |ThreadedOf(s.findings)| :: ThreadedOf(r.findings) == ThreadedOf(s.findings)[k..]
  }

  /**
    The stored block fits, loses nothing but the fewest oldest threaded findings that make it
    fit, and is refused only when no number of dropped findings would do.
  */
  lemma CompactionIsMinimal(size: Size, max: nat, s: WorkflowState)
    ensures Compacted(size, max, s).None? <==>
            size(s) > max && forall n | 1 <= n <= |ThreadedOf(s.findings)| :: size(Trimmed(s, n)) > max
    ensures Compacted(size, max, s).Some? ==>
              var r := Compacted(size, max, s).value;
              && size(r) <= max && CompactionOf(s, r)
              && (forall n | 1 <= n && n + |ThreadedOf(r.findings)| < |ThreadedOf(s.findings)| ::
                    size(Trimmed(s, n)) > max)
  {
    if size(s) <= max {
      assert ThreadedOf(s.findings)[0..] == ThreadedOf(s.findings);
    } else {
      DropsFewest(size, max, s, 1);
      if DropFrom(size, max, s, 1).Some? {
        var n :| 1 <= n <= |ThreadedOf(s.findings)| && DropFrom(size, max, s, 1).value == Trimmed(s, n)
          && size(Trimmed(s, n)) <= max && forall m | 1 <= m < n :: size(Trimmed(s, m)) > max;
        TrimmedParts(s, n);
      }
    }
  }

  /** When dropping more never enlarges the block, refusal means that dropping all is not enough. */
  lemma RefusedOnlyWhenHopeless(size: Size, max: nat, s: WorkflowState)
    requires forall k, n | 0 <= k <= n <= |ThreadedOf(s.findings)| :: size(Trimmed(s, n)) <= size(Trimmed(s, k))
    requires size(Trimmed(s, 0)) == size(s)
    ensures Compacted(size, max, s).None? <==> size(Trimmed(s, |ThreadedOf(s.findings)|)) > max
  {
    CompactionIsMinimal(size, max, s);
    var n := |ThreadedOf(s.findings)|;
    assert forall k | 0 <= k <= n :: size(Trimmed(s, n)) <= size(Trimmed(s, k));
  }
}
