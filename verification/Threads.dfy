/**
  What becomes of threaded findings in the lease machine: only a write that does not fit drops
  any of them, and then the oldest ones.
*/
module Threads {
  import opened Wrappers
  import opened Domain
  import opened Compaction
  import opened Leases

  function ThreadsOf(s: WorkflowState): seq<Finding> {
    ThreadedOf(s.findings)
  }

  /** `a` is `b` without some of its first elements. */
  ghost predicate Suffix(a: seq<Finding>, b: seq<Finding>) {
    |a| <= |b| && a == b[|b| - |a|..]
  }

  lemma SuffixTransitive(a: seq<Finding>, b: seq<Finding>, c: seq<Finding>)
    requires Suffix(a, b) && Suffix(b, c)
    ensures Suffix(a, c)
  {
  }

  lemma SuffixComparable(a: seq<Finding>, b: seq<Finding>, t: seq<Finding>)
    requires Suffix(a, t) && Suffix(b, t)
    ensures Suffix(a, b) || Suffix(b, a)
  {
    if |a| <= |b| {
      assert a == b[|b| - |a|..];
    } else {
      assert b == a[|a| - |b|..];
    }
  }

  /** The event writes, and the state its writer goes on with is too large to be stored whole. */
  predicate Trims(cfg: Settings, w: World, e: Event) {
    var v := Step(cfg, w, e);
    v.stored != w.stored && exists s | s in v.handles :: s.updatedAt == v.clock && cfg.size(s) > cfg.max
  }

  predicate EverTrims(cfg: Settings, w: World, events: seq<Event>)
    decreases |events|
  {
    events != [] && (Trims(cfg, w, events[0]) || EverTrims(cfg, Step(cfg, w, events[0]), events[1..]))
  }

  /** The handles that are current hold at least the stored threads, and all of them come from `t`. */
  ghost predicate Within(t: seq<Finding>, w: World) {
    w.stored.Some? ==>
      && Suffix(ThreadsOf(w.stored.value), t)
      && forall h | h in w.handles && h.updatedAt == w.stored.value.updatedAt ::
           Suffix(ThreadsOf(h), t) && Suffix(ThreadsOf(w.stored.value), ThreadsOf(h))
  }

  lemma HandleIsCurrent(cfg: Settings, w: World, e: Event)
    requires Inv(w) && Writes(cfg, w, e) && e.op.UsesHandle()
    ensures w.stored.Some? && e.op.handle in w.handles && e.op.handle.updatedAt == w.stored.value.updatedAt
  {
    WriteFollowsStored(cfg, w, e);
  }

  /** Once something is stored, a write starts from a current handle or from the stored state itself. */
  lemma WriteSource(cfg: Settings, w: World, e: Event) returns (h: WorkflowState)
    requires Inv(w) && Writes(cfg, w, e) && w.stored.Some?
    ensures h == w.stored.value || (h in w.handles && h.updatedAt == w.stored.value.updatedAt)
    ensures if e.op.UsesHandle() then h == e.op.handle else w.stored == Some(h) && e.op.ClaimItem?
  {
    if e.op.UsesHandle() {
      HandleIsCurrent(cfg, w, e);
      h := e.op.handle;
    } else {
      if e.op.Reject? {
        CreateNeedsEmptyStore(cfg, w, e);
      }
      h := w.stored.value;
    }
  }

  /** A write stores what its writer goes on with, which has the findings of where it started. */
  lemma WriteFrom(cfg: Settings, w: World, e: Event) returns (s: WorkflowState)
    requires Inv(w) && Writes(cfg, w, e)
    ensures var v := Step(cfg, w, e);
            && v.clock == s.updatedAt > w.clock && v.handles == w.handles + {s, v.stored.value}
            && v.stored == Compacted(cfg.size, cfg.max, s) && v.stored.Some? && v.stored.value.updatedAt == s.updatedAt
    ensures w.stored.Some? ==> exists h ::
              (h == w.stored.value || (h in w.handles && h.updatedAt == w.stored.value.updatedAt)) && s.findings == h.findings
  {
    s := WriteShape(cfg, w, e);
    if w.stored.Some? {
      var h := WriteSource(cfg, w, e);
      ProposalCarriesContent(cfg, w.stored, e.op, w.clock + 1 + e.delay, h);
    }
    WriteStores(cfg, w, e, s);
  }

  lemma WriteStores(cfg: Settings, w: World, e: Event, s: WorkflowState)
    requires Writes(cfg, w, e)
    requires var p := Propose(cfg, w.stored, e.op, w.clock + 1 + e.delay); p.Ok? && p.value.Write? && s == p.value.state
    ensures Step(cfg, w, e).stored == Compacted(cfg.size, cfg.max, s)
  {
  }

  /** What fits is stored whole, and otherwise some of the oldest threads are left out. */
  lemma StoredThreads(cfg: Settings, s: WorkflowState, r: WorkflowState)
    requires Compacted(cfg.size, cfg.max, s) == Some(r)
    ensures Suffix(ThreadsOf(r), ThreadsOf(s)) && (cfg.size(s) <= cfg.max ==> r == s)
  {
    CompactionIsMinimal(cfg.size, cfg.max, s);
  }

  lemma WrittenThreads(cfg: Settings, w: World, e: Event, t: seq<Finding>) returns (s: WorkflowState)
    requires Inv(w) && Within(t, w) && Writes(cfg, w, e)
    ensures var v := Step(cfg, w, e);
            && v.clock == s.updatedAt > w.clock && v.stored.Some? && v.stored.value.updatedAt == s.updatedAt
            && v.handles == w.handles + {s, v.stored.value}
            && Suffix(ThreadsOf(v.stored.value), ThreadsOf(s))
            && (!Trims(cfg, w, e) ==> v.stored.value == s)
    ensures w.stored.Some? ==> Suffix(ThreadsOf(s), t) && Suffix(ThreadsOf(w.stored.value), ThreadsOf(s))
  {
    s := WriteFrom(cfg, w, e);
    StoredThreads(cfg, s, Step(cfg, w, e).stored.value);
  }

  lemma WithinAfter(t: seq<Finding>, w: World, v: World, s: WorkflowState)
    requires Inv(w) && v.stored.Some? && v.stored.value.updatedAt == s.updatedAt == v.clock > w.clock
    requires v.handles == w.handles + {s, v.stored.value}
    requires Suffix(ThreadsOf(s), t) && Suffix(ThreadsOf(v.stored.value), ThreadsOf(s))
    ensures Within(t, v)
  {
    SuffixTransitive(ThreadsOf(v.stored.value), ThreadsOf(s), t);
    forall h | h in v.handles && h.updatedAt == v.stored.value.updatedAt
      ensures h == s || h == v.stored.value
    {
      assert h in w.handles ==> h.updatedAt <= w.clock;
    }
  }

  /** One event keeps everything within the same threads, and drops some only by trimming. */
  lemma StepWithin(cfg: Settings, w: World, e: Event, t: seq<Finding>)
    requires Inv(w) && Within(t, w) && w.stored.Some?
    ensures var v := Step(cfg, w, e);
            && v.stored.Some? && Within(t, v)
            && (!Trims(cfg, w, e) ==> Suffix(ThreadsOf(w.stored.value), ThreadsOf(v.stored.value)))
  {
    if Writes(cfg, w, e) {
      var s := WrittenThreads(cfg, w, e, t);
      WithinAfter(t, w, Step(cfg, w, e), s);
    } else {
      StepShape(cfg, w, e, Propose(cfg, w.stored, e.op, w.clock + 1 + e.delay));
    }
  }

  lemma {:induction false} RunWithin(cfg: Settings, w: World, events: seq<Event>, t: seq<Finding>)
    requires Inv(w) && Within(t, w) && w.stored.Some?
    ensures var v := Run(cfg, w, events);
            && v.stored.Some? && Within(t, v)
            && (!EverTrims(cfg, w, events) ==> Suffix(ThreadsOf(w.stored.value), ThreadsOf(v.stored.value)))
    decreases |events|
  {
    if events != [] {
      var u := Step(cfg, w, events[0]);
      StepKeeps(cfg, w, events[0]);
      StepWithin(cfg, w, events[0], t);
      RunWithin(cfg, u, events[1..], t);
      if !EverTrims(cfg, w, events) {
        SuffixTransitive(ThreadsOf(w.stored.value), ThreadsOf(u.stored.value), ThreadsOf(Run(cfg, u, events[1..]).stored.value));
      }
    }
  }

  lemma {:induction false} ReachedWithin(cfg: Settings, w: World, events: seq<Event>, before: seq<Finding>) returns (t: seq<Finding>)
    requires Inv(w) && Within(before, w)
    ensures Within(t, Run(cfg, w, events))
    decreases |events|
  {
    if events == [] {
      t := before;
    } else {
      var e := events[0];
      var next := before;
      StepKeeps(cfg, w, e);
      if w.stored.Some? {
        StepWithin(cfg, w, e, before);
      } else if Writes(cfg, w, e) {
        var s := WrittenThreads(cfg, w, e, before);
        next := ThreadsOf(s);
        WithinAfter(next, w, Step(cfg, w, e), s);
      } else {
        StepShape(cfg, w, e, Propose(cfg, w.stored, e.op, w.clock + 1 + e.delay));
      }
      t := ReachedWithin(cfg, Step(cfg, w, e), events[1..], next);
    }
  }

  /**
    From the empty store, through any operations: the threaded findings stored at some moment
    are all stored, in order and behind nothing but older ones, after any later operations,
    unless one of these wrote a state that did not fit; then those lost are the oldest.
  */
  lemma ThreadedSurvive(cfg: Settings, clock: int, events: seq<Event>, later: seq<Event>)
    ensures var w := Run(cfg, World(None, {}, clock), events); var v := Run(cfg, w, later);
            w.stored.Some? ==>
              && v.stored.Some?
              && (Suffix(ThreadsOf(w.stored.value), ThreadsOf(v.stored.value))
                  || (EverTrims(cfg, w, later) && Suffix(ThreadsOf(v.stored.value), ThreadsOf(w.stored.value))))
  {
    var start := World(None, {}, clock);
    var w := Run(cfg, start, events);
    RunKeeps(cfg, start, events);
    var t := ReachedWithin(cfg, start, events, []);
    if w.stored.Some? {
      RunWithin(cfg, w, later, t);
      var v := Run(cfg, w, later);
      SuffixComparable(ThreadsOf(w.stored.value), ThreadsOf(v.stored.value), t);
    }
  }
}
