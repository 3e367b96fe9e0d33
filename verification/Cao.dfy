/**
  The session controller and the lane executor against a remote control plane that keeps one
  session's durable metadata. Requests may be refused, lost before or after taking effect, or
  be the last thing the process does; a restart is a new controller on the same plane.
*/
module Cao {
  import opened Wrappers

  /**
    Durable attribution of a session. `digest` names the input last recorded; `turn` numbers
    the records made for the session, so that equal digests of different turns stay apart.
  */
  datatype Metadata = Metadata(
    identity: string, model: Option<string>, context: string, digest: Option<string>, activity: bool, turn: nat)

  datatype Status = IdleStatus | Processing | Finished | WaitingUser | ErrorStatus | Unspecified

  datatype Lifecycle = Running | Completed | Blocked | Failed | Started | Disappeared | TimedOut {
    predicate Terminal() {
      Completed? || Failed? || Disappeared? || TimedOut?
    }
  }

  /** The status vocabulary other than idle, normalized. */
  function Normalized(s: Status): Lifecycle {
    match s
    case Processing => Running
    case Finished => Completed
    case WaitingUser => Blocked
    case ErrorStatus => Failed
    case _ => Started
  }

  predicate ShowsActivity(s: Status) {
    Normalized(s).Running? || Normalized(s).Blocked?
  }

  /** What a request comes back with; `InFlight` leaves its effect unknown, `Died` ends the process. */
  datatype Reply = Done | Busy | Missing | Refused | Unreachable | InFlight | Died

  datatype Failure =
    | TransportError | UnavailableError | BusyError | NotFound | ControlPlaneError | IdentityUncertain
    | AdoptionMismatch | NotReady | NotRegistered | PollTimeout | Crash

  function FailureOf(r: Reply): Failure
    requires !r.Done?
  {
    match r
    case Busy => BusyError
    case Missing => NotFound
    case Refused => ControlPlaneError
    case Unreachable => UnavailableError
    case InFlight => TransportError
    case Died => Crash
  }

  /** The record of durable digest changes and of messages the remote agent got. */
  datatype Event = Changed(digest: Option<string>) | Delivered(message: string)

  /** Every delivery directly follows a change of the durable digest to its own digest. */
  ghost predicate RecordedFirst(log: seq<Event>) {
    forall i | 0 <= i < |log| && log[i].Delivered? :: i > 0 && log[i - 1] == Changed(Some(log[i].message))
  }

  ghost function Deliveries(log: seq<Event>, d: string): nat {
    if log == [] then 0
    else Deliveries(log[..|log| - 1], d) + (if log[|log| - 1] == Delivered(d) then 1 else 0)
  }

  ghost function Changes(log: seq<Event>, d: string): nat {
    if log == [] then 0
    else Changes(log[..|log| - 1], d) + (if log[|log| - 1] == Changed(Some(d)) then 1 else 0)
  }

  lemma RecordedPrefix(log: seq<Event>)
    requires RecordedFirst(log) && log != []
    ensures RecordedFirst(log[..|log| - 1])
  {
  }

  /** A message is delivered at most once per change of the durable digest to its digest. */
  lemma {:induction false} DeliveredAtMostOncePerChange(log: seq<Event>, d: string)
    requires RecordedFirst(log)
    ensures Deliveries(log, d) <= Changes(log, d)
    ensures log != [] && log[|log| - 1] == Changed(Some(d)) ==> Deliveries(log, d) < Changes(log, d)
  {
    if log != [] {
      RecordedPrefix(log);
      DeliveredAtMostOncePerChange(log[..|log| - 1], d);
    }
  }

  /** What one turn may add: nothing, the record of `d`, or that and its one delivery or its withdrawal. */
  ghost predicate Sent(before: seq<Event>, after: seq<Event>, d: string) {
    && before <= after && |after| <= |before| + 2
    && (|after| > |before| ==> after[|before|] == Changed(Some(d)))
    && (|after| == |before| + 2 ==> after[|before| + 1] == Delivered(d) || after[|before| + 1].Changed?)
  }

  lemma SentDeliveries(before: seq<Event>, after: seq<Event>, d: string, x: string)
    requires Sent(before, after, d)
    ensures Deliveries(after, x) <= Deliveries(before, x) + (if x == d then 1 else 0)
  {
    var n := |before|;
    if |after| == n {
      assert after == before;
    } else if |after| == n + 1 {
      assert after[..n] == before;
    } else {
      assert after[..n + 1][..n] == before;
      assert after[..|after| - 1] == after[..n + 1];
    }
  }

  /** Consecutive idle readings at the end of what was read. */
  function TrailingIdle(readings: seq<Status>): nat {
    if readings == [] || !readings[|readings| - 1].IdleStatus? then 0 else 1 + TrailingIdle(readings[..|readings| - 1])
  }

  class ControlPlane {
    /** The durable metadata of the session, if it exists. */
    var session: Option<Metadata>
    ghost var log: seq<Event>
    /** Turns during which some controller read a running or blocked status. */
    ghost var evidence: set<nat>
    /** The digest and the context each turn was made for. */
    var inputs: seq<(Option<string>, string)>

    ghost predicate Valid()
      reads this
    {
      && RecordedFirst(log)
      && (session.Some? ==> Known(session.value))
      && (forall t | t in evidence :: t < |inputs|)
      && (session.Some? && session.value.activity ==> session.value.turn in evidence)
    }

    /** The metadata says what its turn was made for. */
    ghost predicate Known(m: Metadata)
      reads this
    {
      m.turn < |inputs| && inputs[m.turn] == (m.digest, m.context)
    }

    /** A turn made for this digest and context during which activity was read. */
    ghost predicate Evidenced(d: string, context: string)
      reads this
    {
      exists t | t in evidence :: t < |inputs| && inputs[t] == (Some(d), context)
    }

    constructor ()
      ensures Valid() && session == None && log == [] && evidence == {}
    {
      session, log, evidence, inputs := None, [], {}, [];
    }

    /** The next turn number. */
    method NewTurn(digest: Option<string>, context: string) returns (t: nat)
      requires Valid()
      modifies this`inputs
      ensures Valid() && t == |old(inputs)| && t !in evidence && inputs == old(inputs) + [(digest, context)]
    {
      t := |inputs|;
      inputs := inputs + [(digest, context)];
    }

    /** A session can disappear between any two requests. */
    method Drift()
      requires Valid()
      modifies this`session
      ensures Valid() && (session == old(session) || session == None)
    {
      if * {
        session := None;
      }
    }

    /** Replaces the whole metadata of an existing session. */
    method Patch(m: Metadata) returns (r: Reply)
      requires Valid() && Known(m) && (m.activity ==> m.turn in evidence)
      modifies this`session, this`log
      ensures Valid()
      ensures r.Done? ==> session == Some(m)
      ensures session == None || session == old(session) || (session == Some(m) && old(session).Some?)
      ensures log == old(log) + (if session == Some(m) && old(session).Some? && old(session).value.digest != m.digest
                                 then [Changed(m.digest)] else [])
      ensures r.Busy? || r.Missing? || r.Refused? || r.Unreachable? ==> session == None || session == old(session)
    {
      Drift();
      var applied: bool := *;
      if session.None? {
        r := *;
        if r.Done? {
          r := Missing;
        }
      } else if applied {
        if session.value.digest != m.digest {
          log := log + [Changed(m.digest)];
        }
        session := Some(m);
        r := *;
        if !r.Done? && !r.Died? {
          r := InFlight;
        }
      } else {
        r := *;
        if r.Done? {
          r := Unreachable;
        }
      }
    }

    /** Sends a message to the agent of an existing session. */
    method Post(d: string) returns (r: Reply)
      requires Valid() && log != [] && log[|log| - 1] == Changed(Some(d))
      modifies this`session, this`log
      ensures Valid() && (session == old(session) || session == None)
      ensures log == old(log) || (log == old(log) + [Delivered(d)] && !r.Busy? && !r.Missing? && !r.Unreachable?)
      ensures r.Done? ==> log == old(log) + [Delivered(d)]
    {
      Drift();
      var delivered: bool := *;
      r := *;
      if session.None? {
        if !r.Died? && !r.InFlight? {
          r := Missing;
        }
      } else if delivered {
        log := log + [Delivered(d)];
        if r.Busy? || r.Missing? || r.Unreachable? {
          r := Done;
        }
      } else if r.Done? {
        r := Busy;
      }
    }

    /** Reads the durable metadata: present, absent, or not readable now. */
    method Lookup() returns (r: Reply, m: Option<Metadata>)
      requires Valid()
      modifies this`session
      ensures Valid() && (session == old(session) || session == None)
      ensures r.Done? ==> m == session
    {
      Drift();
      r, m := *, session;
    }

    /** Creates the session if there is none. */
    method Create(m: Metadata) returns (r: Reply)
      requires Valid() && Known(m) && !m.activity && m.digest.None?
      modifies this`session
      ensures Valid()
      ensures r.Done? ==> session == Some(m)
      ensures session == old(session) || session == None || session == Some(m)
    {
      Drift();
      var applied: bool := *;
      r := *;
      if session.None? && applied {
        session := Some(m);
        if !r.Done? && !r.Died? {
          r := InFlight;
        }
      } else if r.Done? {
        r := Refused;
      }
    }

    method Delete() returns (r: Reply)
      requires Valid()
      modifies this`session
      ensures Valid() && (session == old(session) || session == None)
      ensures r.Done? ==> session == None
    {
      Drift();
      r := *;
      if r.Done? {
        session := None;
      } else if * {
        session := None;
      }
    }

    /** Reads the terminal status; activity read during a turn becomes evidence for it. */
    method ReadStatus() returns (r: Reply, s: Status)
      requires Valid()
      modifies this`session, this`evidence
      ensures Valid() && (session == old(session) || session == None)
      ensures old(evidence) <= evidence
      ensures r.Done? ==> session.Some?
      ensures r.Done? && ShowsActivity(s) ==> session.value.turn in evidence
    {
      Drift();
      r, s := *, *;
      if session.None? {
        if r.Done? {
          r := Missing;
        }
      } else if r.Done? && ShowsActivity(s) {
        evidence := evidence + {session.value.turn};
      }
    }
  }

  /** The controller of one named session. */
  class SessionController {
    const plane: ControlPlane
    const settlePolls: nat
    /** The registered copy of the metadata. */
    var meta: Option<Metadata>
    var idleReadings: nat
    var activeSeen: bool
    var durableConfirmed: bool
    /** Every status this controller has read for the session. */
    ghost var readings: seq<Status>

    /** The registered copy and the durable record speak of the same turn. */
    ghost predicate Fresh()
      reads this, plane
    {
      meta.Some? &&
      (plane.session.Some? ==>
         plane.session.value.turn == meta.value.turn && plane.session.value.digest == meta.value.digest)
    }

    ghost predicate Valid()
      reads this, plane
    {
      && plane.Valid()
      && idleReadings <= TrailingIdle(readings)
      && (meta.Some? ==> plane.Known(meta.value))
      && (meta.Some? && (activeSeen || meta.value.activity) ==> meta.value.turn in plane.evidence)
    }

    constructor (plane: ControlPlane, settlePolls: nat)
      requires plane.Valid() && settlePolls >= 1
      ensures Valid() && this.plane == plane && this.settlePolls == settlePolls && meta == None
    {
      this.plane, this.settlePolls := plane, settlePolls;
      meta, idleReadings, activeSeen, durableConfirmed, readings := None, 0, false, false, [];
    }

    /** Takes over metadata; activity recorded durably restores the settle guard. */
    method Register(m: Metadata)
      requires Valid() && plane.Known(m) && (m.activity ==> m.turn in plane.evidence)
      modifies this`meta, this`idleReadings, this`activeSeen, this`durableConfirmed
      ensures Valid() && meta == Some(m) && activeSeen == m.activity
    {
      meta, activeSeen, durableConfirmed := Some(m), m.activity, m.activity;
      if !m.activity {
        idleReadings := 0;
      }
    }

    method Forget()
      requires Valid()
      modifies this`meta, this`idleReadings, this`activeSeen, this`durableConfirmed
      ensures Valid() && meta == None
    {
      meta, idleReadings, activeSeen, durableConfirmed := None, 0, false, false;
    }

    /** Deletes the remote session, confirms its absence and drops the local copy. */
    method StopSession() returns (r: Result<bool, Failure>)
      requires Valid()
      modifies this`meta, this`idleReadings, this`activeSeen, this`durableConfirmed, plane`session
      ensures Valid() && plane.log == old(plane.log)
      ensures plane.session == old(plane.session) || plane.session == None
      ensures r.Ok? ==> plane.session == None && meta == None
      ensures r.Err? ==> meta == old(meta)
    {
      var reply := plane.Delete();
      if !reply.Done? && !reply.Missing? {
        return Err(FailureOf(reply));
      }
      var found, m := plane.Lookup();
      if !found.Done? {
        return Err(FailureOf(found));
      }
      if m.Some? {
        return Err(NotReady);
      }
      Forget();
      return Ok(true);
    }

    /** Records activity locally at once and durably when the write succeeds. */
    method MarkActive() returns (died: bool)
      requires Valid() && Fresh() && meta.value.turn in plane.evidence
      modifies this`meta, this`activeSeen, this`durableConfirmed, plane`session, plane`log
      ensures Valid() && Fresh() && plane.log == old(plane.log)
      ensures meta == Some(old(meta).value.(activity := meta.value.activity)) && activeSeen
    {
      activeSeen, died := true, false;
      if meta.value.activity && durableConfirmed {
        return;
      }
      meta := Some(meta.value.(activity := true));
      var reply := plane.Patch(meta.value);
      if reply.Died? {
        return true;
      }
      if reply.Done? {
        durableConfirmed := true;
      }
    }

    /** Turns one reading into a lifecycle state. */
    method Interpret(s: Status) returns (state: Lifecycle, died: bool)
      requires Valid() && Fresh() && (ShowsActivity(s) ==> meta.value.turn in plane.evidence)
      modifies this`meta, this`idleReadings, this`activeSeen, this`durableConfirmed, this`readings, plane`session, plane`log
      ensures Valid() && Fresh() && plane.log == old(plane.log) && readings == old(readings) + [s]
      ensures meta == Some(old(meta).value.(activity := meta.value.activity))
      ensures state.Completed? ==> CompletionFounded(s)
      ensures !state.Disappeared? && !state.TimedOut?
    {
      died := false;
      readings := readings + [s];
      assert readings[..|readings| - 1] == old(readings);
      if !s.IdleStatus? {
        idleReadings := 0;
        var mapped := Normalized(s);
        if mapped.Completed? && meta.value.digest.Some? && !activeSeen {
          return Running, false;
        }
        if mapped.Running? || mapped.Blocked? {
          died := MarkActive();
        }
        return mapped, died;
      }
      if !activeSeen {
        return Running, false;
      }
      idleReadings := idleReadings + 1;
      state := if idleReadings >= settlePolls then Completed else Running;
    }

    /** What justifies reporting completion on the last reading `s`. */
    ghost predicate CompletionFounded(s: Status)
      reads this, plane
    {
      && meta.Some?
      && (meta.value.digest.Some? ==> meta.value.turn in plane.evidence)
      && (s.IdleStatus? ==> meta.value.turn in plane.evidence && TrailingIdle(readings) >= settlePolls)
      && (s.IdleStatus? || s.Finished?)
    }

    /** Reads and reports the lifecycle; a session over its budget is stopped. */
    method Observe() returns (r: Result<(Lifecycle, Status), Failure>)
      requires Valid() && Fresh()
      modifies this`meta, this`idleReadings, this`activeSeen, this`durableConfirmed, this`readings,
        plane`session, plane`log, plane`evidence
      ensures Valid() && plane.log == old(plane.log) && old(plane.evidence) <= plane.evidence
      ensures meta.Some? ==> Fresh() && meta == Some(old(meta).value.(activity := meta.value.activity))
      ensures r.Ok? && !r.value.0.TimedOut? ==> meta.Some?
      ensures r.Ok? && r.value.0.Completed? ==> CompletionFounded(r.value.1)
    {
      var reply, s := plane.ReadStatus();
      if reply.Missing? {
        idleReadings, activeSeen := 0, false;
        return Ok((Disappeared, Unspecified));
      }
      if !reply.Done? {
        return Err(FailureOf(reply));
      }
      var state, died := Interpret(s);
      if died {
        return Err(Crash);
      }
      var expired: bool := *;
      if !state.Terminal() && expired {
        var stopped := StopSession();
        if stopped.Err? {
          return Err(stopped.error);
        }
        return Ok((TimedOut, s));
      }
      return Ok((state, s));
    }

    /** Writes the new turn durably, without activity, before its input can be delivered. */
    method ClearActivity(m: Metadata) returns (r: Reply)
      requires Valid() && Fresh() && plane.Known(m) && !m.activity && m.digest.Some? && m.digest != meta.value.digest
      modifies this`meta, this`idleReadings, this`activeSeen, this`durableConfirmed, plane`session, plane`log
      ensures Valid()
      ensures r.Done? ==> meta == Some(m) && Fresh() && plane.session == Some(m) && plane.log == old(plane.log) + [Changed(m.digest)]
      ensures plane.log == old(plane.log) || plane.log == old(plane.log) + [Changed(m.digest)]
      ensures !r.Done? ==> meta == old(meta)
    {
      r := plane.Patch(m);
      if r.Done? {
        activeSeen, idleReadings, durableConfirmed := false, 0, false;
        meta := Some(m);
      }
    }

    /** Records the turn, then delivers its message; a rejected delivery restores the old record. */
    method SubmitWork(d: string, context: string) returns (r: Result<bool, Failure>)
      requires Valid() && (meta.Some? ==> Fresh() && meta.value.digest != Some(d))
      modifies this`meta, this`idleReadings, this`activeSeen, this`durableConfirmed, this`readings,
        plane`session, plane`log, plane`evidence, plane`inputs
      ensures Valid() && old(plane.evidence) <= plane.evidence && old(plane.inputs) <= plane.inputs
      ensures r.Ok? ==> meta.Some? && Fresh() && meta.value.digest == Some(d) && meta.value.context == context
                        && meta.value.turn !in plane.evidence
                        && plane.log == old(plane.log) + [Changed(Some(d)), Delivered(d)]
      ensures Sent(old(plane.log), plane.log, d)
    {
      if meta.None? {
        return Err(NotRegistered);
      }
      var captured := meta.value;
      if captured.digest.Some? {
        var seen := Observe();
        if seen.Err? {
          return Err(seen.error);
        }
        if !seen.value.0.Completed? {
          return Err(BusyError);
        }
      }
      r := SubmitTurn(captured, d, context);
    }

    /** Records the turn durably and, when that is confirmed, delivers its message. */
    method SubmitTurn(captured: Metadata, d: string, context: string) returns (r: Result<bool, Failure>)
      requires Valid() && Fresh() && meta.value.digest != Some(d)
      requires plane.Known(captured) && (captured.activity ==> captured.turn in plane.evidence)
      modifies this`meta, this`idleReadings, this`activeSeen, this`durableConfirmed, plane`session, plane`log, plane`inputs
      ensures Valid() && old(plane.inputs) <= plane.inputs
      ensures r.Ok? ==> meta.Some? && Fresh() && meta.value.digest == Some(d) && meta.value.context == context
                        && meta.value.turn !in plane.evidence
                        && plane.log == old(plane.log) + [Changed(Some(d)), Delivered(d)]
      ensures Sent(old(plane.log), plane.log, d)
    {
      var t := plane.NewTurn(Some(d), context);
      var recorded := ClearActivity(captured.(context := context, digest := Some(d), activity := false, turn := t));
      if !recorded.Done? {
        return Err(FailureOf(recorded));
      }
      r := Deliver(captured, d);
    }

    /** Posts the recorded message; when the session refuses it as busy, the old record comes back. */
    method Deliver(captured: Metadata, d: string) returns (r: Result<bool, Failure>)
      requires Valid() && Fresh() && meta.value.digest == Some(d)
      requires plane.log != [] && plane.log[|plane.log| - 1] == Changed(Some(d))
      requires plane.Known(captured) && (captured.activity ==> captured.turn in plane.evidence)
      modifies this`meta, this`idleReadings, this`activeSeen, this`durableConfirmed, plane`session, plane`log
      ensures Valid()
      ensures r.Ok? ==> Fresh() && meta == old(meta) && plane.log == old(plane.log) + [Delivered(d)]
      ensures r.Err? ==> plane.log == old(plane.log) || plane.log == old(plane.log) + [Delivered(d)]
                         || plane.log == old(plane.log) + [Changed(captured.digest)]
    {
      var reply := plane.Post(d);
      if reply.Done? {
        return Ok(true);
      }
      if reply.Busy? {
        var restored := plane.Patch(captured);
        if restored.Done? {
          Register(captured);
        } else if restored.Died? {
          return Err(Crash);
        }
      }
      return Err(FailureOf(reply));
    }

    /** Stops the session if the controller or the plane knows it. */
    method TerminateSession() returns (died: bool)
      requires Valid()
      modifies this`meta, this`idleReadings, this`activeSeen, this`durableConfirmed, plane`session
      ensures Valid() && plane.log == old(plane.log)
    {
      died := false;
      if meta.None? {
        var found, m := plane.Lookup();
        if !found.Done? || m.None? {
          return found.Died?;
        }
      }
      var stopped := StopSession();
      died := stopped == Err(Crash);
    }

    /** Re-attaches to an existing session of the same identity and model. */
    method RecoverSession(identity: string, model: Option<string>) returns (r: Result<bool, Failure>)
      requires Valid()
      modifies this`meta, this`idleReadings, this`activeSeen, this`durableConfirmed, this`readings,
        plane`session, plane`log, plane`evidence
      ensures Valid() && plane.log == old(plane.log) && old(plane.evidence) <= plane.evidence
      ensures r.Ok? && meta.Some? ==> Fresh() && meta.value.identity == identity && meta.value.model == model
    {
      var found, m := plane.Lookup();
      if !found.Done? {
        return Err(FailureOf(found));
      }
      if m.None? {
        return Err(NotFound);
      }
      if m.value.identity != identity || m.value.model != model {
        return Err(AdoptionMismatch);
      }
      Register(m.value);
      var seen := Observe();
      if seen.Err? {
        return Err(seen.error);
      }
      return Ok(true);
    }

    /** Adopts the session of the run, or creates it when there is none to adopt. */
    method StartSession(identity: string, model: Option<string>, context: string) returns (r: Result<bool, Failure>)
      requires Valid()
      modifies this`meta, this`idleReadings, this`activeSeen, this`durableConfirmed, this`readings,
        plane`session, plane`log, plane`evidence, plane`inputs
      ensures Valid() && plane.log == old(plane.log) && old(plane.evidence) <= plane.evidence && old(plane.inputs) <= plane.inputs
      ensures r.Ok? ==> meta.Some? && Fresh() && meta.value.identity == identity && meta.value.model == model
    {
      var found, m := plane.Lookup();
      if !found.Done? {
        return Err(FailureOf(found));
      }
      if m.Some? && m.value.model == model {
        if m.value.identity != identity {
          return Err(AdoptionMismatch);
        }
        Register(m.value);
        return Ok(true);
      }
      if m.Some? {
        var cleared := ReplaceDead(m.value);
        if cleared.Err? {
          return cleared;
        }
      }
      r := Launch(identity, model, context);
    }

    /** A session on another model makes room only when it has failed, timed out or gone. */
    method ReplaceDead(m: Metadata) returns (r: Result<bool, Failure>)
      requires Valid() && plane.session == Some(m)
      modifies this`meta, this`idleReadings, this`activeSeen, this`durableConfirmed, this`readings,
        plane`session, plane`log, plane`evidence
      ensures Valid() && plane.log == old(plane.log) && old(plane.evidence) <= plane.evidence
    {
      Register(m);
      var seen := Observe();
      if seen.Err? {
        return Err(seen.error);
      }
      if !seen.value.0.Failed? && !seen.value.0.TimedOut? && !seen.value.0.Disappeared? {
        return Err(AdoptionMismatch);
      }
      r := StopSession();
    }

    /** Creates the session without any input; a lost answer leaves its identity uncertain. */
    method Launch(identity: string, model: Option<string>, context: string) returns (r: Result<bool, Failure>)
      requires Valid()
      modifies this`meta, this`idleReadings, this`activeSeen, this`durableConfirmed, plane`session, plane`inputs
      ensures Valid() && plane.log == old(plane.log) && old(plane.inputs) <= plane.inputs
      ensures r.Ok? ==> meta.Some? && Fresh() && meta.value.identity == identity && meta.value.model == model
    {
      var t := plane.NewTurn(None, context);
      var launched := Metadata(identity, model, context, None, false, t);
      var reply := plane.Create(launched);
      if reply.InFlight? {
        return Err(IdentityUncertain);
      }
      if !reply.Done? {
        return Err(FailureOf(reply));
      }
      Register(launched);
      return Ok(true);
    }
  }

  class LaneExecutor {
    const controller: SessionController

    constructor (controller: SessionController)
      ensures this.controller == controller
    {
      this.controller := controller;
    }

    /** Activity was read during the turn of `m`, which is still the one the controller holds. */
    ghost predicate Attested(m: Metadata)
      reads controller, controller.plane
    {
      && controller.meta.Some? && controller.meta.value.turn == m.turn
      && controller.meta.value.digest == m.digest && controller.meta.value.context == m.context
      && m.digest.Some? && m.turn in controller.plane.evidence
    }

    /** Completion of the turn recorded under `d` in `context`, backed by activity read during it. */
    ghost predicate CompletedOnEvidence(context: string, d: string)
      reads controller, controller.plane
    {
      && controller.meta.Some? && controller.meta.value.digest == Some(d) && controller.meta.value.context == context
      && controller.meta.value.turn in controller.plane.evidence && controller.plane.Evidenced(d, context)
    }

    /** Polls until the recorded turn ends or the poll budget is spent. */
    method Collect(context: string, polls: nat) returns (r: Result<Lifecycle, Failure>)
      requires controller.Valid() && (controller.meta.Some? ==> controller.Fresh())
      modifies controller, controller.plane`session, controller.plane`log, controller.plane`evidence
      ensures controller.Valid() && controller.plane.log == old(controller.plane.log)
      ensures old(controller.plane.evidence) <= controller.plane.evidence
      ensures r.Ok? ==> r.value.Terminal()
      ensures r.Ok? && r.value.Completed? ==> old(controller.meta).Some? && Attested(old(controller.meta).value)
    {
      if controller.meta.None? {
        return Err(NotRegistered);
      }
      if controller.meta.value.context != context || controller.meta.value.digest.None? {
        return Err(AdoptionMismatch);
      }
      for i := 0 to polls
        invariant controller.Valid() && controller.plane.log == old(controller.plane.log)
        invariant old(controller.plane.evidence) <= controller.plane.evidence
        invariant controller.meta.Some? && controller.Fresh()
        invariant controller.meta == Some(old(controller.meta).value.(activity := controller.meta.value.activity))
      {
        var seen := controller.Observe();
        if seen.Err? {
          return Err(seen.error);
        }
        if seen.value.0.Terminal() {
          return Ok(seen.value.0);
        }
      }
      return Err(PollTimeout);
    }

    /**
      Submits a new turn once, or collects its matching durable record. Whatever happens to the
      requests, and wherever the process dies, at most this one message is delivered, right after a
      change of the durable digest to it, and completion is reported only on evidence.
    */
    method Execute(identity: string, model: Option<string>, context: string, d: string, resume: bool, polls: nat)
      returns (r: Result<Lifecycle, Failure>)
      requires controller.Valid()
      modifies controller, controller.plane
      ensures controller.Valid()
      ensures old(controller.plane.evidence) <= controller.plane.evidence && old(controller.plane.inputs) <= controller.plane.inputs
      ensures Sent(old(controller.plane.log), controller.plane.log, d)
      ensures r.Ok? ==> r.value.Terminal()
      ensures r == Ok(Completed) ==> CompletedOnEvidence(context, d)
    {
      if resume {
        var recovered := controller.RecoverSession(identity, model);
        if recovered.Err? {
          return Err(recovered.error);
        }
      } else {
        var started := controller.StartSession(identity, model, context);
        if started.Err? {
          return Err(started.error);
        }
      }
      r := Turn(context, d, polls);
      if r.Err? && !r.error.TransportError? && !r.error.BusyError? && !r.error.IdentityUncertain? && !r.error.Crash? {
        var died := controller.TerminateSession();
        if died {
          r := Err(Crash);
        }
      }
    }

    /** The guarded part: compare the durable digest, then deliver or only collect. */
    method Turn(context: string, d: string, polls: nat) returns (r: Result<Lifecycle, Failure>)
      requires controller.Valid() && (controller.meta.Some? ==> controller.Fresh())
      modifies controller, controller.plane
      ensures controller.Valid() && old(controller.plane.evidence) <= controller.plane.evidence && old(controller.plane.inputs) <= controller.plane.inputs
      ensures old(controller.meta).Some? && old(controller.meta).value.digest == Some(d) ==>
                controller.plane.log == old(controller.plane.log)
      ensures Sent(old(controller.plane.log), controller.plane.log, d)
      ensures r.Ok? ==> r.value.Terminal()
      ensures r == Ok(Completed) ==> CompletedOnEvidence(context, d)
    {
      if controller.meta.None? {
        return Err(NotRegistered);
      }
      if controller.meta.value.digest == Some(d) {
        if controller.meta.value.context != context {
          return Err(IdentityUncertain);
        }
      } else {
        var sent := controller.SubmitWork(d, context);
        if sent.Err? {
          return Err(sent.error);
        }
      }
      r := Collect(context, polls);
    }
  }

  /** One call of the executor; after a restart it comes from a new process. */
  datatype Call = Call(
    restart: bool, identity: string, model: Option<string>, context: string, digest: string, resume: bool, polls: nat)

  /** How many calls ask for the turn of `d`. */
  ghost function Asked(calls: seq<Call>, d: string): nat {
    if calls == [] then 0
    else Asked(calls[..|calls| - 1], d) + (if calls[|calls| - 1].digest == d then 1 else 0)
  }

  lemma EvidenceStays(plane: ControlPlane, inputs: seq<(Option<string>, string)>, evidence: set<nat>, d: string, context: string)
    requires exists t | t in evidence :: t < |inputs| && inputs[t] == (Some(d), context)
    requires inputs <= plane.inputs && evidence <= plane.evidence
    ensures plane.Evidenced(d, context)
  {
    var t :| t in evidence && t < |inputs| && inputs[t] == (Some(d), context);
    assert plane.inputs[t] == (Some(d), context);
  }

  /**
    Any number of calls on one plane, within one process or after restarts: every message was
    delivered at most once per change of the durable digest to it and never more often than it was
    asked for, and each call that reports completion does so on activity read in a turn made for
    its digest and context.
  */
  method RunWithRestarts(calls: seq<Call>, settlePolls: nat) returns (plane: ControlPlane, results: seq<Result<Lifecycle, Failure>>)
    requires settlePolls >= 1
    ensures plane.Valid() && |results| == |calls|
    ensures forall d :: Deliveries(plane.log, d) <= Changes(plane.log, d)
    ensures forall d :: Deliveries(plane.log, d) <= Asked(calls, d)
    ensures forall i | 0 <= i < |calls| && results[i] == Ok(Completed) :: plane.Evidenced(calls[i].digest, calls[i].context)
  {
    plane := new ControlPlane();
    results := [];
    var controller := new SessionController(plane, settlePolls);
    for i := 0 to |calls|
      invariant fresh(plane) && fresh(controller) && controller.plane == plane && controller.Valid() && |results| == i
      invariant forall d :: Deliveries(plane.log, d) <= Asked(calls[..i], d)
      invariant forall k | 0 <= k < i && results[k] == Ok(Completed) :: plane.Evidenced(calls[k].digest, calls[k].context)
    {
      ghost var before, inputs, evidence := plane.log, plane.inputs, plane.evidence;
      var c := calls[i];
      if c.restart {
        controller := new SessionController(plane, settlePolls);
      }
      var executor := new LaneExecutor(controller);
      var r := executor.Execute(c.identity, c.model, c.context, c.digest, c.resume, c.polls);
      assert calls[..i + 1][..i] == calls[..i];
      forall d
        ensures Deliveries(plane.log, d) <= Asked(calls[..i + 1], d)
      {
        SentDeliveries(before, plane.log, c.digest, d);
      }
      forall k | 0 <= k < i && results[k] == Ok(Completed)
        ensures plane.Evidenced(calls[k].digest, calls[k].context)
      {
        EvidenceStays(plane, inputs, evidence, calls[k].digest, calls[k].context);
      }
      results := results + [r];
    }
    assert calls[..|calls|] == calls;
    forall d
      ensures Deliveries(plane.log, d) <= Changes(plane.log, d)
    {
      DeliveredAtMostOncePerChange(plane.log, d);
    }
  }
}
