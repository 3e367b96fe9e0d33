/**
  The lifecycle of one run: coder turns, review waves, publishing and the gate, driven from a
  durable checkpoint. Git, the lanes, the reviewers, the pull request and the gate answer
  anything. The process may die before or after any durable write, and a later process resumes
  from what was saved.
*/
module Foreman {
  import opened Wrappers
  import opened Domain
  import opened Text
  import Adjudication
  import Answering
  import Deduplication

  datatype Config = Config(
    maxReviewRounds: nat, maxTotalIterations: nat, maxInvocations: nat, maxTriggers: nat, lanes: nat,
    maxTokens: nat, stagnation: nat, maxFailures: nat, spendCap: Option<real>, policy: Adjudication.Policy)
  {
    ghost predicate WellFormed() {
      && lanes == |policy.reviewers| && Deduplication.ReadsIdentity(policy.key)
      && (spendCap.Some? ==> spendCap.value >= 0.0)
    }
  }

  /** The result of a step: a value, an escalation, a stop for reconciliation, or death of the process. */
  datatype Flow<+T> = Go(value: T) | Escalate | Halt | Die {
    predicate IsFailure() {
      !Go?
    }

    function PropagateFailure<U>(): Flow<U>
      requires !Go?
    {
      match this
      case Escalate => Flow<U>.Escalate
      case Halt => Flow<U>.Halt
      case Die => Flow<U>.Die
    }

    function Extract(): T
      requires Go?
    {
      value
    }
  }

  datatype Turn = Turn(invocation: nat, prompt: string, consumed: bool, exitCode: Option<int>)

  datatype Report = Report(rounds: nat, stagnant: nat, remaining: nat, head: string)

  /** A review wave: the snapshot it examines, its seats, its dispatch prompts, and its report once complete. */
  datatype Wave = Wave(head: string, seats: seq<Adjudication.Seat>, prompts: Option<seq<string>>, report: Option<Report>)

  datatype Charge = Charge(model: string, ceiling: real)

  type Ledger = seq<(string, Charge)>

  /** The durable state of the run. The book holds findings, decisions and archive. */
  datatype Checkpoint = Checkpoint(
    phase: Phase, round: Option<RoundId>, book: Adjudication.Book, head: Option<string>, usage: Option<nat>, turn: Option<Turn>,
    failures: nat, waves: map<nat, Wave>, stagnant: nat, signatures: set<string>, tokens: Option<nat>, charges: Ledger,
    pullRequest: Option<int>, ciFailures: set<string>)

  datatype Reason = CiGreen | NoChanges

  datatype Outcome = Done(reason: Reason) | Failed | Cancelled | CiPending | GivenUp

  datatype Decision = Decision(passed: bool, pending: bool, failed: bool, signature: string)

  // ----- Accounting --------------------------------------------------------

  /** Prompt characters over four, rounded up. */
  function Estimate(prompt: string): nat {
    (|prompt| + 3) / 4
  }

  function Cost(prompts: seq<string>): nat {
    if prompts == [] then 0 else Cost(prompts[..|prompts| - 1]) + Estimate(prompts[|prompts| - 1])
  }

  lemma CostSnoc(prompts: seq<string>, prompt: string)
    ensures Cost(prompts + [prompt]) == Cost(prompts) + Estimate(prompt)
  {
    assert (prompts + [prompt])[..|prompts|] == prompts;
  }

  function CashTotal(charges: Ledger): real {
    if charges == [] then 0.0 else CashTotal(charges[..|charges| - 1]) + charges[|charges| - 1].1.ceiling
  }

  predicate WithinCap(cap: Option<real>, charges: Ledger) {
    cap.Some? ==> CashTotal(charges) <= cap.value
  }

  function ChargeOf(charges: Ledger, id: string): Option<Charge> {
    if charges == [] then None
    else if charges[0].0 == id then Some(charges[0].1)
    else ChargeOf(charges[1..], id)
  }

  /** The ledger with the dispatch authorized, or a refusal. */
  function Authorized(cap: Option<real>, charges: Ledger, id: string, model: string, ceiling: Option<real>): Option<Ledger> {
    if cap.None? then Some(charges)
    else if ceiling.None? then None
    else
      var entry := Charge(model, ceiling.value);
      var known := ChargeOf(charges, id);
      if known.Some? && known.value != entry then None
      else
        var next := if known.Some? then charges else charges + [(id, entry)];
        if CashTotal(next) > cap.value then None else Some(next)
  }

  lemma {:induction false} ChargeOfSnoc(charges: Ledger, id: string, entry: Charge)
    requires ChargeOf(charges, id).None?
    ensures ChargeOf(charges + [(id, entry)], id) == Some(entry)
  {
    if charges != [] {
      assert (charges + [(id, entry)])[1..] == charges[1..] + [(id, entry)];
      ChargeOfSnoc(charges[1..], id, entry);
    }
  }

  /** An authorization stays within the cap, only adds, and repeating it changes nothing more. */
  lemma AuthorizationIsSafe(cap: Option<real>, charges: Ledger, id: string, model: string, ceiling: Option<real>)
    requires Authorized(cap, charges, id, model, ceiling).Some? && WithinCap(cap, charges)
    ensures var next := Authorized(cap, charges, id, model, ceiling).value;
            && WithinCap(cap, next) && charges <= next
            && (cap.Some? ==> ceiling.Some? && ChargeOf(next, id) == Some(Charge(model, ceiling.value)))
            && Authorized(cap, next, id, model, ceiling) == Some(next)
  {
    if cap.Some? && ChargeOf(charges, id).None? {
      ChargeOfSnoc(charges, id, Charge(model, ceiling.value));
    }
  }

  // ----- Rounds ------------------------------------------------------------

  /** The highest round named by the checkpoint or by a recorded decision. */
  function SavedRound(c: Checkpoint): nat {
    var named, decided := Answering.Number(c.round), Answering.Decided(c.book.dispositions);
    if named >= decided then named else decided
  }

  /** The proposals of the book that await a decision. */
  function Pending(cfg: Config, book: Adjudication.Book): Result<map<string, Disposition>, Adjudication.Escalation> {
    Adjudication.Pending(cfg.policy, book.findings, book.dispositions)
  }

  predicate NothingPending(cfg: Config, book: Adjudication.Book) {
    Pending(cfg, book) == Ok(map[])
  }

  predicate NothingOpen(book: Adjudication.Book) {
    Adjudication.OpenFindings(book.findings) == []
  }

  function Used(c: Checkpoint): nat {
    c.usage.GetOr(0)
  }

  /** A dispatched coder turn that has not been dealt with. */
  predicate Resumable(c: Checkpoint) {
    c.phase.Coding? && c.turn.Some? && !c.turn.value.consumed
  }

  /** The wave of the round under review, if it was planned. */
  predicate WavePlanned(c: Checkpoint) {
    c.phase.Reviewing? && c.round.Some? && c.round.value.Review? && c.round.value.n in c.waves
  }

  // ----- What is durable at every moment -----------------------------------

  ghost predicate Budgets(cfg: Config, c: Checkpoint) {
    && Used(c) <= cfg.maxInvocations
    && SavedRound(c) <= cfg.maxReviewRounds
    && SavedRound(c) * cfg.lanes <= cfg.maxTriggers
    && WithinCap(cfg.spendCap, c.charges)
  }

  /** The saved token count is the cost of every prompt ever recorded for dispatch. */
  ghost predicate Accounted(cfg: Config, c: Checkpoint, recorded: seq<string>) {
    && (c.tokens.None? ==> recorded == [])
    && (c.tokens.Some? ==> c.tokens.value == Cost(recorded) <= cfg.maxTokens)
    && (c.turn.Some? ==> c.turn.value.prompt in recorded && c.usage == Some(c.turn.value.invocation))
    && (forall n, q | n in c.waves && c.waves[n].prompts.Some? && q in c.waves[n].prompts.value :: q in recorded)
  }

  ghost predicate RoundsOrdered(c: Checkpoint) {
    && Answering.Decided(c.book.dispositions) <= Answering.Number(c.round)
    && (c.phase.Reviewing? ==> c.round.Some? && c.round.value.Review? && c.round.value.n > 0)
    && (c.phase.Coding? ==> c.round.Some? && c.round.value.Response?)
    && (forall n | n in c.waves :: n <= SavedRound(c))
    && (forall n | n in c.waves && c.waves[n].report.Some? ::
          c.waves[n].report.value.rounds == n && c.waves[n].report.value.head == c.waves[n].head)
  }

  /** The wave under review can still be settled, or has been: then nothing awaits a decision. */
  ghost predicate WaveKept(cfg: Config, book: Adjudication.Book, wave: Wave, n: nat) {
    && (wave.report.None? ==> Answering.WaveReady(cfg.policy, wave.seats, book, Review(n)))
    && (wave.report.Some? ==> NothingPending(cfg, book) && (wave.report.value.remaining == 0 ==> NothingOpen(book)))
  }

  ghost predicate BookKept(cfg: Config, c: Checkpoint) {
    && Answering.Grounded(c.book)
    && (WavePlanned(c) ==> WaveKept(cfg, c.book, c.waves[c.round.value.n], c.round.value.n))
  }

  ghost predicate Sound(cfg: Config, c: Checkpoint, recorded: seq<string>) {
    Budgets(cfg, c) && Accounted(cfg, c, recorded) && RoundsOrdered(c) && BookKept(cfg, c)
  }

  /** Nothing spent is given back, and no progress or failure signature is forgotten. */
  predicate Evolves(before: Checkpoint, after: Checkpoint) {
    && Used(before) <= Used(after) && SavedRound(before) <= SavedRound(after) && before.charges <= after.charges
    && before.signatures <= after.signatures && before.ciFailures <= after.ciFailures
  }

  class Run {
    const cfg: Config
    var saved: Checkpoint
    /** The prompt tokens charged in this process. */
    var promptTokens: nat
    /** The prompts of every dispatch intent ever saved. */
    ghost var recorded: seq<string>
    /** Every prompt handed to a lane, in order; a resumed one appears again. */
    ghost var dispatched: seq<string>
    /** The last completed wave, and what was published and gated after it. */
    ghost var reviewed: Option<Report>
    ghost var pushed: Option<string>
    ghost var gated: Option<(string, string)>

    ghost predicate Valid()
      reads this
    {
      && cfg.WellFormed() && Sound(cfg, saved, recorded)
      && forall q | q in dispatched :: q in recorded
    }

    /** In step with the durable accounting, as every step but a failed one leaves it. */
    ghost predicate InStep()
      reads this
    {
      promptTokens == Cost(recorded)
    }

    /** A freshly claimed run. */
    constructor (cfg: Config)
      requires cfg.WellFormed()
      ensures Valid() && this.cfg == cfg && recorded == [] && dispatched == []
    {
      this.cfg := cfg;
      saved := Checkpoint(Claiming, None, Adjudication.Book([], [], []), None, None, None, 0, map[], 0, {}, None, [], None, {});
      promptTokens, recorded, dispatched, reviewed, pushed, gated := 0, [], [], None, None, None;
    }

    /** One durable write: done, refused, or cut off by death before or after it took effect. */
    method Save(c: Checkpoint, ghost prompts: seq<string>) returns (r: Flow<bool>)
      requires Valid() && Sound(cfg, c, recorded + prompts) && Evolves(saved, c)
      modifies this`saved, this`recorded
      ensures Valid() && Evolves(old(saved), saved)
      ensures (saved == c && recorded == old(recorded) + prompts) || (saved == old(saved) && recorded == old(recorded) && !r.Go?)
      ensures r.Go? ==> saved == c && recorded == old(recorded) + prompts
    {
      var written: bool := *;
      if written {
        saved := c;
        recorded := recorded + prompts;
        if * {
          return Die;
        }
        return Go(true);
      }
      var conflict: bool := *;
      return if conflict then Flow<bool>.Escalate else Flow<bool>.Die;
    }

    /** Hands a recorded prompt to a lane; the durable count already covers it. */
    method Dispatch(prompt: string) returns (r: Flow<int>)
      requires Valid() && prompt in recorded && saved.tokens == Some(Cost(recorded))
      modifies this`dispatched
      ensures Valid() && dispatched == old(dispatched) + [prompt]
    {
      ghost var before := dispatched;
      dispatched := dispatched + [prompt];
      assert forall q | q in dispatched :: q in before || q == prompt;
      r := *;
    }

    method Charge(prompt: string) returns (r: Flow<bool>)
      modifies this`promptTokens
      ensures r.Go? ==> promptTokens == old(promptTokens) + Estimate(prompt) <= cfg.maxTokens
      ensures !r.Go? ==> promptTokens == old(promptTokens) && r.Escalate?
    {
      if promptTokens + Estimate(prompt) > cfg.maxTokens {
        return Escalate;
      }
      promptTokens := promptTokens + Estimate(prompt);
      return Go(true);
    }

    method Transition(phase: Phase, round: Option<RoundId>) returns (r: Flow<bool>)
      requires Valid()
      requires var c := saved.(phase := phase, round := if round.Some? then round else saved.round);
               Sound(cfg, c, recorded) && Evolves(saved, c)
      modifies this`saved, this`recorded
      ensures Valid() && Evolves(old(saved), saved) && recorded == old(recorded)
      ensures saved == old(saved) || saved == old(saved).(phase := phase, round := if round.Some? then round else old(saved).round)
      ensures r.Go? ==> saved == old(saved).(phase := phase, round := if round.Some? then round else old(saved).round)
    {
      var c := saved.(phase := phase, round := if round.Some? then round else saved.round);
      assert recorded + [] == recorded;
      r := Save(c, []);
    }

    /** Moves to a phase other than reviewing, keeping the round. */
    method MoveTo(phase: Phase) returns (r: Flow<bool>)
      requires Valid() && !phase.Reviewing? && !phase.Coding?
      modifies this`saved, this`recorded
      ensures Valid() && Evolves(old(saved), saved) && recorded == old(recorded)
      ensures saved == old(saved) || saved == old(saved).(phase := phase)
      ensures r.Go? ==> saved == old(saved).(phase := phase)
    {
      r := Transition(phase, None);
    }

    // ----- Coder -----------------------------------------------------------

    /** Checks the invocation budget and enters the coding phase. */
    method PrepareCoder() returns (r: Flow<bool>)
      requires Valid()
      modifies this`saved, this`recorded
      ensures Valid() && Evolves(old(saved), saved) && recorded == old(recorded)
      ensures SavedRound(saved) == SavedRound(old(saved)) && Used(saved) == Used(old(saved))
      ensures r.Go? ==> Used(saved) < cfg.maxInvocations && saved.phase.Coding?
                        && saved.round == Some(Response(SavedRound(saved)))
      ensures Used(old(saved)) >= cfg.maxInvocations ==> r.Escalate? && saved == old(saved)
    {
      var used := Used(saved);
      if used >= cfg.maxInvocations {
        return Escalate;
      }
      var head: string := *;
      assert recorded + [] == recorded;
      var _ :- Save(saved.(head := Some(head), usage := Some(used)), []);
      r := Transition(Coding, Some(Response(SavedRound(saved))));
    }

    /** Saves the intent of a new turn together with its charge, invocation and spend authorization. */
    method RecordTurn(prompt: string, model: string, ceiling: Option<real>) returns (r: Flow<bool>)
      requires Valid() && Used(saved) < cfg.maxInvocations && promptTokens == Cost(recorded) + Estimate(prompt) <= cfg.maxTokens
      modifies this`saved, this`recorded
      ensures Valid() && Evolves(old(saved), saved)
      ensures SavedRound(saved) == SavedRound(old(saved))
      ensures r.Go? ==> InStep() && recorded == old(recorded) + [prompt] && Used(saved) == Used(old(saved)) + 1
                        && saved.tokens == Some(Cost(recorded)) && saved.phase == old(saved).phase
                        && saved.turn == Some(Turn(Used(saved), prompt, false, None))
    {
      var invocation := Used(saved) + 1;
      var charges := Authorized(cfg.spendCap, saved.charges, DispatchId(invocation), model, ceiling);
      if charges.None? {
        return Escalate;
      }
      AuthorizationIsSafe(cfg.spendCap, saved.charges, DispatchId(invocation), model, ceiling);
      CostSnoc(recorded, prompt);
      var c := saved.(charges := charges.value, tokens := Some(promptTokens), usage := Some(invocation),
                      turn := Some(Turn(invocation, prompt, false, None)));
      TurnIsSound(cfg, saved, c, recorded, prompt);
      r := Save(c, [prompt]);
    }

    /** Prepares, charges and records a new turn. */
    method NewTurn() returns (r: Flow<bool>)
      requires Valid() && InStep()
      modifies this`saved, this`recorded, this`promptTokens
      ensures Valid() && Evolves(old(saved), saved) && SavedRound(saved) == SavedRound(old(saved))
      ensures r.Go? ==> InStep() && Used(saved) > Used(old(saved)) && saved.phase.Coding?
                        && saved.tokens == Some(Cost(recorded)) && saved.turn.Some?
    {
      var _ :- PrepareCoder();
      var prompt: string := *;
      var model: string := *;
      var ceiling: Option<real> := *;
      var _ :- Charge(prompt);
      r := RecordTurn(prompt, model, ceiling);
    }

    /** Hands the recorded turn to the worker lane unless its result is already saved. */
    method ExecuteTurn() returns (r: Flow<int>)
      requires Valid() && saved.turn.Some? && saved.tokens == Some(Cost(recorded)) && saved.phase.Coding?
      modifies this`saved, this`recorded, this`dispatched
      ensures Valid() && Evolves(old(saved), saved) && SavedRound(saved) == SavedRound(old(saved)) && recorded == old(recorded)
      ensures Used(saved) == Used(old(saved)) && saved.phase.Coding? && saved.turn.Some?
    {
      if saved.turn.value.exitCode.Some? {
        return Go(saved.turn.value.exitCode.value);
      }
      var exit :- Dispatch(saved.turn.value.prompt);
      assert recorded + [] == recorded;
      var _ :- Save(saved.(turn := Some(saved.turn.value.(exitCode := Some(exit)))), []);
      return Go(exit);
    }

    /** Runs a new or a resumed turn and returns its exit code. */
    method CoderAttempt() returns (r: Flow<int>)
      requires Valid() && InStep()
      modifies this`saved, this`recorded, this`promptTokens, this`dispatched
      ensures Valid() && Evolves(old(saved), saved) && SavedRound(saved) == SavedRound(old(saved))
      ensures r.Go? ==> InStep() && saved.turn.Some? && saved.phase.Coding?
      ensures r.Go? && !Resumable(old(saved)) ==> Used(saved) > Used(old(saved))
      ensures Resumable(old(saved)) ==> recorded == old(recorded) && promptTokens == old(promptTokens)
    {
      if Resumable(saved) {
        var mismatch: bool := *;
        if mismatch {
          return Escalate;
        }
      } else {
        var _ :- NewTurn();
      }
      r := ExecuteTurn();
    }

    /** Marks a failed turn as dealt with. */
    method FailedCoder() returns (r: Flow<bool>)
      requires Valid() && saved.turn.Some?
      modifies this`saved, this`recorded
      ensures Valid() && Evolves(old(saved), saved) && SavedRound(saved) == SavedRound(old(saved)) && recorded == old(recorded)
      ensures Used(saved) == Used(old(saved))
      ensures r.Go? ==> !Resumable(saved)
    {
      assert recorded + [] == recorded;
      r := Save(saved.(turn := Some(saved.turn.value.(consumed := true)), failures := saved.failures + 1), []);
    }

    /** Retries the coder until it succeeds or a budget ends the run. */
    method RunCoder() returns (r: Flow<bool>)
      requires Valid() && InStep()
      modifies this`saved, this`recorded, this`promptTokens, this`dispatched
      ensures Valid() && Evolves(old(saved), saved) && SavedRound(saved) == SavedRound(old(saved))
      ensures r.Go? ==> InStep() && saved.phase.Coding? && saved.turn.Some? && saved.failures == 0
    {
      while true
        invariant Valid() && InStep() && Evolves(old(saved), saved) && SavedRound(saved) == SavedRound(old(saved))
        decreases cfg.maxInvocations - Used(saved), if Resumable(saved) then 1 else 0
      {
        var exit :- CoderAttempt();
        var headMoved: bool := *;
        if headMoved {
          return Escalate;
        }
        if exit == 0 {
          var violation: bool := *;
          if violation {
            return Escalate;
          }
          assert recorded + [] == recorded;
          r := Save(saved.(failures := 0), []);
          return;
        }
        var _ :- FailedCoder();
        if Used(saved) >= cfg.maxInvocations || saved.failures >= cfg.maxFailures {
          return Escalate;
        }
      }
    }

    /** Records the worker's answers to every open finding, for adjudication. */
    method RecordProposals() returns (r: Flow<bool>)
      requires Valid() && saved.phase.Coding?
      modifies this`saved, this`recorded
      ensures Valid() && Evolves(old(saved), saved) && SavedRound(saved) == SavedRound(old(saved)) && recorded == old(recorded)
      ensures saved == old(saved).(book := saved.book)
      ensures saved.book.findings == old(saved).book.findings && saved.book.archived == old(saved).book.archived
    {
      var answers: seq<Disposition> := *;
      var proposed := Adjudication.Proposed(cfg.policy, saved.book, saved.round.value, answers);
      if proposed.Err? {
        return Escalate;
      }
      Answering.ProposedIsGrounded(cfg.policy, saved.book, saved.round.value, answers);
      Answering.ProposedNumbers(cfg.policy, saved.book, saved.round.value, answers, proposed.value);
      assert recorded + [] == recorded;
      r := Save(saved.(book := proposed.value), []);
    }

    /** One development turn; new proposals are recorded for adjudication. */
    method Develop() returns (r: Flow<Option<Outcome>>)
      requires Valid() && InStep()
      modifies this`saved, this`recorded, this`promptTokens, this`dispatched
      ensures Valid() && Evolves(old(saved), saved) && SavedRound(saved) == SavedRound(old(saved))
      ensures r.Go? ==> InStep() && (r.value.None? ==> saved.phase.Coding?)
      ensures r.Go? && r.value.Some? ==> r.value.value.Failed? && saved.phase.Failed?
    {
      var _ :- RunCoder();
      var policyViolation: bool := *;
      if policyViolation {
        var _ :- MoveTo(Phase.Failed);
        return Go(Some(Outcome.Failed));
      }
      if !NothingOpen(saved.book) {
        var _ :- RecordProposals();
      }
      return Go(None);
    }

    // ----- Review ----------------------------------------------------------

    /** Opens the next round unless a cap is reached. */
    method BeginRound(rounds: nat) returns (r: Flow<bool>)
      requires Valid() && !saved.phase.Reviewing? && rounds == SavedRound(saved)
      modifies this`saved, this`recorded
      ensures Valid() && Evolves(old(saved), saved) && recorded == old(recorded)
      ensures r.Go? ==> SavedRound(saved) == SavedRound(old(saved)) + 1 && saved.phase.Reviewing?
                        && saved.round == Some(Review(SavedRound(saved))) && SavedRound(saved) !in saved.waves && cfg.lanes > 0
                        && saved == old(saved).(phase := saved.phase, round := saved.round)
                        && Answering.NewRound(saved.book, Review(SavedRound(saved)))
      ensures (SavedRound(old(saved)) >= cfg.maxReviewRounds || cfg.lanes == 0
               || (SavedRound(old(saved)) + 1) * cfg.lanes > cfg.maxTriggers) ==> r.Escalate? && saved == old(saved)
    {
      if rounds >= cfg.maxReviewRounds {
        return Escalate;
      }
      assert (rounds + 1) * cfg.lanes == rounds * cfg.lanes + cfg.lanes;
      if cfg.lanes == 0 || cfg.maxTriggers - rounds * cfg.lanes < cfg.lanes {
        return Escalate;
      }
      Answering.HigherRoundIsNew(saved.book, rounds + 1);
      r := Transition(Reviewing, Some(Review(rounds + 1)));
    }

    /** Commits the developer's work as the head every reviewer of the round examines. */
    method Snapshot() returns (r: Flow<string>)
      requires Valid()
      modifies this`saved, this`recorded
      ensures Valid() && Evolves(old(saved), saved) && recorded == old(recorded)
      ensures saved == old(saved).(head := saved.head)
    {
      var commitBudgetSpent: bool := *;
      if commitBudgetSpent {
        return Escalate;
      }
      var head: string := *;
      assert recorded + [] == recorded;
      var _ :- Save(saved.(head := Some(head)), []);
      return Go(head);
    }

    /** Authorizes every seat's spend and saves the plan of the wave. */
    method PlanWave(head: string) returns (r: Flow<seq<Adjudication.Seat>>)
      requires Valid() && saved.phase.Reviewing? && saved.round == Some(Review(SavedRound(saved))) && SavedRound(saved) !in saved.waves
      requires cfg.lanes > 0 && Answering.NewRound(saved.book, Review(SavedRound(saved)))
      modifies this`saved, this`recorded
      ensures Valid() && Evolves(old(saved), saved) && recorded == old(recorded)
      ensures r.Go? ==> Adjudication.Planned(cfg.policy, saved.book) == Ok(r.value)
      ensures r.Go? ==> saved == old(saved).(waves := old(saved).waves[SavedRound(old(saved)) := Wave(head, r.value, None, None)], charges := saved.charges)
    {
      var planned := Adjudication.Planned(cfg.policy, saved.book);
      if planned.Err? {
        return Escalate;
      }
      Answering.PlannedIsReady(cfg.policy, saved.book, Review(SavedRound(saved)), planned.value);
      var charges := saved.charges;
      for i := 0 to cfg.lanes
        invariant WithinCap(cfg.spendCap, charges) && saved.charges <= charges
        invariant saved == old(saved) && recorded == old(recorded)
      {
        var id: string := *;
        var model: string := *;
        var ceiling: Option<real> := *;
        var next := Authorized(cfg.spendCap, charges, id, model, ceiling);
        if next.None? {
          return Escalate;
        }
        AuthorizationIsSafe(cfg.spendCap, charges, id, model, ceiling);
        charges := next.value;
      }
      var wave := Wave(head, planned.value, None, None);
      var c := saved.(waves := saved.waves[SavedRound(saved) := wave], charges := charges);
      WaveIsSound(cfg, saved, c, recorded, [], SavedRound(saved), wave);
      var _ :- Save(c, []);
      return Go(planned.value);
    }

    /** Charges one prompt per lane and saves them all with their cost. */
    method RecordPrompts() returns (r: Flow<seq<string>>)
      requires cfg.lanes > 0
      requires Valid() && InStep() && WavePlanned(saved) && saved.round.value.n == SavedRound(saved)
      requires saved.waves[SavedRound(saved)].report.None? && saved.waves[SavedRound(saved)].prompts.None?
      modifies this`saved, this`recorded, this`promptTokens
      ensures Valid() && Evolves(old(saved), saved)
      ensures r.Go? ==> InStep() && |r.value| == cfg.lanes
                        && saved == old(saved).(tokens := Some(Cost(recorded)),
                                    waves := old(saved).waves[SavedRound(old(saved)) := old(saved).waves[SavedRound(old(saved))].(prompts := Some(r.value))])
    {
      var n := SavedRound(saved);
      var prompts: seq<string> := [];
      assert recorded + prompts == recorded;
      for i := 0 to cfg.lanes
        invariant |prompts| == i && promptTokens == Cost(recorded + prompts)
        invariant prompts != [] ==> promptTokens <= cfg.maxTokens
        invariant saved == old(saved) && recorded == old(recorded)
      {
        var prompt: string := *;
        var _ :- Charge(prompt);
        CostSnoc(recorded + prompts, prompt);
        assert recorded + (prompts + [prompt]) == recorded + prompts + [prompt];
        prompts := prompts + [prompt];
      }
      var wave := saved.waves[n].(prompts := Some(prompts));
      var c := saved.(tokens := Some(promptTokens), waves := saved.waves[n := wave]);
      WaveIsSound(cfg, saved, c, recorded, prompts, n, wave);
      var _ :- Save(c, prompts);
      return Go(prompts);
    }

    /** Hands every prompt of the wave to its lane, in any order of completion. */
    method DispatchWave(prompts: seq<string>) returns (r: Flow<bool>)
      requires Valid() && saved.tokens == Some(Cost(recorded)) && forall q | q in prompts :: q in recorded
      modifies this`dispatched
      ensures Valid() && old(dispatched) <= dispatched
      ensures forall k | |old(dispatched)| <= k < |dispatched| :: dispatched[k] in prompts
    {
      for i := 0 to |prompts|
        invariant Valid() && saved == old(saved) && recorded == old(recorded) && old(dispatched) <= dispatched
        invariant forall k | |old(dispatched)| <= k < |dispatched| :: dispatched[k] in prompts
      {
        var alreadyAnswered: bool := *;
        if !alreadyAnswered {
          var answered := Dispatch(prompts[i]);
          if answered.Halt? || answered.Die? {
            return answered.PropagateFailure();
          }
        }
      }
      var someFailed: bool := *;
      return Go(someFailed);
    }

    /**
      Saves what the wave settled. The seats answer anything; when each answer was usable no
      proposal is left pending, and the count of open findings is that of the saved book.
    */
    method SettleWave() returns (r: Flow<(nat, bool)>)
      requires Valid() && WavePlanned(saved) && saved.round.value.n == SavedRound(saved)
      requires saved.waves[SavedRound(saved)].report.None?
      modifies this`saved, this`recorded
      ensures Valid() && Evolves(old(saved), saved) && recorded == old(recorded) && SavedRound(saved) == SavedRound(old(saved))
      ensures r.Go? ==> saved == old(saved).(book := saved.book)
                        && (r.value.1 ==> NothingPending(cfg, saved.book)) && (r.value.0 == 0 ==> NothingOpen(saved.book))
    {
      var n := SavedRound(saved);
      var settled := TakeAnswers(cfg, saved.book, n, saved.waves[n]);
      if settled.None? {
        return Escalate;
      }
      var c := saved.(book := settled.value.book);
      SettledIsSound(cfg, saved, c, recorded, n);
      assert recorded + [] == recorded;
      var _ :- Save(c, []);
      return Go((settled.value.remaining, settled.value.usable));
    }

    /** Saves the settled findings, then the report of a complete wave. */
    method FinishWave(rounds: nat, stagnantRounds: nat, disturbed: bool) returns (r: Flow<Report>)
      requires Valid() && WavePlanned(saved) && saved.round.value.n == SavedRound(saved) == rounds + 1
      requires saved.waves[SavedRound(saved)].report.None?
      modifies this`saved, this`recorded
      ensures Valid() && Evolves(old(saved), saved) && recorded == old(recorded) && SavedRound(saved) == SavedRound(old(saved))
      ensures r.Go? ==> saved.phase.Reviewing? && Complete(saved, r.value) && NothingPending(cfg, saved.book)
      ensures r.Go? ==> !disturbed && Converging(r.value) && (r.value.remaining == 0 ==> NothingOpen(saved.book))
                        && (r.value.stagnant == 0 || r.value.stagnant == stagnantRounds + 1)
    {
      var n := rounds + 1;
      var settled :- SettleWave();
      var failed := disturbed || !settled.1;
      var signature: string := *;
      var hadSignal: bool := *;
      var stagnant := if signature in saved.signatures || !hadSignal then stagnantRounds + 1 else 0;
      var report := Report(n, stagnant, settled.0, saved.waves[n].head);
      var wave := if failed then saved.waves[n] else saved.waves[n].(report := Some(report));
      var c := saved.(waves := saved.waves[n := wave], signatures := saved.signatures + {signature}, stagnant := stagnant);
      WaveIsSound(cfg, saved, c, recorded, [], n, wave);
      assert recorded + [] == recorded;
      var _ :- Save(c, []);
      var cleanupFailed: bool := *;
      if failed || cleanupFailed || !Converging(report) {
        return Escalate;
      }
      return Go(report);
    }

    predicate Converging(report: Report) {
      && !(report.remaining > 0 && report.rounds >= cfg.maxTotalIterations)
      && !(report.rounds > 1 && report.stagnant >= cfg.stagnation)
    }

    /** Runs a new wave over a fresh snapshot, or carries on the recorded one. */
    method ReviewRound(rounds: nat, stagnantRounds: nat) returns (r: Flow<Report>)
      requires Valid() && InStep() && (saved.phase.Reviewing? ==> WavePlanned(saved) && SavedRound(saved) == rounds + 1)
      requires !saved.phase.Reviewing? ==> SavedRound(saved) == rounds
      modifies this`saved, this`recorded, this`promptTokens, this`dispatched, this`reviewed, this`pushed, this`gated
      ensures Valid() && Evolves(old(saved), saved)
      ensures r.Go? ==> InStep() && Complete(saved, r.value) && saved.phase.Reviewing? && NothingPending(cfg, saved.book)
      ensures r.Go? ==> r.value.rounds == rounds + 1 && (r.value.remaining == 0 ==> NothingOpen(saved.book))
      ensures r.Go? ==> Converging(r.value) && reviewed == Some(r.value) && pushed == None && gated == None
      ensures r.Go? && !old(saved).phase.Reviewing? ==> SavedRound(saved) > SavedRound(old(saved))
    {
      var report: Report;
      if saved.phase.Reviewing? {
        report :- RecoverWave(rounds, stagnantRounds);
      } else {
        report :- NewWave(rounds, stagnantRounds);
      }
      reviewed, pushed, gated := Some(report), None, None;
      return Go(report);
    }

    /** Opens a round over a fresh snapshot, with its plan and prompts saved before any dispatch. */
    method OpenWave(rounds: nat) returns (r: Flow<seq<string>>)
      requires Valid() && InStep() && !saved.phase.Reviewing? && rounds == SavedRound(saved)
      modifies this`saved, this`recorded, this`promptTokens
      ensures Valid() && Evolves(old(saved), saved)
      ensures r.Go? ==> InStep() && SavedRound(saved) == rounds + 1 && WavePlanned(saved)
                        && saved.round.value.n == SavedRound(saved) && saved.tokens == Some(Cost(recorded))
                        && saved.waves[SavedRound(saved)].report.None? && saved.waves[SavedRound(saved)].prompts == Some(r.value)
    {
      var _ :- BeginRound(rounds);
      var head :- Snapshot();
      var seats :- PlanWave(head);
      r := RecordPrompts();
    }

    method NewWave(rounds: nat, stagnantRounds: nat) returns (r: Flow<Report>)
      requires Valid() && InStep() && !saved.phase.Reviewing? && rounds == SavedRound(saved)
      modifies this`saved, this`recorded, this`promptTokens, this`dispatched
      ensures Valid() && Evolves(old(saved), saved)
      ensures r.Go? ==> InStep() && Complete(saved, r.value) && saved.phase.Reviewing? && NothingPending(cfg, saved.book)
      ensures r.Go? ==> SavedRound(saved) == rounds + 1 && Converging(r.value) && (r.value.remaining == 0 ==> NothingOpen(saved.book))
    {
      var prompts :- OpenWave(rounds);
      var disturbed :- DispatchWave(prompts);
      r := FinishWave(rounds, stagnantRounds, disturbed);
    }

    method RecoverWave(rounds: nat, stagnantRounds: nat) returns (r: Flow<Report>)
      requires Valid() && InStep() && WavePlanned(saved) && SavedRound(saved) == rounds + 1
      modifies this`saved, this`recorded, this`dispatched
      ensures Valid() && Evolves(old(saved), saved) && SavedRound(saved) == SavedRound(old(saved))
      ensures recorded == old(recorded)
      ensures r.Go? ==> InStep() && Complete(saved, r.value) && saved.phase.Reviewing? && NothingPending(cfg, saved.book)
      ensures r.Go? ==> Converging(r.value) && (r.value.remaining == 0 ==> NothingOpen(saved.book))
      ensures old(saved.waves[saved.round.value.n].report.Some?) ==>
                saved == old(saved) && dispatched == old(dispatched)
                && (r.Go? ==> Some(r.value) == saved.waves[saved.round.value.n].report)
    {
      var wave := saved.waves[saved.round.value.n];
      var head: string := *;
      var changed: bool := *;
      if head != wave.head || changed || wave.prompts.None? {
        return Escalate;
      }
      if wave.report.Some? {
        if !Converging(wave.report.value) {
          return Escalate;
        }
        return Go(wave.report.value);
      }
      if saved.tokens.None? {
        return Escalate;
      }
      var disturbed :- DispatchWave(wave.prompts.value);
      r := FinishWave(rounds, stagnantRounds, disturbed);
    }

    // ----- Publishing and the gate -----------------------------------------

    /** Pushes exactly the reviewed head, or nothing. */
    method Publish(head: string) returns (r: Flow<bool>)
      modifies this`pushed, this`gated
      ensures r.Go? ==> pushed == Some(head) && gated == None
      ensures !r.Go? ==> pushed == old(pushed) && gated == old(gated)
    {
      var wrongBranch: bool := *;
      var actual: string := *;
      var dirty: bool := *;
      var pathViolation: bool := *;
      if wrongBranch || actual != head || dirty || pathViolation {
        return Escalate;
      }
      var pushFailed: bool := *;
      if pushFailed {
        return Halt;
      }
      pushed, gated := Some(actual), None;
      return Go(true);
    }

    /** Enters the gate phase and publishes the reviewed head, unless the run resumes at the gate. */
    method EnterGate(head: Option<string>, resumeAtGate: bool) returns (r: Flow<bool>)
      requires Valid()
      modifies this`saved, this`recorded, this`pushed, this`gated
      ensures Valid() && Evolves(old(saved), saved) && recorded == old(recorded)
      ensures saved == old(saved) || saved == old(saved).(phase := CiGating)
      ensures r.Go? ==> saved.phase.CiGating? && (!resumeAtGate ==> pushed == head && gated == None)
    {
      var _ :- MoveTo(CiGating);
      if !resumeAtGate {
        if head.None? {
          return Escalate;
        }
        r := Publish(head.value);
        return;
      }
      return Go(true);
    }

    /** Evaluates the gate on a pull request whose head is `head` before and after. */
    method EvaluateGate(head: Option<string>) returns (r: Flow<Decision>)
      requires Valid() && saved.phase.CiGating?
      modifies this`saved, this`recorded, this`gated
      ensures Valid() && Evolves(old(saved), saved) && recorded == old(recorded)
      ensures saved == old(saved).(pullRequest := saved.pullRequest)
      ensures r.Go? ==> head.Some? && gated == Some((head.value, head.value))
    {
      var prHead: string := *;
      if head.None? || prHead != head.value {
        return Halt;
      }
      assert recorded + [] == recorded;
      var number: int := *;
      var _ :- Save(saved.(pullRequest := Some(number)), []);
      var decision: Decision := *;
      var after: string := *;
      if after != prHead {
        return Halt;
      }
      gated := Some((prHead, after));
      var _ :- Save(saved, []);
      return Go(decision);
    }

    method NoteFailure(signature: string) returns (r: Flow<bool>)
      requires Valid()
      modifies this`saved, this`recorded
      ensures Valid() && Evolves(old(saved), saved) && recorded == old(recorded)
      ensures saved == old(saved).(ciFailures := saved.ciFailures)
      ensures r.Go? ==> saved.ciFailures == old(saved).ciFailures + {signature}
    {
      assert recorded + [] == recorded;
      r := Save(saved.(ciFailures := saved.ciFailures + {signature}), []);
    }

    /** What the process reports is what the checkpoint says. */
    predicate Ended(outcome: Outcome)
      reads this
    {
      match outcome
      case Done(_) => saved.phase.Done?
      case Failed => saved.phase.Failed?
      case CiPending => saved.phase.Queued?
      case _ => true
    }

    /** Ends the run on green or pending checks, or records a new failure to repair. */
    method SettleGate(d: Decision, rounds: nat, stagnantRounds: nat, resumeAtGate: bool) returns (r: Flow<Option<Outcome>>)
      requires Valid() && !saved.phase.Reviewing?
      modifies this`saved, this`recorded
      ensures Valid() && Evolves(old(saved), saved) && recorded == old(recorded) && SavedRound(saved) == SavedRound(old(saved))
      ensures saved.waves == old(saved).waves && saved.book == old(saved).book
      ensures r.Go? && d.passed ==> r.value == Some(Outcome.Done(CiGreen)) && saved.phase.Done?
      ensures r.Go? && !d.passed && d.pending ==> r.value == Some(CiPending) && saved.phase.Queued?
      ensures r.Go? && !d.passed && !d.pending ==>
                r.value == None && !resumeAtGate && d.failed && !saved.phase.Reviewing?
                && stagnantRounds < cfg.stagnation && rounds < cfg.maxTotalIterations
                && d.signature !in old(saved).ciFailures && d.signature in saved.ciFailures
    {
      if d.passed {
        var _ :- MoveTo(UpdatingPr);
        var _ :- MoveTo(Phase.Done);
        return Go(Some(Outcome.Done(CiGreen)));
      }
      if d.pending {
        var timedOut: bool := *;
        if timedOut {
          return Escalate;
        }
        var _ :- MoveTo(Queued);
        return Go(Some(CiPending));
      }
      if resumeAtGate || stagnantRounds >= cfg.stagnation || rounds >= cfg.maxTotalIterations || !d.failed {
        return Escalate;
      }
      if d.signature in saved.ciFailures {
        return Escalate;
      }
      var _ :- NoteFailure(d.signature);
      return Go(None);
    }

    /** Publishes, gates and settles; a repair leaves the round and the waves as they are. */
    method GateRound(head: Option<string>, rounds: nat, stagnantRounds: nat, resumeAtGate: bool) returns (r: Flow<Option<Outcome>>)
      requires Valid()
      modifies this`saved, this`recorded, this`pushed, this`gated
      ensures Valid() && Evolves(old(saved), saved) && recorded == old(recorded) && SavedRound(saved) == SavedRound(old(saved))
      ensures saved.waves == old(saved).waves && saved.book == old(saved).book
      ensures r.Go? && r.value.None? ==> !resumeAtGate && !saved.phase.Reviewing?
      ensures r == Go(Some(Outcome.Done(CiGreen))) ==>
                head.Some? && gated == Some((head.value, head.value)) && (!resumeAtGate ==> pushed == head)
      ensures r.Go? && r.value.Some? ==> Ended(r.value.value)
      ensures r.Go? && r.value.None? ==> old(saved).ciFailures < saved.ciFailures
    {
      var _ :- EnterGate(head, resumeAtGate);
      var decision :- EvaluateGate(head);
      r := SettleGate(decision, rounds, stagnantRounds, resumeAtGate);
    }

    // ----- The loop --------------------------------------------------------

    /** Whether proposals of an earlier turn are still to be adjudicated; threaded ones need reconciliation first. */
    method ResumeProposals() returns (r: Flow<bool>)
      requires Valid()
      ensures r.Go? ==> Pending(cfg, saved.book).Ok? && (r.value <==> !NothingPending(cfg, saved.book))
    {
      var pending := Pending(cfg, saved.book);
      if pending.Err? {
        return Escalate;
      }
      if exists f | f in saved.book.findings :: f.id in pending.value && f.threadId.Some? && f.threadId.value != "" {
        return Escalate;
      }
      return Go(pending.value != map[]);
    }

    /** Develops, unless proposals of an earlier turn are still to be adjudicated. */
    method DevelopUnlessResuming() returns (r: Flow<Option<Outcome>>)
      requires Valid() && InStep() && (saved.phase.Reviewing? ==> NothingPending(cfg, saved.book))
      modifies this`saved, this`recorded, this`promptTokens, this`dispatched
      ensures Valid() && Evolves(old(saved), saved) && SavedRound(saved) == SavedRound(old(saved))
      ensures r.Go? ==> InStep() && (r.value.None? ==> !saved.phase.Reviewing?)
      ensures r.Go? && r.value.Some? ==> r.value.value.Failed? && saved.phase.Failed?
    {
      var resuming :- ResumeProposals();
      if resuming {
        return Go(None);
      }
      r := Develop();
    }

    /** Develops unless resuming, reviews, and notices a developer who changed nothing. */
    method DevelopmentRound(recover: bool, rounds: nat, stagnantRounds: nat) returns (r: Flow<(Option<Outcome>, Report)>)
      requires Valid() && InStep() && Ready(Cursor(recover, rounds, stagnantRounds, None))
      modifies this`saved, this`recorded, this`promptTokens, this`dispatched, this`reviewed, this`pushed, this`gated
      ensures Valid() && Evolves(old(saved), saved)
      ensures r.Go? && r.value.0.None? ==>
                InStep() && Complete(saved, r.value.1) && saved.phase.Reviewing? && NothingPending(cfg, saved.book)
                && r.value.1.rounds == rounds + 1 && (r.value.1.remaining == 0 ==> NothingOpen(saved.book))
                && reviewed == Some(r.value.1) && pushed == None && gated == None
      ensures r.Go? && r.value.0.None? && !recover ==> SavedRound(saved) > SavedRound(old(saved))
      ensures r.Go? && r.value.0.Some? ==> r.value.0.value != Outcome.Done(CiGreen) && Ended(r.value.0.value)
    {
      var none := Report(0, 0, 0, "");
      if saved.usage.None? && (!saved.phase.Claiming? || saved.round.Some? || saved.book != Adjudication.Book([], [], [])) {
        return Escalate;
      }
      if !recover {
        var developed :- DevelopUnlessResuming();
        if developed.Some? {
          return Go((developed, none));
        }
      }
      var report :- ReviewRound(rounds, stagnantRounds);
      var changedNothing: bool := *;
      if report.remaining == 0 && changedNothing {
        var _ :- MoveTo(Phase.Done);
        return Go((Some(Outcome.Done(NoChanges)), none));
      }
      return Go((None, report));
    }

    /** The head of the last complete wave, which left nothing open, was published and gated unmoved. */
    ghost predicate GatedAsReviewed()
      reads this
    {
      && reviewed.Some? && reviewed.value.remaining == 0 && NothingOpen(saved.book) && NothingPending(cfg, saved.book)
      && pushed == Some(reviewed.value.head)
      && gated == Some((reviewed.value.head, reviewed.value.head))
      && exists n :: n in saved.waves && saved.waves[n].report == reviewed && saved.waves[n].head == reviewed.value.head
    }

    /** What a process that resumes may start from; anything else needs reconciliation. */
    method StartUp() returns (r: Flow<Cursor>)
      requires Valid()
      modifies this`promptTokens
      ensures Valid() && saved == old(saved)
      ensures r.Go? ==> InStep() && Ready(r.value)
    {
      var recover := saved.phase.Reviewing?;
      if (recover && !WavePlanned(saved)) || (saved.phase.Coding? && saved.turn.None?) {
        return Halt;
      }
      if saved.tokens.None? && (saved.turn.Some? || saved.waves != map[]) {
        return Escalate;
      }
      promptTokens := saved.tokens.GetOr(0);
      assert Cost([]) == 0;
      return Go(Cursor(recover, SavedRound(saved) - (if recover then 1 else 0), saved.stagnant, saved.head));
    }

    predicate Ready(at: Cursor)
      reads this
    {
      && at.rounds + (if at.recover then 1 else 0) == SavedRound(saved)
      && (at.recover ==> WavePlanned(saved))
      && (!at.recover && saved.phase.Reviewing? ==> NothingPending(cfg, saved.book))
    }

    /** One turn of the loop: develop and review, then publish and gate what was reviewed. */
    method Iterate(at: Cursor, resumeAtGate: bool) returns (r: Flow<Step>)
      requires Valid() && InStep() && Ready(at)
      modifies this
      ensures Valid() && Evolves(old(saved), saved)
      ensures r.Go? && r.value.Continue? ==>
                InStep() && Ready(r.value.at) && !r.value.at.recover && (at.recover || SavedRound(saved) > SavedRound(old(saved)))
      ensures r == Go(Finish(Outcome.Done(CiGreen))) && !resumeAtGate ==> GatedAsReviewed()
      ensures r.Go? && r.value.Finish? ==> Ended(r.value.outcome)
    {
      var next := at;
      if !resumeAtGate {
        var developed :- DevelopmentRound(at.recover, at.rounds, at.stagnantRounds);
        if developed.0.Some? {
          return Go(Finish(developed.0.value));
        }
        var report := developed.1;
        next := Cursor(false, report.rounds, report.stagnant, Some(report.head));
        if report.remaining > 0 {
          return Go(Continue(next));
        }
      }
      var settled :- GateRound(next.head, next.rounds, next.stagnantRounds, resumeAtGate);
      return Go(if settled.Some? then Finish(settled.value) else Continue(next));
    }

    /** Drives the run from whatever is saved until it ends, escalates, stops or dies. */
    method RunLoop(resumeAtGate: bool) returns (r: Flow<Outcome>)
      requires Valid()
      modifies this
      ensures Valid() && Evolves(old(saved), saved)
      ensures r == Go(Outcome.Done(CiGreen)) && !resumeAtGate ==> GatedAsReviewed()
      ensures r.Go? ==> Ended(r.value)
    {
      var at :- StartUp();
      while true
        invariant Valid() && InStep() && Evolves(old(saved), saved) && Ready(at)
        decreases cfg.maxReviewRounds - SavedRound(saved), if at.recover then 1 else 0
      {
        var cancelled: bool := *;
        if cancelled {
          return Go(Outcome.Cancelled);
        }
        var deadline: bool := *;
        if deadline {
          return Escalate;
        }
        var step :- Iterate(at, resumeAtGate);
        if step.Finish? {
          return Go(step.outcome);
        }
        at := step.at;
      }
    }
  }

  /** Where the loop stands between two turns. */
  datatype Cursor = Cursor(recover: bool, rounds: nat, stagnantRounds: nat, head: Option<string>)

  datatype Step = Finish(outcome: Outcome) | Continue(at: Cursor)

  /** The wave of the current round is complete with this report. */
  predicate Complete(c: Checkpoint, report: Report) {
    && report.rounds == SavedRound(c) && report.rounds in c.waves
    && c.waves[report.rounds].report == Some(report) && c.waves[report.rounds].head == report.head
  }

  function DispatchId(invocation: nat): string {
    "coder:" + Decimal(invocation)
  }

  /** Recording a turn with its charge keeps the checkpoint sound. */
  lemma TurnIsSound(cfg: Config, before: Checkpoint, c: Checkpoint, recorded: seq<string>, prompt: string)
    requires Sound(cfg, before, recorded) && Used(before) < cfg.maxInvocations
    requires WithinCap(cfg.spendCap, c.charges) && c.tokens == Some(Cost(recorded + [prompt])) && c.tokens.value <= cfg.maxTokens
    requires c == before.(charges := c.charges, tokens := c.tokens, usage := Some(Used(before) + 1),
                          turn := Some(Turn(Used(before) + 1, prompt, false, None)))
    ensures Sound(cfg, c, recorded + [prompt])
  {
    assert forall q :: q in recorded + [prompt] <==> q in recorded || q == prompt;
  }

  /** What one wave makes of the book: the book, how many findings are open, and whether every seat was usable. */
  datatype Settlement = Settlement(book: Adjudication.Book, remaining: nat, usable: bool)

  function Settle(cfg: Config, book: Adjudication.Book, n: nat, wave: Wave, raw: seq<Adjudication.Outcome>): Option<Settlement> {
    var answers := Adjudication.Zipped(wave.seats, Answering.Arrived(raw));
    var after := Adjudication.Persisted(cfg.policy, book, Review(n), wave.head, answers);
    if after.Err? then None
    else
      var findings := Adjudication.Concluded(cfg.policy, book, Review(n), wave.head, answers).value.0;
      var collected := Adjudication.Collect(cfg.policy, Review(n), wave.head, Adjudication.ArchivedIds(book.archived),
                                            Pending(cfg, book).value, book.findings, answers);
      Some(Settlement(after.value, |Adjudication.OpenFindings(findings)|, collected.usable))
  }

  /** Settling a wave that is ready keeps it so, and a wave of usable seats leaves nothing pending. */
  lemma SettleKeeps(cfg: Config, book: Adjudication.Book, n: nat, wave: Wave, raw: seq<Adjudication.Outcome>)
    requires cfg.WellFormed() && Answering.Grounded(book) && Answering.WaveReady(cfg.policy, wave.seats, book, Review(n))
    requires Settle(cfg, book, n, wave, raw).Some? && Answering.Decided(book.dispositions) <= n
    ensures var s := Settle(cfg, book, n, wave, raw).value;
            && Answering.Grounded(s.book) && Answering.WaveReady(cfg.policy, wave.seats, s.book, Review(n))
            && Answering.Decided(book.dispositions) <= Answering.Decided(s.book.dispositions) <= n
            && (s.usable ==> NothingPending(cfg, s.book)) && (s.remaining == 0 ==> NothingOpen(s.book))
  {
    var answers := Adjudication.Zipped(wave.seats, Answering.Arrived(raw));
    var after := Adjudication.Persisted(cfg.policy, book, Review(n), wave.head, answers).value;
    Adjudication.ZippedWave(wave.seats, Answering.Arrived(raw));
    Answering.PersistedKeepsReady(cfg.policy, book, Review(n), wave.head, answers, wave.seats, after);
    Answering.PersistedNumbers(cfg.policy, book, Review(n), wave.head, answers, after);
    var s := Settle(cfg, book, n, wave, raw).value;
    if s.usable {
      Answering.CompleteWaveLeavesNothing(cfg.policy, book, Review(n), wave.head, answers, wave.seats, Pending(cfg, book).value, after);
    }
    if s.remaining == 0 {
      Answering.NothingOpenStays(cfg.policy, book, Review(n), wave.head, answers, after);
    }
  }

  /** What the answers that came back, whatever they are, make of the book. */
  method TakeAnswers(cfg: Config, book: Adjudication.Book, n: nat, wave: Wave) returns (s: Option<Settlement>)
    requires cfg.WellFormed() && Answering.Grounded(book) && Answering.WaveReady(cfg.policy, wave.seats, book, Review(n))
    requires Answering.Decided(book.dispositions) <= n
    ensures s.Some? ==>
              && Answering.Grounded(s.value.book) && Answering.WaveReady(cfg.policy, wave.seats, s.value.book, Review(n))
              && Answering.Decided(book.dispositions) <= Answering.Decided(s.value.book.dispositions) <= n
              && (s.value.usable ==> NothingPending(cfg, s.value.book)) && (s.value.remaining == 0 ==> NothingOpen(s.value.book))
  {
    var raw: seq<Adjudication.Outcome> := *;
    s := Settle(cfg, book, n, wave, raw);
    if s.Some? {
      SettleKeeps(cfg, book, n, wave, raw);
    }
  }

  /** Replacing the book by what the wave of the current round settles keeps the checkpoint sound. */
  lemma SettledIsSound(cfg: Config, before: Checkpoint, c: Checkpoint, recorded: seq<string>, n: nat)
    requires Sound(cfg, before, recorded) && before.round == Some(Review(n)) && c == before.(book := c.book)
    requires WavePlanned(before) && before.waves[n].report.None?
    requires Answering.Grounded(c.book) && Answering.WaveReady(cfg.policy, before.waves[n].seats, c.book, Review(n))
    requires Answering.Decided(c.book.dispositions) <= n
    ensures Sound(cfg, c, recorded) && SavedRound(c) == SavedRound(before) == n
  {
  }

  /** Saving one wave of the current round, with its prompts charged, keeps the checkpoint sound. */
  lemma WaveIsSound(cfg: Config, before: Checkpoint, c: Checkpoint, recorded: seq<string>, prompts: seq<string>, n: nat, wave: Wave)
    requires Sound(cfg, before, recorded) && n == SavedRound(before) && before.round == Some(Review(n))
    requires WaveKept(cfg, before.book, wave, n)
    requires c == before.(waves := before.waves[n := wave], charges := c.charges, tokens := c.tokens,
                          signatures := c.signatures, stagnant := c.stagnant)
    requires WithinCap(cfg.spendCap, c.charges)
    requires if prompts == [] then c.tokens == before.tokens else c.tokens == Some(Cost(recorded + prompts))
    requires prompts != [] ==> c.tokens.value <= cfg.maxTokens
    requires wave.prompts.Some? ==> forall q | q in wave.prompts.value :: q in recorded || q in prompts
    requires wave.report.Some? ==> wave.report.value.rounds == n && wave.report.value.head == wave.head
    ensures Sound(cfg, c, recorded + prompts)
  {
    assert prompts == [] ==> recorded + prompts == recorded;
    assert forall q :: q in recorded + prompts <==> q in recorded || q in prompts;
  }

  /** A run and any number of later processes resuming it keep every budget and the accounting. */
  method Live(cfg: Config, resumes: seq<bool>) returns (run: Run)
    requires cfg.WellFormed()
    ensures run.cfg == cfg && Budgets(cfg, run.saved) && Accounted(cfg, run.saved, run.recorded)
    ensures forall q | q in run.dispatched :: q in run.recorded
  {
    run := new Run(cfg);
    var _ := run.RunLoop(false);
    for i := 0 to |resumes|
      invariant fresh(run) && run.Valid() && run.cfg == cfg
    {
      var _ := run.RunLoop(resumes[i]);
    }
  }
}
