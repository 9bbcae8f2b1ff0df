/** The Conclusion workflow as one process runs it (conclusion/manager.py), over files that
    survive it: the workflow state, the budget slots and the authorizations. */
module ConclusionManager {
  import opened Json
  import opened RevisionBudget
  import opened ConclusionState

  /** Whether the state file was last written by the first save of `integrate_candidates`. */
  datatype Writer = CandidateIntegration | AnyOther

  /** The files of one workflow. */
  datatype Disk = Disk(state: Option<State>, writer: Writer, slots: Slots, upstreamSlots: Slots,
                       grants: map<RequestId, Grant>)

  /** What the manager learns from outside at one point: an agent's answer and the findings
      on it, a sender, another layer's files. Each step uses the fields that concern it. */
  datatype Outside = Outside(
    answered: bool, covered: bool, reused: bool, id: string, candidates: set<string>, hasOption: bool,
    packaged: bool, sound: bool, review: Review, narrowed: Option<Target>,
    current: bool, upstreamSlot: bool, sends: bool, traceable: bool,
    found: bool, failed: Option<Agent>, authorized: bool, unanswered: bool,
    playwright: Option<Request>, complete: bool, repairable: bool)

  /** An answer that lets the workflow go on to the human gate: valid, complete and approving,
      with at least two candidates. */
  predicate Goes(o: Outside) {
    o.answered && o.covered && o.packaged && o.sound && |o.candidates| >= 2 && Passing(o.review)
  }

  /** The workflow waits for a selection. */
  predicate AtHumanGate(d: Disk) {
    d.state.Some? && d.state.value.status == WaitingHumanSelection
  }

  predicate HasCandidates(s: State) {
    s.positions.Some? && |s.positions.value| >= 2
  }

  /** One agent dispatch, with what was stored when it was made. */
  datatype Call = Call(agent: Agent, selection: Option<string>, final: Option<Final>)

  /** One authorized revision: its request, its budget slot, what its authorization allows
      and the agents it called. */
  datatype Cycle = Cycle(request: RequestId, slot: Option<nat>, allowed: nat, agents: seq<Agent>)

  datatype SelectionKind = Candidate | IntegratedOption | Defer

  // ---- what every saved state satisfies ----

  /** Checkpoints form a prefix; a final conclusion and a selection come together, agree and
      sit on a complete reviewed package; the counters stay within their limits. */
  ghost predicate Gated(s: State, chosen: map<string, Review>, maxRevisions: nat, maxRepairs: nat) {
    && (s.evaluation.Some? ==> s.positions.Some?)
    && (s.integration.Some? ==> s.evaluation.Some?)
    && (s.final.Some? <==> s.selection.Some?)
    && (s.final.Some? ==> s.final.value.selection == s.selection.value && s.selection.value in chosen)
    && (s.selection.Some? ==> s.integration.Some? && s.package.Some? && s.review.Some?)
    && s.revisionCount <= maxRevisions
    && (forall x {:trigger Count(s.repairs, x)} :: Count(s.repairs, x) <= maxRepairs)
    && (s.control.request.Some? ==> s.control.request.value.id.epoch == s.control.epoch)
  }

  /** The human gate. */
  ghost predicate AtGate(s: State, writer: Writer) {
    && (s.status == WaitingHumanSelection ==>
          && s.integration.Some? && s.package.Some? && s.validation == Some(true)
          && s.selection == None
          && (s.review == None <==> writer == CandidateIntegration)
          && (s.review.Some? ==> Passing(s.review.value)))
    && (s.status == Completed ==> s.final.Some?)
    && s.status != Finalizing
  }

  ghost predicate SoundDisk(d: Disk, chosen: map<string, Review>, maxRevisions: nat, maxRepairs: nat) {
    && (d.state.Some? ==> Gated(d.state.value, chosen, maxRevisions, maxRepairs) && AtGate(d.state.value, d.writer))
    && Sound(d.slots) && Within(d.slots, maxRevisions)
    && Sound(d.upstreamSlots) && Within(d.upstreamSlots, maxRevisions)
    && forall r | r in d.grants :: GrantSound(d.grants[r])
  }

  /** No specialist works beside a stored selection or final conclusion. */
  predicate Careful(c: Call) {
    c.agent != Reviewer ==> c.selection == None && c.final == None
  }

  predicate Affordable(c: Cycle) {
    |c.agents| <= c.allowed
  }

  /** The cycles hold budget slots that differ from each other and from the spent ones. */
  ghost predicate Fresh(cycles: seq<Cycle>, spent: set<nat>) {
    && (forall i | 0 <= i < |cycles| && cycles[i].slot.Some? :: cycles[i].slot.value !in spent)
    && (forall i, j | 0 <= i < j < |cycles| && cycles[i].slot.Some? :: cycles[i].slot != cycles[j].slot)
  }

  function AgentsOf(calls: seq<Call>): (r: seq<Agent>)
    ensures |r| == |calls| && forall i | 0 <= i < |calls| :: r[i] == calls[i].agent
  {
    seq(|calls|, i requires 0 <= i < |calls| => calls[i].agent)
  }

  lemma FreshFirst(c: Cycle, rest: seq<Cycle>, spent: set<nat>)
    requires c.slot.Some? ==> c.slot.value !in spent
    requires Fresh(rest, spent + (if c.slot.Some? then {c.slot.value} else {}))
    ensures Fresh([c] + rest, spent)
  {
    var all := [c] + rest;
    forall i | 0 <= i < |all| && all[i].slot.Some? ensures all[i].slot.value !in spent {
      if i > 0 {
        assert all[i] == rest[i - 1];
      }
    }
    forall i, j | 0 <= i < j < |all| && all[i].slot.Some? ensures all[i].slot != all[j].slot {
      assert all[j] == rest[j - 1];
      if i > 0 {
        assert all[i] == rest[i - 1];
      }
    }
  }

  lemma MoreChosen(d: Disk, chosen: map<string, Review>, more: map<string, Review>, maxRevisions: nat, maxRepairs: nat)
    requires SoundDisk(d, chosen, maxRevisions, maxRepairs) && chosen.Keys <= more.Keys
    ensures SoundDisk(d, more, maxRevisions, maxRepairs)
  {
  }

  lemma ClearedIsGated(s: State, a: Agent, chosen: map<string, Review>, maxRevisions: nat, maxRepairs: nat)
    requires Gated(s, chosen, maxRevisions, maxRepairs)
    ensures Gated(ClearFrom(s, a), chosen, maxRevisions, maxRepairs)
  {
  }

  ghost predicate SameFiles(a: Disk, b: Disk) {
    a.slots == b.slots && a.upstreamSlots == b.upstreamSlots && a.grants == b.grants
  }

  /** The calls since `before` are the first few stages from `first` on, each once, in order. */
  ghost predicate InOrder(before: seq<Call>, now: seq<Call>, first: Agent) {
    before <= now && AgentsOf(now[|before|..]) <= Closure(first)
  }

  /** The calls since `before` are those of the stages from `first` up to number `k`. */
  ghost predicate Reached(before: seq<Call>, now: seq<Call>, first: Agent, k: nat) {
    && k <= |ORDER| && before <= now
    && AgentsOf(now[|before|..]) == (if k <= Rank(first) then [] else ORDER[Rank(first)..k])
  }

  lemma NotStarted(before: seq<Call>, first: Agent)
    ensures Reached(before, before, first, 0)
  {
    assert before[|before|..] == [];
  }

  lemma Skipped(before: seq<Call>, now: seq<Call>, first: Agent, k: nat)
    requires Reached(before, now, first, k) && k < Rank(first)
    ensures Reached(before, now, first, k + 1)
  {
  }

  lemma NextStage(before: seq<Call>, now: seq<Call>, first: Agent, c: Call)
    requires Reached(before, now, first, Rank(c.agent)) && Rank(first) <= Rank(c.agent)
    ensures Reached(before, now + [c], first, Rank(c.agent) + 1)
  {
    assert (now + [c])[|before|..] == now[|before|..] + [c];
    assert AgentsOf(now[|before|..] + [c]) == AgentsOf(now[|before|..]) + [c.agent];
  }

  lemma SliceIsPrefix(s: seq<Agent>, i: nat, k: nat)
    requires i <= k <= |s|
    ensures s[i..k] <= s[i..]
  {
    assert s[i..k] == s[i..][..k - i];
  }

  lemma ReachedInOrder(before: seq<Call>, now: seq<Call>, first: Agent, k: nat)
    requires Reached(before, now, first, k)
    ensures InOrder(before, now, first)
  {
    if k > Rank(first) {
      SliceIsPrefix(ORDER, Rank(first), k);
    }
  }

  lemma InOrderIsFew(before: seq<Call>, now: seq<Call>, first: Agent)
    requires InOrder(before, now, first)
    ensures |now| - |before| <= |Closure(first)| <= 4
  {
  }

  /** `_finalize_active_revision`. */
  function Finalized(s: State, completed: bool): State {
    if s.control.phase != Executing || s.control.request.None? then s
    else s.(control := s.control.(phase := if completed then Done else Stuck,
                                  consumed := s.control.consumed + {s.control.request.value.id}))
  }

  /** The control state of a fresh request. */
  function Awaiting(c: Control, phase: Phase, r: Request): Control {
    Control(phase, r.id.epoch, Some(r), c.consumed)
  }

  function Max(a: nat, b: nat): nat {
    if a >= b then a else b
  }

  function Min(a: nat, b: nat): nat {
    if a <= b then a else b
  }

  /** `_plan_internal_revision`; `None` where it raises. */
  function Planned(s: State, review: Review, targets: seq<Target>): Option<State> {
    if s.package.None? || review.findings == {} || FirstAgent(targets).None? then None
    else
      var epoch := Max(s.control.epoch, s.revisionCount) + 1;
      var r := Request(RequestId(false, Internal, epoch, review.id, review.findings), targets, false);
      Some(s.(control := Awaiting(s.control, AuthorizationRequired, r), status := Blocked))
  }

  /** The first agent without a checkpoint: where `recover` continues. */
  function NextAgent(s: State): (r: Option<Agent>)
    ensures r.Some? ==> !HasCheckpoint(s, r.value) && forall a | Rank(a) < Rank(r.value) :: HasCheckpoint(s, a)
    ensures r.None? ==> forall a :: HasCheckpoint(s, a)
  {
    if !HasCheckpoint(s, Generator) then Some(Generator)
    else if !HasCheckpoint(s, Evaluator) then Some(Evaluator)
    else if !HasCheckpoint(s, Integrator) then Some(Integrator)
    else if !HasCheckpoint(s, Reviewer) then Some(Reviewer)
    else None
  }

  /** Checkpoints form a prefix: after a missing one no specialist's is there. */
  lemma MissingFrom(s: State, first: Agent, chosen: map<string, Review>, maxRevisions: nat, maxRepairs: nat)
    requires Gated(s, chosen, maxRevisions, maxRepairs) && !HasCheckpoint(s, first)
    ensures forall a | a in Closure(first) && a != Reviewer :: !HasCheckpoint(s, a)
  {
    forall a | a in Closure(first) && a != Reviewer ensures !HasCheckpoint(s, a) {
      assert Rank(first) <= Rank(a);
    }
  }

  lemma NothingCalled(calls: seq<Call>, first: Agent)
    ensures InOrder(calls, calls, first)
  {
    assert calls[|calls|..] == [];
  }

  lemma InOrderAgents(before: seq<Call>, now: seq<Call>, first: Agent, i: nat)
    requires InOrder(before, now, first) && |before| <= i < |now|
    ensures now[i].agent in Closure(first)
  {
    var agents := AgentsOf(now[|before|..]);
    assert agents[i - |before|] == now[i].agent;
    assert Closure(first)[i - |before|] == agents[i - |before|];
  }

  /** The checkpoint of an agent comes back from its saved response. */
  function WithCheckpoint(s: State, a: Agent, o: Outside): State {
    match a
    case Generator => s.(positions := Some(o.candidates))
    case Evaluator => s.(evaluation := Some(o.id))
    case Integrator => s.(integration := Some(Integration(o.id, o.hasOption)))
    case Reviewer => s.(review := Some(o.review))
  }

  lemma CheckpointIsBack(s: State, a: Agent, o: Outside, chosen: map<string, Review>, maxRevisions: nat,
                         maxRepairs: nat)
    requires Gated(s, chosen, maxRevisions, maxRepairs) && !HasCheckpoint(s, a)
    requires forall b | Rank(b) < Rank(a) :: HasCheckpoint(s, b)
    ensures Gated(WithCheckpoint(s, a, o), chosen, maxRevisions, maxRepairs)
    ensures forall b :: HasCheckpoint(WithCheckpoint(s, a, o), b) <==> HasCheckpoint(s, b) || b == a
  {
    assert a == Evaluator ==> HasCheckpoint(s, Generator);
    assert a == Integrator ==> HasCheckpoint(s, Evaluator);
  }

  /** The reset of `resume` for a handoff that answers no canonical request. */
  function Restarted(s: State): State {
    s.(positions := None, evaluation := None, integration := None, package := None, validation := None,
       review := None, selection := None, final := None, revisionCount := 0)
  }

  /** The request `_consume_deliberation_revision_result` derives from its parent. */
  function Rebuild(parent: RequestId, result: string): Request {
    Request(RequestId(false, Internal, parent.epoch + 1, result, parent.findings),
            [Specialist(Generator), Specialist(Evaluator), Specialist(Integrator)], false)
  }

  /** A Playwright request that `_activate_pending_playwright_revision` takes up. */
  predicate TakesUp(c: Control, r: Request) {
    && r.id.fromPlaywright && r.id.route == Upstream && r.id !in c.consumed
    && !(c.phase in {AuthorizationRequired, Executing} && c.request.Some?)
  }

  /** The review that `revise` acts on. */
  predicate Revisable(s: State) {
    && s.review.Some? && s.review.value.verdict == RevisionRequired && !s.review.value.deliberationReturn
    && s.review.value.targets != []
  }

  /** The state after `_manager_package_repair_plan` and its bookkeeping. */
  function Repaired(s: State, package: string): State {
    s.(package := Some(package), validation := Some(true), review := None, status := Revising,
       repairs := s.repairs + [Repair(s.upstreamCount, s.revisionCount)])
  }

  /** Whether `integrate_candidates` accepts these IDs. */
  predicate Integrable(s: State, ids: seq<string>) {
    && s.status == WaitingHumanSelection && |ids| >= 2
    && s.positions.Some? && forall id | id in ids :: id in s.positions.value
  }

  /** Whether `select` may store this choice. */
  predicate Selectable(s: State, ids: seq<string>, kind: SelectionKind) {
    && s.status == WaitingHumanSelection && s.review.Some? && Passing(s.review.value) && !kind.Defer?
    && s.positions.Some? && (forall id | id in ids :: id in s.positions.value)
    && (kind.Candidate? ==> |ids| == 1)
    && (kind.IntegratedOption? ==> s.integration.Some? && s.integration.value.hasOption)
  }

  /** A selection is stored with the final conclusion built on it and the review it was made
      on; the workflow is completed when the handoff was sent. */
  ghost predicate Decided(before: Option<State>, after: Option<State>, chosen: map<string, Review>) {
    && before.Some? && after.Some? && after.value.selection.Some? && after.value.selection.value in chosen
    && after.value.final.Some? && after.value.final.value.selection == after.value.selection.value
    && before.value.review == Some(chosen[after.value.selection.value])
    && (after.value.status == Failed || (after.value.status == Completed && after.value.sent))
  }

  datatype Command =
    | Start | Resume | Recover | Revise(actor: Actor)
    | IntegrateCandidates(ids: seq<string>) | Select(ids: seq<string>, kind: SelectionKind)
    | Crash(at: nat)

  class Manager {
    const safeMode: bool
    const maxRevisions: nat
    const maxRepairs: nat
    const world: nat -> Outside
    var asked: nat
    var disk: Disk
    var state: State
    /** Every version of the files, one per write: the points where a crash can leave them. */
    var history: seq<Disk>
    ghost var calls: seq<Call>
    ghost var cycles: seq<Cycle>
    /** The selections made, each with the review it was made on. */
    ghost var chosen: map<string, Review>

    /** Every answer from outside lets the workflow go on. */
    ghost predicate Smooth() {
      forall k :: Goes(world(k))
    }

    ghost predicate Valid()
      reads `disk, `history, `calls, `cycles, `chosen
    {
      && history != [] && history[|history| - 1] == disk
      && (forall i | 0 <= i < |history| :: SoundDisk(history[i], chosen, maxRevisions, maxRepairs))
      && (forall c | c in calls :: Careful(c))
      && (forall c | c in cycles :: Affordable(c))
      && (forall id | id in chosen :: Passing(chosen[id]))
    }

    ghost predicate Ready()
      reads `disk, `history, `calls, `cycles, `chosen, `state
    {
      Valid() && Gated(state, chosen, maxRevisions, maxRepairs)
    }

    /** These budget slots belong to requests planned before the given epoch. */
    ghost predicate Spent(spent: set<nat>, epoch: nat)
      reads `disk
    {
      forall i | i in spent :: i in disk.slots && disk.slots[i].epoch < epoch
    }

    constructor (safeMode: bool, maxRevisions: nat, maxRepairs: nat, world: nat -> Outside)
      ensures Valid() && disk.state == None && history == [disk] && calls == [] && cycles == [] && chosen == map[]
      ensures this.safeMode == safeMode && this.maxRevisions == maxRevisions && this.world == world
    {
      this.safeMode, this.maxRevisions, this.maxRepairs, this.world := safeMode, maxRevisions, maxRepairs, world;
      asked, calls, cycles, chosen, state := 0, [], [], map[], INITIAL;
      disk := Disk(None, AnyOther, map[], map[], map[]);
      history := [Disk(None, AnyOther, map[], map[], map[])];
    }

    method Ask() returns (o: Outside)
      modifies this`asked
      ensures Smooth() ==> Goes(o)
    {
      o := world(asked);
      asked := asked + 1;
    }

    method Write(d: Disk)
      requires Valid() && SoundDisk(d, chosen, maxRevisions, maxRepairs)
      modifies this`disk, this`history
      ensures Valid() && disk == d && old(history) < history
    {
      disk := d;
      history := history + [d];
    }

    /** `repository.save`. */
    method Save(writer: Writer)
      requires Ready() && AtGate(state, writer)
      modifies this`disk, this`history
      ensures Ready() && disk == old(disk).(state := Some(state), writer := writer) && old(history) < history
    {
      Write(disk.(state := Some(state), writer := writer));
    }

    /** `_execute_agent`: the request is saved, then the agent is called, then its response
        is saved whether or not it is valid. */
    method Dispatch(agent: Agent) returns (o: Outside)
      requires Ready() && AtGate(state, AnyOther) && (agent != Reviewer ==> state.selection == None)
      modifies this`disk, this`history, this`calls, this`asked
      ensures Ready() && old(history) <= history
      ensures calls == old(calls) + [Call(agent, state.selection, state.final)]
      ensures disk == old(disk).(state := Some(state), writer := AnyOther)
      ensures Smooth() ==> Goes(o)
    {
      Save(AnyOther);
      calls := calls + [Call(agent, state.selection, state.final)];
      o := Ask();
      Save(AnyOther);
    }

    method Fail()
      requires Ready()
      modifies this`state, this`disk, this`history
      ensures Ready() && state == old(state).(status := Failed) && old(history) <= history
      ensures disk == old(disk).(state := Some(state), writer := AnyOther)
    {
      state := state.(status := Failed);
      Save(AnyOther);
    }

    method Block()
      requires Ready()
      modifies this`state, this`disk, this`history
      ensures Ready() && state == old(state).(status := Blocked) && old(history) <= history
      ensures disk == old(disk).(state := Some(state), writer := AnyOther)
    {
      state := state.(status := Blocked);
      Save(AnyOther);
    }

    // ---- the stages ----

    /** `_generate_positions`, with the save that follows it. */
    method GeneratePositions() returns (ok: bool)
      requires Ready() && state.selection == None
      modifies this`state, this`disk, this`history, this`calls, this`asked
      ensures Ready() && old(history) <= history && SameFiles(old(disk), disk)
      ensures calls == old(calls) + [Call(Generator, None, old(state).final)]
      ensures state == old(state).(status := GeneratingPositions, positions := state.positions)
      ensures if ok then state.positions.Some? else state.positions == old(state).positions
      ensures Smooth() ==> ok && |state.positions.value| >= 2
    {
      hide Goes, SoundDisk, Careful, Affordable;
      state := state.(status := GeneratingPositions);
      var o := Dispatch(Generator);
      ok := o.answered;
      if ok {
        state := state.(positions := Some(o.candidates));
        Save(AnyOther);
      }
    }

    /** `_evaluate_positions`: an evaluation that does not cover the candidates is refused. */
    method EvaluatePositions() returns (ok: bool)
      requires Ready() && state.selection == None && state.positions.Some?
      modifies this`state, this`disk, this`history, this`calls, this`asked
      ensures Ready() && old(history) <= history && SameFiles(old(disk), disk)
      ensures calls == old(calls) + [Call(Evaluator, None, old(state).final)]
      ensures state == old(state).(status := EvaluatingPositions, evaluation := state.evaluation)
      ensures if ok then state.evaluation.Some? else state.evaluation == old(state).evaluation
      ensures Smooth() ==> ok
    {
      hide Goes, SoundDisk, Careful, Affordable;
      state := state.(status := EvaluatingPositions);
      var o := Dispatch(Evaluator);
      ok := o.answered && o.covered;
      if o.answered {
        Save(AnyOther);
      }
      if ok {
        state := state.(evaluation := Some(o.id));
        Save(AnyOther);
      }
    }

    method IntegrateDecision() returns (ok: bool)
      requires Ready() && state.selection == None && state.evaluation.Some?
      modifies this`state, this`disk, this`history, this`calls, this`asked
      ensures Ready() && old(history) <= history && SameFiles(old(disk), disk)
      ensures calls == old(calls) + [Call(Integrator, None, old(state).final)]
      ensures state == old(state).(status := IntegratingDecision, integration := state.integration)
      ensures if ok then state.integration.Some? else state.integration == old(state).integration
      ensures Smooth() ==> ok
    {
      hide Goes, SoundDisk, Careful, Affordable;
      state := state.(status := IntegratingDecision);
      var o := Dispatch(Integrator);
      ok := o.answered;
      if ok {
        state := state.(integration := Some(Integration(o.id, o.hasOption)));
        Save(AnyOther);
      }
    }

    /** `_request_review`: a saved review of these very artifacts is used again. */
    method RequestReview() returns (review: Option<Review>)
      requires Ready()
      modifies this`state, this`disk, this`history, this`calls, this`asked
      ensures Ready() && old(history) <= history && SameFiles(old(disk), disk)
      ensures calls == old(calls) || calls == old(calls) + [Call(Reviewer, old(state).selection, old(state).final)]
      ensures state == old(state).(status := Reviewing)
      ensures Smooth() ==> review.Some? && Passing(review.value)
    {
      hide Goes, SoundDisk, Careful, Affordable;
      state := state.(status := Reviewing);
      var o := Ask();
      if o.reused {
        return Some(o.review);
      }
      o := Dispatch(Reviewer);
      review := if o.answered then Some(o.review) else None;
    }

    /** The part of the `try` block that runs the specialists, from a stage on. */
    method Specialists(first: Agent) returns (ok: bool)
      requires Ready() && (first != Reviewer ==> state.selection == None)
      requires first == Reviewer ==> AtGate(state, AnyOther) && state.status != WaitingHumanSelection
      modifies this`state, this`disk, this`history, this`calls, this`asked
      ensures Ready() && old(history) <= history && SameFiles(old(disk), disk)
      ensures InOrder(old(calls), calls, first) && (ok ==> Reached(old(calls), calls, first, 3))
      ensures ok ==> state.integration.Some? && AtGate(state, AnyOther) && state.status != WaitingHumanSelection
      ensures state.control == old(state).control && state.revisionCount == old(state).revisionCount
      ensures state.selection == old(state).selection && state.final == old(state).final
      ensures Smooth() && first == Generator ==> ok && HasCandidates(state)
    {
      hide Goes, SoundDisk, Careful, Affordable, Gated, Reached, InOrder, Closure;
      ghost var before := calls;
      NotStarted(before, first);
      ok := true;
      if first == Generator {
        ok := GeneratePositions();
        NextStage(before, before, first, Call(Generator, None, old(state).final));
      } else {
        Skipped(before, before, first, 0);
      }
      ReachedInOrder(before, calls, first, 1);
      if !ok || state.positions.None? {
        return false;
      }
      ghost var mid := calls;
      if Rank(first) <= 1 {
        ok := EvaluatePositions();
        NextStage(before, mid, first, Call(Evaluator, None, old(state).final));
      } else {
        Skipped(before, mid, first, 1);
      }
      ReachedInOrder(before, calls, first, 2);
      if !ok || state.evaluation.None? {
        return false;
      }
      mid := calls;
      if Rank(first) <= 2 {
        ok := IntegrateDecision();
        NextStage(before, mid, first, Call(Integrator, None, old(state).final));
      } else {
        Skipped(before, mid, first, 2);
      }
      ReachedInOrder(before, calls, first, 3);
      ok := ok && state.integration.Some?;
    }

    /** The rest of it: the package, its deterministic validation and the review. */
    method PackageAndReview() returns (review: Option<Review>)
      requires Ready() && state.integration.Some? && AtGate(state, AnyOther) && state.status != WaitingHumanSelection
      modifies this`state, this`disk, this`history, this`calls, this`asked
      ensures Ready() && old(history) <= history && SameFiles(old(disk), disk)
      ensures calls == old(calls) || calls == old(calls) + [Call(Reviewer, state.selection, state.final)]
      ensures review.Some? ==>
                && state.status == Reviewing && state.integration.Some? && state.package.Some?
                && state.validation.Some? && (state.validation.value ==> state.selection == None)
      ensures state.control == old(state).control && state.revisionCount == old(state).revisionCount
      ensures state.selection == old(state).selection && state.final == old(state).final
      ensures state.positions == old(state).positions
      ensures Smooth() && state.selection == None ==>
                review.Some? && Passing(review.value) && state.validation == Some(true)
    {
      hide Goes, SoundDisk, Careful, Affordable;
      review := None;
      var o := Ask();
      if o.packaged {
        state := state.(package := Some(o.id), validation := Some(o.sound && state.selection == None));
        Save(AnyOther);
        review := RequestReview();
      }
    }

    /** The `try` block of `_run_generation_and_review`, from a stage on. Without a review the
        workflow has failed and is saved so. */
    method Pass(first: Agent) returns (review: Option<Review>)
      requires Ready() && (first != Reviewer ==> state.selection == None)
      requires first == Reviewer ==> AtGate(state, AnyOther) && state.status != WaitingHumanSelection
      modifies this`state, this`disk, this`history, this`calls, this`asked
      ensures Ready() && old(history) <= history && SameFiles(old(disk), disk)
      ensures InOrder(old(calls), calls, first)
      ensures review.Some? ==>
                && state.status == Reviewing && state.integration.Some? && state.package.Some?
                && state.validation.Some? && (state.validation.value ==> state.selection == None)
      ensures state.control == old(state).control && state.revisionCount == old(state).revisionCount
      ensures state.selection == old(state).selection && state.final == old(state).final
      ensures Smooth() && first == Generator ==>
                review.Some? && Passing(review.value) && state.validation == Some(true) && HasCandidates(state)
    {
      hide Goes, SoundDisk, Careful, Affordable, Gated, Reached, InOrder, Closure;
      review := None;
      ghost var before := calls;
      var ok := Specialists(first);
      if ok {
        ghost var mid := calls;
        review := PackageAndReview();
        if calls == mid {
          ReachedInOrder(before, mid, first, 3);
        } else {
          NextStage(before, mid, first, Call(Reviewer, state.selection, state.final));
          ReachedInOrder(before, calls, first, 4);
        }
      }
      if review.None? {
        Fail();
      }
    }

    // ---- after the review ----

    /** `_request_upstream_revision`: a budget slot, then the wait for Deliberation. */
    method RequestUpstreamRevision(review: Review)
      requires Ready()
      modifies this`state, this`disk, this`history
      ensures Valid() && old(history) <= history
    {
      hide Careful, Affordable;
      if state.package.None? {
        return;
      }
      var epoch := Max(state.upstreamCount, state.control.epoch) + 1;
      var r := Request(RequestId(false, Upstream, epoch, review.id, review.findings), [], false);
      var now, slot := Consume(disk.upstreamSlots, r.id, maxRevisions);
      if slot.None? {
        return;
      }
      Write(disk.(upstreamSlots := now));
      state := state.(upstreamCount := state.upstreamCount + 1, status := WaitingUpstreamRevision,
                      control := Awaiting(state.control, WaitingUpstreamResult, r));
      Save(AnyOther);
    }

    /** An approving review: the human gate opens unless the deterministic validation failed. */
    method Accept()
      requires Ready() && state.status == Reviewing && state.review.Some? && Passing(state.review.value)
      requires state.integration.Some? && state.package.Some?
      requires state.validation == Some(true) ==> state.selection == None
      modifies this`state, this`disk, this`history
      ensures Ready() && old(history) <= history && SameFiles(old(disk), disk)
      ensures state.status == WaitingHumanSelection <==> state.validation == Some(true)
      ensures state.validation == old(state).validation
      ensures disk.state == Some(state) && state.positions == old(state).positions
    {
      hide Goes, SoundDisk, Careful, Affordable;
      if state.validation != Some(true) {
        Block();
        return;
      }
      if state.control.request.None? || !state.control.request.value.id.fromPlaywright {
        state := Finalized(state, true);
      }
      state := state.(status := WaitingHumanSelection);
      Save(AnyOther);
    }

    /** A review that does not approve: the workflow stops, waits for Deliberation, or has a
        saved plan. `go` tells that the plan is to be executed at once. */
    method Revisit(review: Review) returns (go: bool)
      requires Ready() && state.status == Reviewing
      modifies this`state, this`disk, this`history, this`asked
      ensures Valid() && old(history) <= history
      ensures go ==>
                && Ready() && !safeMode && SameFiles(old(disk), disk)
                && state.control.request.Some? && state.control.request.value.id.route == Internal
                && !state.control.request.value.id.fromPlaywright
                && state.control.epoch > old(state).control.epoch
    {
      hide Goes, SoundDisk, Careful, Affordable;
      go := false;
      var finished := state.control.phase == Executing;
      state := Finalized(state, false);
      if review.verdict == Stopped {
        Block();
      } else if review.deliberationReturn {
        RequestUpstreamRevision(review);
      } else if !safeMode && state.revisionCount + 1 >= maxRevisions {
        state := state.(revisionCount := Min(maxRevisions, state.revisionCount + 1));
        Block();
      } else if safeMode && finished {
        Block();
      } else {
        var o := Ask();
        var planned := Plan(review, if o.narrowed.Some? then [o.narrowed.value] else review.targets);
        go := planned && !safeMode;
      }
    }

    /** `_plan_internal_revision` and the save that follows it. */
    method Plan(review: Review, targets: seq<Target>) returns (ok: bool)
      requires Ready()
      modifies this`state, this`disk, this`history
      ensures Ready() && old(history) <= history && SameFiles(old(disk), disk)
      ensures ok <==> Planned(old(state), review, targets).Some?
      ensures state == if ok then Planned(old(state), review, targets).value else old(state)
    {
      hide Goes, SoundDisk, Careful, Affordable;
      var planned := Planned(state, review, targets);
      ok := planned.Some?;
      if ok {
        state := planned.value;
        Save(AnyOther);
      }
    }

    /** The part of `_run_generation_and_review` after the review. With Safe Mode on it never
        calls an agent; with Safe Mode off it starts the next revision, which needs a budget
        slot no earlier one of this run holds. */
    method Decide(review: Option<Review>, ghost spent: set<nat>)
      requires Ready() && Spent(spent, state.control.epoch + 1)
      requires review.Some? ==>
                && state.status == Reviewing && state.integration.Some? && state.package.Some?
                && state.validation.Some? && (state.validation.value ==> state.selection == None)
      modifies this`state, this`disk, this`history, this`calls, this`asked, this`cycles
      ensures Valid() && old(history) <= history && old(calls) <= calls && old(cycles) <= cycles
      ensures safeMode ==> calls == old(calls) && cycles == old(cycles)
      ensures Fresh(cycles[|old(cycles)|..], spent)
      ensures |cycles| - |old(cycles)| <= maxRevisions - |spent|
      ensures |calls| - |old(calls)| <= 4 * (maxRevisions - |spent|)
      ensures review.Some? && Passing(review.value) && old(state).validation == Some(true) ==>
                AtHumanGate(disk) && disk.state.value.positions == old(state).positions
      decreases maxRevisions - |spent|, if safeMode then 1 else 2
    {
      SpentIsFew(spent, state.control.epoch + 1);
      assert cycles[|old(cycles)|..] == [];
      hide Goes, SoundDisk, Careful, Affordable, Gated;
      if review.Some? {
        Record(review.value);
        if Passing(review.value) {
          Accept();
        } else {
          var go := Revisit(review.value);
          if go {
            Execute(Actor("conclusion.manager", "SYSTEM", "execute the saved revision"), spent);
          }
        }
      }
    }

    method Record(review: Review)
      requires Ready() && state.status == Reviewing
      modifies this`state, this`disk, this`history
      ensures Ready() && old(history) <= history && SameFiles(old(disk), disk)
      ensures state == old(state).(review := Some(review))
    {
      hide Goes, SoundDisk, Careful, Affordable;
      state := state.(review := Some(review));
      Save(AnyOther);
    }

    lemma SpentIsFew(spent: set<nat>, epoch: nat)
      requires Valid() && Spent(spent, epoch)
      ensures |spent| <= maxRevisions
    {
      assert SoundDisk(history[|history| - 1], chosen, maxRevisions, maxRepairs);
      SubsetSize(spent, UpTo(maxRevisions));
    }

    /** `create_authorization_once`, unless another actor holds the authorization already. */
    method GrantOnce(actor: Actor, id: RequestId, count: nat) returns (ok: bool)
      requires Ready()
      modifies this`disk, this`history
      ensures Ready() && old(history) <= history && disk == old(disk).(grants := disk.grants)
      ensures ok <==> id in disk.grants && disk.grants[id].actor == actor
      ensures id !in old(disk).grants ==> disk.grants == old(disk).grants[id := Grant(actor, count, None)]
      ensures id in old(disk).grants ==> disk == old(disk)
    {
      hide Careful, Affordable, Gated, Sound, Within;
      if id !in disk.grants {
        Write(disk.(grants := disk.grants[id := Grant(actor, count, None)]));
      }
      ok := disk.grants[id].actor == actor;
    }

    /** The internal budget slot of a request; `None` when the budget is exhausted. */
    method TakeSlot(id: RequestId) returns (slot: Option<nat>)
      requires Ready()
      modifies this`disk, this`history
      ensures Ready() && old(history) <= history && disk == old(disk).(slots := disk.slots)
      ensures disk.slots.Keys >= old(disk).slots.Keys && forall i | i in old(disk).slots ::
                disk.slots[i] == old(disk).slots[i]
      ensures slot.Some? ==> Held(disk.slots, slot.value, id) && slot.value <= maxRevisions
      ensures slot.None? ==> disk == old(disk)
    {
      hide Careful, Affordable, Gated, GrantSound;
      var now;
      now, slot := Consume(disk.slots, id, maxRevisions);
      if slot.Some? {
        SlotsStayWithin(disk.slots, now, slot.value, id);
        assert Held(now, slot.value, id);
        Write(disk.(slots := now));
      }
    }

    /** `consume_authorization`: once for one list of reservations, and never for more of
        them than it allows. */
    method ConsumeGrant(id: RequestId, tasks: seq<Task>) returns (allowed: Option<nat>)
      requires Ready() && id in disk.grants
      modifies this`disk, this`history
      ensures Ready() && old(history) <= history && disk == old(disk).(grants := disk.grants)
      ensures id in disk.grants
      ensures allowed.Some? ==>
                |tasks| <= allowed.value
                    && disk.grants[id] == Grant(old(disk).grants[id].actor, allowed.value, Some(tasks))
    {
      hide Careful, Affordable, Gated, Sound, Within;
      var grant := disk.grants[id];
      if (grant.tasks.Some? && grant.tasks != Some(tasks)) || |tasks| > grant.allowed
          || (grant.allowed > 0 && tasks == []) {
        return None;
      }
      Write(disk.(grants := disk.grants[id := grant.(tasks := Some(tasks))]));
      allowed := Some(grant.allowed);
    }

    /** The authorization and the budget slot of a revision. `allowed` is what the consumed
        authorization permits; without it nothing may run. */
    method Authorize(actor: Actor, id: RequestId, tasks: seq<Task>, upstreamSlot: bool)
      returns (allowed: Option<nat>, slot: Option<nat>)
      requires Ready()
      modifies this`state, this`disk, this`history
      ensures Ready() && old(history) <= history
      ensures disk.slots.Keys >= old(disk).slots.Keys && forall i | i in old(disk).slots ::
                disk.slots[i] == old(disk).slots[i]
      ensures allowed.Some? ==>
                && state == old(state) && |tasks| <= allowed.value
                && id in disk.grants && disk.grants[id] == Grant(actor, allowed.value, Some(tasks))
                && (slot.Some? <==> id.route == Internal)
                && (slot.Some? ==> Held(disk.slots, slot.value, id) && slot.value <= maxRevisions)
    {
      hide Careful, Affordable, Gated, SoundDisk;
      allowed, slot := None, None;
      var ok := GrantOnce(actor, id, |tasks|);
      if ok {
        if id.route == Internal {
          slot := TakeSlot(id);
        }
        if slot.Some? || (id.route == Upstream && upstreamSlot) {
          allowed := ConsumeGrant(id, tasks);
        } else {
          BlockExhausted(id.epoch);
        }
      }
    }

    lemma SlotsStayWithin(before: Slots, now: Slots, slot: nat, id: RequestId)
      requires Within(before, maxRevisions)
      requires now == before || (1 <= slot <= maxRevisions && now == before[slot := id])
      ensures Within(now, maxRevisions)
    {
    }

    /** The budget is used up: the workflow stops where it is. */
    method BlockExhausted(epoch: nat)
      requires Ready()
      modifies this`state, this`disk, this`history
      ensures Ready() && old(history) <= history && SameFiles(old(disk), disk)
    {
      hide Goes, SoundDisk, Careful, Affordable;
      state := state.(revisionCount := Max(state.revisionCount, Min(maxRevisions, epoch)),
                      control := state.control.(phase := Stuck), status := Blocked);
      Save(AnyOther);
    }

    /** The agents of one authorized revision, no more of them than were authorized. */
    method RunAgents(ghost id: RequestId, ghost slot: Option<nat>, ghost allowed: nat, first: Agent)
      returns (review: Option<Review>)
      requires Ready() && state.selection == None && state.status == Revising && |Closure(first)| <= allowed
      modifies this`state, this`disk, this`history, this`calls, this`asked, this`cycles
      ensures Ready() && old(history) <= history && SameFiles(old(disk), disk) && old(calls) <= calls
      ensures |calls| - |old(calls)| <= 4 && |cycles| - |old(cycles)| <= 1
      ensures exists agents :: cycles == old(cycles) + [Cycle(id, slot, allowed, agents)]
      ensures review.Some? ==>
                && state.status == Reviewing && state.integration.Some? && state.package.Some?
                && state.validation.Some? && (state.validation.value ==> state.selection == None)
      ensures state.control == old(state).control
    {
      hide SoundDisk, Careful, Gated, Closure;
      ghost var before := calls;
      review := Pass(first);
      InOrderIsFew(before, calls, first);
      cycles := cycles + [Cycle(id, slot, allowed, AgentsOf(calls[|before|..]))];
    }

    /** One authorized revision: its agents, then what its review asks for. */
    method RunCycle(id: RequestId, slot: Option<nat>, allowed: nat, first: Agent, ghost spent: set<nat>)
      requires Ready() && Spent(spent, id.epoch) && id.epoch == state.control.epoch
      requires state.selection == None && state.status == Revising && |Closure(first)| <= allowed
      requires if slot.Some? then Held(disk.slots, slot.value, id) else safeMode
      modifies this`state, this`disk, this`history, this`calls, this`asked, this`cycles
      ensures Valid() && old(history) <= history && old(calls) <= calls && old(cycles) <= cycles
      ensures Fresh(cycles[|old(cycles)|..], spent)
      ensures |cycles| - |old(cycles)| <= (if safeMode then 1 else maxRevisions - |spent|)
      ensures |calls| - |old(calls)| <= (if safeMode then 4 else 4 * (maxRevisions - |spent|))
      decreases maxRevisions - |spent|, if safeMode then 2 else 0
    {
      hide Goes, SoundDisk, Careful, Affordable, Gated, Fresh, Closure;
      ghost var done := cycles;
      var review := RunAgents(id, slot, allowed, first);
      ghost var more := spent + (if slot.Some? then {slot.value} else {});
      SpentIsFew(more, id.epoch + 1);
      Decide(review, more);
      ghost var rest := cycles[|done| + 1..];
      FreshFirst(cycles[|done|], rest, spent);
      assert cycles[|done|..] == [cycles[|done|]] + rest;
    }

    /** The first part of `_execute_upstream_refresh_revision`: everything up to the agents.
        A Playwright request that keeps the selection is answered here. */
    method Begin(actor: Actor) returns (go: bool, first: Agent, allowed: nat, slot: Option<nat>)
      requires Ready()
      modifies this`state, this`disk, this`history, this`asked
      ensures Valid() && old(history) <= history
      ensures disk.slots.Keys >= old(disk).slots.Keys && forall i | i in old(disk).slots ::
                disk.slots[i] == old(disk).slots[i]
      ensures go ==>
                && Ready() && state.selection == None && state.status == Revising && |Closure(first)| <= allowed
                && state.control.request == old(state).control.request && state.control.request.Some?
                && state.control.epoch == old(state).control.epoch
                && (slot.Some? <==> state.control.request.value.id.route == Internal)
                && (slot.Some? ==> Held(disk.slots, slot.value, state.control.request.value.id))
    {
      hide Goes, SoundDisk, Careful, Affordable, Closure, Gated;
      go, first, allowed, slot := false, Generator, 0, None;
      if state.control.phase !in {AuthorizationRequired, Executing} || state.control.request.None? {
        return;
      }
      var o := Ask();
      var request := state.control.request.value;
      if !o.current || (request.id.route == Upstream && !request.id.fromPlaywright) {
        return;
      }
      var target := FirstAgent(request.targets);
      if target.None? && !Reissues(request) {
        return;
      }
      var agents := if Reissues(request) then [] else Closure(target.value);
      var granted;
      granted, slot := Authorize(actor, request.id, TasksOf(agents, state.upstreamCount, request.id.epoch),
          o.upstreamSlot);
      if granted.None? {
        return;
      }
      Enter(slot);
      if Reissues(request) {
        if state.final.Some? && o.sends {
          Reissue();
        }
      } else {
        go, first, allowed := true, target.value, granted.value;
        StartOver(first);
      }
    }

    /** The revision begins: its slot counts. */
    method Enter(slot: Option<nat>)
      requires Ready() && (slot.Some? ==> slot.value <= maxRevisions)
      modifies this`state
      ensures Ready()
      ensures state == old(state).(control := old(state).control.(phase := Executing),
                                   revisionCount := if slot.Some? then Max(old(state).revisionCount, slot.value)
                                       else old(state).revisionCount)
    {
      hide Goes, SoundDisk, Careful, Affordable;
      state := state.(control := state.control.(phase := Executing),
                      revisionCount := if slot.Some? then Max(state.revisionCount, slot.value)
                          else state.revisionCount);
    }

    /** Everything from the first agent on is dropped, with the selection and the final
        conclusion, before any agent runs. */
    method StartOver(first: Agent)
      requires Ready()
      modifies this`state, this`disk, this`history
      ensures Ready() && old(history) <= history && SameFiles(old(disk), disk)
      ensures state == ClearFrom(old(state), first).(status := Revising)
      ensures forall b :: HasCheckpoint(state, b) <==> HasCheckpoint(old(state), b) && Rank(b) < Rank(first)
    {
      hide Goes, SoundDisk, Careful, Affordable;
      ClearedIsGated(state, first, chosen, maxRevisions, maxRepairs);
      forall b ensures HasCheckpoint(ClearFrom(state, first), b) <==> HasCheckpoint(state, b) && Rank(b) < Rank(first) {
        ClearKeepsPrefix(state, first, b);
      }
      state := ClearFrom(state, first).(status := Revising);
      Save(AnyOther);
    }

    /** The handoff is sent again, with the selection and the final conclusion as they are. */
    method Reissue()
      requires Ready() && state.final.Some?
      modifies this`state, this`disk, this`history
      ensures Ready() && old(history) <= history && SameFiles(old(disk), disk)
      ensures state.status == Completed && state.final == old(state).final && state.selection == old(state).selection
    {
      hide Goes, SoundDisk, Careful, Affordable;
      state := Finalized(state.(sent := true), true).(status := Completed);
      Save(AnyOther);
    }

    /** `_execute_upstream_refresh_revision`. */
    method Execute(actor: Actor, ghost spent: set<nat>)
      requires Ready() && Spent(spent, state.control.epoch)
      requires !safeMode ==> state.control.request.Some? && state.control.request.value.id.route == Internal
      modifies this`state, this`disk, this`history, this`calls, this`asked, this`cycles
      ensures Valid() && old(history) <= history && old(calls) <= calls && old(cycles) <= cycles
      ensures Fresh(cycles[|old(cycles)|..], spent)
      ensures |cycles| - |old(cycles)| <= (if safeMode then 1 else maxRevisions - |spent|)
      ensures |calls| - |old(calls)| <= (if safeMode then 4 else 4 * (maxRevisions - |spent|))
      decreases maxRevisions - |spent|, if safeMode then 3 else 1
    {
      assert cycles[|old(cycles)|..] == [];
      SpentIsFew(spent, state.control.epoch);
      RequestEpoch();
      hide Goes, SoundDisk, Careful, Affordable, Gated, Closure;
      var go, first, allowed, slot := Begin(actor);
      if go {
        RunCycle(state.control.request.value.id, slot, allowed, first, spent);
      }
    }

    lemma RequestEpoch()
      requires Ready()
      ensures state.control.request.Some? ==> state.control.request.value.id.epoch == state.control.epoch
    {
    }

    // ---- commands ----

    /** `repository.load`. */
    method Load()
      requires Valid() && disk.state.Some?
      modifies this`state
      ensures Ready() && state == disk.state.value && AtGate(state, disk.writer)
    {
      assert SoundDisk(history[|history| - 1], chosen, maxRevisions, maxRepairs);
      state := disk.state.value;
    }

    /** `_run_generation_and_review`. */
    method RunFrom(first: Agent)
      requires Ready() && (first != Reviewer ==> state.selection == None)
      requires first == Reviewer ==> AtGate(state, AnyOther) && state.status != WaitingHumanSelection
      modifies this`state, this`disk, this`history, this`calls, this`asked, this`cycles
      ensures Valid() && old(history) <= history && old(calls) <= calls && old(cycles) <= cycles
      ensures |calls| - |old(calls)| <= (if safeMode then 4 else 4 * (maxRevisions + 1))
      ensures |cycles| - |old(cycles)| <= (if safeMode then 0 else maxRevisions)
      ensures Fresh(cycles[|old(cycles)|..], {})
      ensures safeMode ==> InOrder(old(calls), calls, first)
      ensures Smooth() && first == Generator ==> AtHumanGate(disk) && HasCandidates(disk.state.value)
    {
      hide Goes, SoundDisk, Careful, Affordable, Gated, Fresh, Closure;
      ghost var before := calls;
      var review := Pass(first);
      InOrderIsFew(before, calls, first);
      Decide(review, {});
    }

    lemma NothingFresh()
      ensures cycles[|cycles|..] == [] && Fresh([], {})
    {
    }

    /** `start`: a saved workflow is returned as it is; a new one whose agents all answer well
        reaches the human gate. */
    method Start()
      requires Valid()
      modifies this`state, this`disk, this`history, this`calls, this`asked, this`cycles
      ensures Valid() && old(history) <= history && old(calls) <= calls && old(cycles) <= cycles
      ensures |calls| - |old(calls)| <= (if safeMode then 4 else 4 * (maxRevisions + 1))
      ensures |cycles| - |old(cycles)| <= (if safeMode then 0 else maxRevisions)
      ensures Fresh(cycles[|old(cycles)|..], {})
      ensures old(disk).state.Some? ==> disk == old(disk) && calls == old(calls)
      ensures Smooth() && old(disk).state.None? ==> AtHumanGate(disk) && HasCandidates(disk.state.value)
    {
      hide Goes, SoundDisk, Careful, Affordable, Fresh, InOrder;
      NothingFresh();
      if disk.state.Some? {
        state := disk.state.value;
      } else {
        state := INITIAL;
        Save(AnyOther);
        RunFrom(Generator);
      }
    }

    /** `resume`: only with a new Deliberation result. A correlated result never passes over
        a stored selection; an uncorrelated one starts over without it. */
    method Resume()
      requires Valid()
      modifies this`state, this`disk, this`history, this`calls, this`asked, this`cycles
      ensures Valid() && old(history) <= history && old(calls) <= calls && old(cycles) <= cycles
      ensures |calls| - |old(calls)| <= (if safeMode then 4 else 4 * (maxRevisions + 1))
    {
      if disk.state.None? || disk.state.value.status != WaitingUpstreamRevision {
        return;
      }
      hide Goes, SoundDisk, Careful, Affordable, Gated, Fresh, InOrder;
      Load();
      var o := Ask();
      if !o.found {
        return;
      }
      if state.control.phase == WaitingUpstreamResult && state.control.request.Some? {
        if o.current && o.complete && state.selection.None? && state.package.Some? {
          ConsumeResult(o.id);
        }
      } else {
        RunAgain();
      }
    }

    /** The legacy path of `resume`: everything is dropped and built again. */
    method RunAgain()
      requires Ready() && AtGate(state, disk.writer) && state.status == WaitingUpstreamRevision
      modifies this`state, this`disk, this`history, this`calls, this`asked, this`cycles
      ensures Valid() && old(history) <= history && old(calls) <= calls && old(cycles) <= cycles
      ensures |calls| - |old(calls)| <= (if safeMode then 4 else 4 * (maxRevisions + 1))
    {
      hide Goes, SoundDisk, Careful, Affordable, Gated, Fresh, InOrder;
      Restart();
      RunFrom(Generator);
    }

    /** `_consume_deliberation_revision_result`: the plan is saved; with Safe Mode off it is
        executed at once. */
    method ConsumeResult(result: string)
      requires Ready() && state.control.request.Some?
      modifies this`state, this`disk, this`history, this`calls, this`asked, this`cycles
      ensures Valid() && old(history) <= history && old(calls) <= calls && old(cycles) <= cycles
      ensures |calls| - |old(calls)| <= (if safeMode then 0 else 4 * maxRevisions)
    {
      hide Goes, SoundDisk, Careful, Affordable, Gated, Fresh, InOrder;
      Consumed(result);
      if !safeMode {
        Execute(Actor("conclusion.manager", "SYSTEM", "regenerate after a Deliberation revision"), {});
      }
    }

    method Restart()
      requires Ready() && AtGate(state, disk.writer) && state.status == WaitingUpstreamRevision
      modifies this`state, this`disk, this`history
      ensures Ready() && old(history) <= history && SameFiles(old(disk), disk)
      ensures state == Restarted(old(state))
    {
      hide Goes, SoundDisk, Careful, Affordable;
      state := Restarted(state);
      Save(AnyOther);
    }

    /** The control change of `_consume_deliberation_revision_result`, saved. */
    method Consumed(result: string)
      requires Ready() && state.control.request.Some?
      modifies this`state, this`disk, this`history
      ensures Ready() && old(history) <= history && SameFiles(old(disk), disk)
      ensures state.control.request.Some? && state.control.request.value.id.route == Internal
      ensures !state.control.request.value.id.fromPlaywright
    {
      hide Goes, SoundDisk, Careful, Affordable;
      var parent := state.control.request.value.id;
      var control := Awaiting(state.control, AuthorizationRequired, Rebuild(parent, result));
      state := state.(control := control.(consumed := control.consumed + {parent}), status := Blocked);
      Save(AnyOther);
    }

    /** `_restore_saved_stage_responses`: missing checkpoints come back in order, as far as
        their saved responses reach. */
    method Restore() returns (restored: set<Agent>)
      requires Ready()
      modifies this`state, this`asked
      ensures Ready()
      ensures state == old(state).(positions := state.positions, evaluation := state.evaluation,
                                   integration := state.integration, review := state.review)
      ensures forall a | HasCheckpoint(old(state), a) :: HasCheckpoint(state, a) && a !in restored
      ensures forall a :: a in restored <==> HasCheckpoint(state, a) && !HasCheckpoint(old(state), a)
    {
      hide Goes, SoundDisk, Careful, Affordable, Gated;
      restored := {};
      for i := 0 to |ORDER|
        invariant Ready()
        invariant forall a | Rank(a) < i :: HasCheckpoint(state, a)
        invariant state == old(state).(positions := state.positions, evaluation := state.evaluation,
                                       integration := state.integration, review := state.review)
        invariant forall a | HasCheckpoint(old(state), a) :: HasCheckpoint(state, a) && a !in restored
        invariant forall a :: a in restored <==> HasCheckpoint(state, a) && !HasCheckpoint(old(state), a)
      {
        var agent := ORDER[i];
        if !HasCheckpoint(state, agent) {
          var o := Ask();
          if !o.found {
            return;
          }
          CheckpointIsBack(state, agent, o, chosen, maxRevisions, maxRepairs);
          state := WithCheckpoint(state, agent, o);
          restored := restored + {agent};
        }
      }
    }

    /** Where `recover` continues, with the state it continues from; `None` when it raises. */
    method Recovered() returns (first: Option<Agent>)
      requires Ready() && state.status == Failed
      modifies this`state, this`asked
      ensures first.Some? ==> Ready() && state.status == Failed && (first.value != Reviewer ==> state.selection == None)
      ensures first.Some? ==> forall a | a in Closure(first.value) && a != Reviewer :: !HasCheckpoint(old(state), a)
      ensures Valid()
    {
      hide Goes, SoundDisk, Careful, Affordable;
      first := None;
      var restored := Restore();
      var next := NextAgent(state);
      if next.None? {
        assert forall a | a in Closure(Reviewer) :: a == Reviewer;
        return Some(Reviewer);
      }
      MissingFrom(state, next.value, chosen, maxRevisions, maxRepairs);
      var o := Ask();
      var failed := if o.failed.Some? && o.failed != next && o.failed.value in restored then None else o.failed;
      if (failed.Some? && failed != next) || o.unanswered || (failed.Some? && !o.authorized) {
        return;
      }
      if failed.Some? {
        ClearedIsGated(state, next.value, chosen, maxRevisions, maxRepairs);
        state := ClearFrom(state, next.value);
      }
      first := next;
    }

    /** `recover`: a failed workflow continues at its first missing checkpoint. A failed
        provider call there needs an authorization, and everything from it on is dropped. No
        specialist whose checkpoint was saved is called again. */
    method Recover()
      requires Valid()
      modifies this`state, this`disk, this`history, this`calls, this`asked, this`cycles
      ensures Valid() && old(history) <= history && old(calls) <= calls && old(cycles) <= cycles
      ensures |calls| - |old(calls)| <= (if safeMode then 4 else 4 * (maxRevisions + 1))
      ensures safeMode ==> forall i | |old(calls)| <= i < |calls| ::
                calls[i].agent == Reviewer
                    || (old(disk).state.Some? && !HasCheckpoint(old(disk).state.value, calls[i].agent))
    {
      if disk.state.None? || disk.state.value.status != Failed {
        return;
      }
      hide Goes, SoundDisk, Careful, Affordable, Gated, Fresh, InOrder, Closure, HasCheckpoint;
      Load();
      var first := Recovered();
      if first.Some? {
        Save(AnyOther);
        RunFrom(first.value);
        if safeMode {
          forall i | |old(calls)| <= i < |calls|
            ensures calls[i].agent == Reviewer || !HasCheckpoint(old(disk).state.value, calls[i].agent)
          {
            InOrderAgents(old(calls), calls, first.value, i);
          }
        }
      }
    }

    /** `_activate_pending_playwright_revision`. */
    method ActivatePlaywright(o: Outside)
      requires Ready() && AtGate(state, disk.writer)
      modifies this`state, this`disk, this`history
      ensures Ready() && old(history) <= history && SameFiles(old(disk), disk)
      ensures state == old(state) || state.status == Blocked
    {
      hide Goes, SoundDisk, Careful, Affordable;
      if o.playwright.Some? && o.current && TakesUp(state.control, o.playwright.value) {
        state := state.(control := Awaiting(state.control, AuthorizationRequired, o.playwright.value),
            status := Blocked);
        Save(AnyOther);
      }
    }

    /** The bounded package repair, which runs no specialist. */
    method RepairPackage(o: Outside)
      requires Ready() && state.status == Blocked && state.selection == None
      modifies this`state, this`disk, this`history, this`calls, this`asked, this`cycles
      ensures Valid() && old(history) <= history && old(calls) <= calls && old(cycles) <= cycles
      ensures |calls| - |old(calls)| <= (if safeMode then 4 else 4 * (maxRevisions + 1))
      ensures safeMode ==> |cycles| == |old(cycles)|
    {
      hide Goes, SoundDisk, Careful, Affordable, Fresh;
      if Count(state.repairs, Repair(state.upstreamCount, state.revisionCount)) >= maxRepairs {
        Block();
        return;
      }
      forall x ensures Count(Repaired(state, o.id).repairs, x) <= maxRepairs {
        CountSnoc(state.repairs, Repair(state.upstreamCount, state.revisionCount), x);
      }
      state := Repaired(state, o.id);
      Save(AnyOther);
      RunFrom(Reviewer);
    }

    /** `revise`: one operator-authorized revision, and no more than one. */
    method Revise(actor: Actor)
      requires Valid()
      modifies this`state, this`disk, this`history, this`calls, this`asked, this`cycles
      ensures Valid() && old(history) <= history && old(calls) <= calls && old(cycles) <= cycles
      ensures |calls| - |old(calls)| <= 4 && |cycles| - |old(cycles)| <= 1
      ensures !safeMode ==> disk == old(disk) && calls == old(calls)
    {
      if !safeMode || disk.state.None? {
        return;
      }
      hide Goes, SoundDisk, Careful, Affordable, Gated, Fresh, InOrder;
      Load();
      var o := Ask();
      ActivatePlaywright(o);
      if state.status != Blocked {
        return;
      }
      if state.control.phase == AuthorizationRequired {
        if state.revisionCount >= maxRevisions {
          Block();
        } else {
          Execute(actor, {});
        }
      } else if Revisable(state) {
        ReviseByReview(actor, o);
      }
    }

    /** The part of `revise` that starts from the saved review. */
    method ReviseByReview(actor: Actor, o: Outside)
      requires Ready() && safeMode && state.status == Blocked && Revisable(state)
      modifies this`state, this`disk, this`history, this`calls, this`asked, this`cycles
      ensures Valid() && old(history) <= history && old(calls) <= calls && old(cycles) <= cycles
      ensures |calls| - |old(calls)| <= 4 && |cycles| - |old(cycles)| <= 1
    {
      hide Goes, SoundDisk, Careful, Affordable, Gated, Fresh, InOrder;
      var targets := if o.narrowed.Some? then [o.narrowed.value] else state.review.value.targets;
      if targets == [ManagerItself] && o.repairable && state.selection.None? {
        RepairPackage(o);
      } else {
        var planned := Plan(state.review.value, targets);
        if planned {
          Execute(actor, {});
        }
      }
    }

    /** `integrate_candidates`: what it accepts has its review cleared first, and is saved so
        while the workflow still reads as waiting for a selection; otherwise nothing happens. */
    method IntegrateCandidates(ids: seq<string>)
      requires Valid()
      modifies this`state, this`disk, this`history, this`calls, this`asked, this`cycles
      ensures Valid() && old(history) <= history && old(calls) <= calls && old(cycles) <= cycles
      ensures |calls| - |old(calls)| <= (if safeMode then 4 else 4 * (maxRevisions + 1))
      ensures safeMode ==> InOrder(old(calls), calls, Integrator)
      ensures old(disk).state.Some? && Integrable(old(disk).state.value, ids) ==>
                exists i :: |old(history)| <= i < |history| && history[i].state.Some?
                            && history[i].state.value == old(disk).state.value.(review := None)
      ensures !(old(disk).state.Some? && Integrable(old(disk).state.value, ids)) ==>
                disk == old(disk) && history == old(history) && calls == old(calls)
    {
      hide InOrder;
      NothingCalled(calls, Integrator);
      if disk.state.None? || disk.state.value.status != WaitingHumanSelection {
        return;
      }
      Load();
      if |ids| < 2 || state.positions.None? || exists id :: id in ids && id !in state.positions.value {
        return;
      }
      state := state.(review := None);
      Save(CandidateIntegration);
      ghost var at := |history| - 1;
      assert history[at].state == Some(old(disk).state.value.(review := None));
      RunFrom(Integrator);
    }

    /** `select`: the only command that stores a selection, and only on an approved review. */
    method Select(ids: seq<string>, kind: SelectionKind)
      requires Valid()
      modifies this`state, this`disk, this`history, this`asked, this`chosen
      ensures Valid() && old(history) <= history
      ensures !(old(disk).state.Some? && Selectable(old(disk).state.value, ids, kind)) ==>
                disk == old(disk) && history == old(history) && chosen == old(chosen)
      ensures disk == old(disk) || Decided(old(disk).state, disk.state, chosen)
      ensures old(disk).state.Some? && Selectable(old(disk).state.value, ids, kind) && world(old(asked)).traceable ==>
                disk.state.Some? && disk.state.value.selection == Some(world(old(asked)).id)
    {
      if disk.state.None? {
        return;
      }
      hide Goes, SoundDisk, Careful, Affordable, Gated, Selectable, Decided;
      Load();
      if !Selectable(state, ids, kind) {
        return;
      }
      var o, other := world(asked), world(asked + 1);
      asked := asked + 2;
      if o.traceable {
        Store(o.id, other, ids, kind);
      }
    }

    method Store(id: string, other: Outside, ghost ids: seq<string>, ghost kind: SelectionKind)
      requires Ready() && AtGate(state, disk.writer) && Selectable(state, ids, kind)
      modifies this`state, this`disk, this`history, this`chosen
      ensures Ready() && old(history) <= history && Decided(Some(old(state)), disk.state, chosen)
      ensures disk.state.Some? && disk.state.value.selection == Some(id)
    {
      hide Goes, SoundDisk, Careful, Affordable, Gated;
      Choose(id);
      Finalize(id, other.id, other.sends);
    }

    ghost method Choose(id: string)
      requires Ready() && state.review.Some? && Passing(state.review.value)
      modifies this`chosen
      ensures Ready() && chosen == old(chosen)[id := state.review.value]
    {
      chosen := chosen[id := state.review.value];
      forall i | 0 <= i < |history| ensures SoundDisk(history[i], chosen, maxRevisions, maxRepairs) {
        MoreChosen(history[i], old(chosen), chosen, maxRevisions, maxRepairs);
      }
    }

    method Finalize(selection: string, final: string, sends: bool)
      requires Ready() && AtGate(state, disk.writer) && state.status == WaitingHumanSelection
      requires state.review.Some? && selection in chosen
      modifies this`state, this`disk, this`history
      ensures Ready() && old(history) <= history && disk == old(disk).(state := Some(state), writer := AnyOther)
      ensures state.selection == Some(selection) && state.final == Some(Final(final, selection))
                && (sends ==> state.sent)
      ensures state.status == (if sends then Completed else Failed)
    {
      hide Goes, SoundDisk, Careful, Affordable;
      state := state.(status := Finalizing, selection := Some(selection), final := Some(Final(final, selection)),
                      sent := sends || state.sent);
      if sends {
        if state.control.request.Some? && state.control.request.value.id.fromPlaywright {
          state := Finalized(state, true);
        }
        state := state.(status := Completed);
      } else {
        state := state.(status := Failed);
      }
      Save(AnyOther);
    }

    /** The process dies: what was written up to some point is all that is left. */
    method CrashAt(at: nat)
      requires Valid() && at < |history|
      modifies this`disk, this`history
      ensures Valid() && history == old(history)[..at + 1] && disk == old(history)[at]
    {
      disk := history[at];
      history := history[..at + 1];
    }

    /** What every written version of the state says about the human gate, the calls and the
        revision budget. */
    lemma GateHolds()
      requires Valid()
      ensures forall i | 0 <= i < |history| && history[i].state.Some? ::
                && var s := history[i].state.value;
                && (s.status == WaitingHumanSelection ==>
                      && s.validation == Some(true) && s.selection == None && s.final == None
                      && (if history[i].writer == CandidateIntegration then s.review == None
                          else s.review.Some? && Passing(s.review.value)))
                && (s.status == Completed ==>
                      && s.final.Some? && s.selection == Some(s.final.value.selection)
                      && s.final.value.selection in chosen && Passing(chosen[s.final.value.selection]))
                && s.revisionCount <= maxRevisions
    {
      forall i | 0 <= i < |history| && history[i].state.Some?
        ensures SoundDisk(history[i], chosen, maxRevisions, maxRepairs)
      {
      }
    }

    /** Any run: commands in any order, with the files left at any write by a crash, whatever
        the agents and the other layers answer. */
    method Serve(commands: seq<Command>)
      requires Valid()
      modifies this
      ensures Valid()
      ensures forall i | 0 <= i < |history| && history[i].state.Some? ::
                && var s := history[i].state.value;
                && (s.status == WaitingHumanSelection ==>
                      && s.validation == Some(true) && s.selection == None && s.final == None
                      && (if history[i].writer == CandidateIntegration then s.review == None
                          else s.review.Some? && Passing(s.review.value)))
                && (s.status == Completed ==>
                      && s.final.Some? && s.selection == Some(s.final.value.selection)
                      && s.final.value.selection in chosen && Passing(chosen[s.final.value.selection]))
                && s.revisionCount <= maxRevisions
      ensures forall c | c in calls && c.agent != Reviewer :: c.selection == None && c.final == None
      ensures forall c | c in cycles :: |c.agents| <= c.allowed
    {
      ServeAll(commands);
      GateHolds();
      assert forall c | c in calls :: Careful(c);
      assert forall c | c in cycles :: Affordable(c);
    }

    method ServeAll(commands: seq<Command>)
      requires Valid()
      modifies this
      ensures Valid()
    {
      hide Goes, SoundDisk, Careful, Affordable, Fresh, Gated;
      for i := 0 to |commands|
        invariant Valid()
      {
        match commands[i]
        case Start => Start();
        case Resume => Resume();
        case Recover => Recover();
        case Revise(actor) => Revise(actor);
        case IntegrateCandidates(ids) => IntegrateCandidates(ids);
        case Select(ids, kind) => Select(ids, kind);
        case Crash(at) =>
          if at < |history| {
            CrashAt(at);
          }
      }
    }
  }

  // ---- the gate without its review ----

  /** Agents that always answer well. */
  function Helpful(k: nat): Outside {
    Outside(true, true, false, "x", {"a", "b"}, true, true, true, Review("r", Approved, false, [], {}), None,
            true, true, true, true, true, None, true, false, None, true, false)
  }

  /** A run that `select` would refuse although the workflow waits for a selection: start, then
      ask for two known candidates to be integrated, then crash before the integrator is called. */
  method GateWithoutReview() returns (m: Manager)
    ensures fresh(m) && m.Valid()
    ensures m.disk.state.Some? && m.disk.writer == CandidateIntegration
    ensures m.disk.state.value.status == WaitingHumanSelection && m.disk.state.value.review == None
  {
    m := new Manager(true, 2, 1, Helpful);
    assert m.Smooth() by {
      assert |{"a", "b"}| == 2;
    }
    m.Start();
    var before := m.disk.state.value;
    var x :| x in before.positions.value;
    var rest := before.positions.value - {x};
    assert rest != {};
    var y :| y in rest;
    m.IntegrateCandidates([x, y]);
    m.GateHolds();
    var i: nat :| i < |m.history| && m.history[i].state == Some(before.(review := None));
    m.CrashAt(i);
  }
}
