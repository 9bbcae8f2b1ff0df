/** What the Conclusion layer saves for a workflow (conclusion/state.py,
    common/models/revision.py), and the pure helpers of its manager. */
module ConclusionState {
  import opened Json
  import opened RevisionBudget

  datatype Agent = Generator | Evaluator | Integrator | Reviewer

  const ORDER: seq<Agent> := [Generator, Evaluator, Integrator, Reviewer]

  function Rank(a: Agent): (r: nat)
    ensures r < |ORDER| && ORDER[r] == a
  {
    match a
    case Generator => 0
    case Evaluator => 1
    case Integrator => 2
    case Reviewer => 3
  }

  /** An entry of a review's revision targets. */
  datatype Target = Specialist(agent: Agent) | ManagerItself | Unknown(name: string)

  datatype Status =
    | Created | GeneratingPositions | EvaluatingPositions | IntegratingDecision | Reviewing | Revising
    | WaitingUpstreamRevision | WaitingHumanSelection | Finalizing | Completed | Blocked | Failed

  datatype Verdict = Approved | ApprovedWithConditions | RevisionRequired | Stopped

  datatype Review = Review(id: string, verdict: Verdict, deliberationReturn: bool, targets: seq<Target>,
                           findings: set<string>)

  predicate Passing(r: Review) {
    r.verdict == Approved || r.verdict == ApprovedWithConditions
  }

  datatype Phase = Idle | AuthorizationRequired | WaitingUpstreamResult | Executing | Done | Stuck

  datatype Request = Request(id: RequestId, targets: seq<Target>, keepsSelection: bool)

  /** A Playwright request that leaves the human selection as it is. */
  predicate Reissues(r: Request) {
    r.id.fromPlaywright && r.keepsSelection
  }

  datatype Control = Control(phase: Phase, epoch: nat, request: Option<Request>, consumed: set<RequestId>)

  datatype Integration = Integration(id: string, hasOption: bool)

  datatype Final = Final(id: string, selection: string)

  /** One audited Manager repair, by the revision it belongs to. */
  datatype Repair = Repair(upstream: nat, revision: nat)

  datatype State = State(
    status: Status,
    positions: Option<set<string>>,
    evaluation: Option<string>,
    integration: Option<Integration>,
    package: Option<string>,
    validation: Option<bool>,
    review: Option<Review>,
    selection: Option<string>,
    final: Option<Final>,
    sent: bool,
    revisionCount: nat,
    upstreamCount: nat,
    control: Control,
    repairs: seq<Repair>)

  const INITIAL: State :=
    State(Created, None, None, None, None, None, None, None, None, false, 0, 0, Control(Phase.Idle, 0, None, {}), [])

  /** Whether the checkpoint of an agent is there. */
  predicate HasCheckpoint(s: State, a: Agent) {
    match a
    case Generator => s.positions.Some?
    case Evaluator => s.evaluation.Some?
    case Integrator => s.integration.Some?
    case Reviewer => s.review.Some?
  }

  /** `_clear_from_failed_stage`. */
  function ClearFrom(s: State, a: Agent): State {
    s.(positions := if a == Generator then None else s.positions,
       evaluation := if Rank(a) <= 1 then None else s.evaluation,
       integration := if Rank(a) <= 2 then None else s.integration,
       package := None, validation := None, review := None, selection := None, final := None, sent := false)
  }

  /** Clearing from an agent drops its checkpoint and every later one, keeps every earlier
      one, and takes the human selection and the final conclusion with it. */
  lemma ClearKeepsPrefix(s: State, a: Agent, b: Agent)
    ensures HasCheckpoint(ClearFrom(s, a), b) <==> HasCheckpoint(s, b) && Rank(b) < Rank(a)
    ensures Rank(a) > 0 ==> ClearFrom(s, a).positions == s.positions
    ensures Rank(a) > 1 ==> ClearFrom(s, a).evaluation == s.evaluation
    ensures Rank(a) > 2 ==> ClearFrom(s, a).integration == s.integration
    ensures ClearFrom(s, a).selection == None && ClearFrom(s, a).final == None
    ensures ClearFrom(s, a).control == s.control && ClearFrom(s, a).revisionCount == s.revisionCount
  {
  }

  // ---- which stages a revision runs ----

  function TargetRank(t: Target): Option<nat> {
    match t
    case Specialist(Reviewer) => Some(4)
    case Specialist(a) => Some(Rank(a))
    case ManagerItself => Some(3)
    case Unknown(_) => None
  }

  function FirstRank(targets: seq<Target>): (r: Option<nat>)
    ensures r.Some? ==> r.value <= 4
  {
    if targets == [] then None
    else
      match (TargetRank(targets[0]), FirstRank(targets[1..]))
      case (None, later) => later
      case (Some(a), None) => Some(a)
      case (Some(a), Some(b)) => Some(if a <= b then a else b)
  }

  /** `_first_revision_agent`; `None` where it raises. */
  function FirstAgent(targets: seq<Target>): Option<Agent> {
    match FirstRank(targets)
    case None => None
    case Some(r) => Some(if r == 4 then Reviewer else if r == 3 then Integrator else ORDER[r])
  }

  /** `order[order.index(first_agent):]`. */
  function Closure(first: Agent): seq<Agent> {
    ORDER[Rank(first)..]
  }

  lemma {:induction false} FirstRankIs(targets: seq<Target>, t: Target)
    requires t in targets && TargetRank(t).Some?
    ensures FirstRank(targets).Some? && FirstRank(targets).value <= TargetRank(t).value
  {
    if t != targets[0] {
      FirstRankIs(targets[1..], t);
    }
  }

  lemma {:induction false} FirstRankFrom(targets: seq<Target>)
    requires FirstRank(targets).Some?
    ensures exists t :: t in targets && TargetRank(t) == FirstRank(targets)
  {
    if TargetRank(targets[0]) != FirstRank(targets) {
      FirstRankFrom(targets[1..]);
      var t :| t in targets[1..] && TargetRank(t) == FirstRank(targets[1..]);
      assert t in targets;
    } else {
      assert targets[0] in targets;
    }
  }

  /** A revision runs every agent its review names, and rebuilds the package when it names the
      manager; it starts no earlier than some named target asks for. Without a target it
      knows, it does not run. */
  lemma ClosureCoversTargets(targets: seq<Target>)
    ensures FirstAgent(targets).None? <==> forall t | t in targets :: t.Unknown?
    ensures FirstAgent(targets).Some? ==>
              && (forall t | t in targets && t.Specialist? :: t.agent in Closure(FirstAgent(targets).value))
              && (ManagerItself in targets ==> Integrator in Closure(FirstAgent(targets).value))
              && (Specialist(FirstAgent(targets).value) in targets
                  || (FirstAgent(targets).value == Integrator && ManagerItself in targets))
  {
    forall t | t in targets && !t.Unknown?
      ensures FirstAgent(targets).Some?
      ensures t.Specialist? ==> t.agent in Closure(FirstAgent(targets).value)
      ensures t == ManagerItself ==> Integrator in Closure(FirstAgent(targets).value)
    {
      FirstRankIs(targets, t);
      var first := FirstAgent(targets).value;
      if t.Specialist? {
        assert Closure(first)[Rank(t.agent) - Rank(first)] == t.agent;
      } else {
        assert Closure(first)[2 - Rank(first)] == Integrator;
      }
    }
    if FirstAgent(targets).Some? {
      FirstRankFrom(targets);
      var t :| t in targets && TargetRank(t) == FirstRank(targets);
      assert !t.Unknown?;
    }
  }

  // ---- authorizations ----

  /** `conclusion_{stage}_upstream_{n}_revision_{epoch}`. */
  datatype Task = Task(agent: Agent, upstream: nat, epoch: nat)

  function TasksOf(agents: seq<Agent>, upstream: nat, epoch: nat): (r: seq<Task>)
    ensures |r| == |agents|
  {
    if agents == [] then [] else [Task(agents[0], upstream, epoch)] + TasksOf(agents[1..], upstream, epoch)
  }

  /** `RevisionExecutionAuthorization`: who granted it, how many provider calls it allows, and
      the reservations it was consumed for. */
  datatype Grant = Grant(actor: Actor, allowed: nat, tasks: Option<seq<Task>>)

  /** Who authorizes a revision, from where and why. */
  datatype Actor = Actor(id: string, source: string, reason: string)

  ghost predicate GrantSound(g: Grant) {
    g.tasks.Some? ==> |g.tasks.value| <= g.allowed
  }

  /** How often the manager repaired the package within one revision. */
  function Count(repairs: seq<Repair>, x: Repair): nat {
    if repairs == [] then 0 else (if repairs[0] == x then 1 else 0) + Count(repairs[1..], x)
  }

  lemma {:induction false} CountSnoc(repairs: seq<Repair>, y: Repair, x: Repair)
    ensures Count(repairs + [y], x) == Count(repairs, x) + (if x == y then 1 else 0)
  {
    if repairs == [] {
      assert [y][1..] == [];
    } else {
      CountSnoc(repairs[1..], y, x);
      assert (repairs + [y])[1..] == repairs[1..] + [y];
    }
  }
}
