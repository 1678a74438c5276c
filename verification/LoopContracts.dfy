/**
 The loop run contract (`loop_contracts.py`): nodes, stop states, the default state graph
 and the pure `LoopRunState.transition`.
 */
module LoopContracts {
  import opened Values

  datatype Node = Plan | Execute | Evaluate | Reflect | Escalate | Pause

  datatype Terminal =
    | Converged
    | Paused
    | WaitingApproval
    | Blocked
    | Failed
    | Cancelled
    | Superseded
    | Conflicted
    | TimedOut

  /** The persisted `terminal_state` column: empty while running. */
  datatype Stop = Running | Stopped(state: Terminal)

  predicate Suspended(stop: Stop) {
    stop == Stopped(Paused) || stop == Stopped(WaitingApproval)
  }

  predicate Final(stop: Stop) {
    stop.Stopped? && !Suspended(stop)
  }

  /** The target column of an edge holds a node name or a terminal state name. */
  datatype Target = ToNode(node: Node) | ToTerminal(state: Terminal)

  datatype Edge = Edge(source: Node, target: Target, condition: string)

  /** A potential for the nodes: every edge of the default graph lowers it or pays with an attempt. */
  function Rank(node: Node): (r: nat)
    ensures r <= 4
  {
    match node
    case Plan => 4
    case Execute => 3
    case Evaluate => 2
    case Reflect => 1
    case Escalate => 0
    case Pause => 0
  }

  /** One for the two moves back to PLAN that consume an attempt. */
  function AttemptCost(source: Node, target: Node): (r: int)
    ensures r == 0 || r == 1
  {
    if source in {Reflect, Evaluate} && target == Plan then 1 else 0
  }

  predicate Pays(e: Edge) {
    e.target.ToNode? ==> Rank(e.target.node) + 1 <= Rank(e.source) + 4 * AttemptCost(e.source, e.target.node)
  }

  function PlanEdges(): (r: seq<Edge>)
    ensures forall e :: e in r ==> Pays(e)
  {
    [ Edge(Plan, ToNode(Execute), "plan_ready"),
      Edge(Plan, ToNode(Escalate), "needs_user_or_approval"),
      Edge(Plan, ToNode(Pause), "resource_pause"),
      Edge(Plan, ToNode(Escalate), "resource_escalate"),
      Edge(Plan, ToTerminal(Blocked), "resource_blocked"),
      Edge(Plan, ToNode(Reflect), "planner_failed"),
      Edge(Plan, ToTerminal(Failed), "planner_failed") ]
  }

  function ExecuteEdges(): (r: seq<Edge>)
    ensures forall e :: e in r ==> Pays(e)
  {
    [ Edge(Execute, ToNode(Evaluate), "side_effect_recorded"),
      Edge(Execute, ToNode(Reflect), "capability_failed"),
      Edge(Execute, ToTerminal(TimedOut), "hard_timeout"),
      Edge(Execute, ToNode(Pause), "resource_pause"),
      Edge(Execute, ToNode(Escalate), "resource_escalate"),
      Edge(Execute, ToNode(Escalate), "approval_required"),
      Edge(Execute, ToTerminal(Blocked), "repeated_progress_signature"),
      Edge(Execute, ToTerminal(Blocked), "resource_blocked") ]
  }

  function EvaluateEdges(): (r: seq<Edge>)
    ensures forall e :: e in r ==> Pays(e)
  {
    [ Edge(Evaluate, ToTerminal(Converged), "checker_passed"),
      Edge(Evaluate, ToNode(Plan), "continue_iteration"),
      Edge(Evaluate, ToNode(Reflect), "checker_failed"),
      Edge(Evaluate, ToTerminal(Conflicted), "merge_conflict"),
      Edge(Evaluate, ToTerminal(TimedOut), "hard_timeout"),
      Edge(Evaluate, ToNode(Pause), "resource_pause"),
      Edge(Evaluate, ToNode(Escalate), "resource_escalate"),
      Edge(Evaluate, ToNode(Escalate), "side_effect_commit_required"),
      Edge(Evaluate, ToTerminal(Blocked), "resource_blocked"),
      Edge(Evaluate, ToTerminal(Blocked), "no_route_available") ]
  }

  function ReflectEdges(): (r: seq<Edge>)
    ensures forall e :: e in r ==> Pays(e)
  {
    [ Edge(Reflect, ToNode(Plan), "new_route_available"),
      Edge(Reflect, ToTerminal(Blocked), "no_route_available"),
      Edge(Reflect, ToTerminal(Failed), "checker_rejected") ]
  }

  function ParkingEdges(): (r: seq<Edge>)
    ensures forall e :: e in r ==> Pays(e)
  {
    [ Edge(Escalate, ToTerminal(WaitingApproval), "approval_required"),
      Edge(Escalate, ToTerminal(WaitingApproval), "resource_escalate"),
      Edge(Pause, ToTerminal(Paused), "resource_or_user_pause") ]
  }

  function BaseEdges(): (r: seq<Edge>)
    ensures forall e :: e in r ==> Pays(e)
  {
    PlanEdges() + ExecuteEdges() + EvaluateEdges() + ReflectEdges() + ParkingEdges()
  }

  function ControlEdges(nodes: seq<Node>): (r: seq<Edge>)
    ensures forall e :: e in r ==> Pays(e)
  {
    if nodes == [] then []
    else
      [ Edge(nodes[0], ToTerminal(Cancelled), "cancel_requested"),
        Edge(nodes[0], ToTerminal(Superseded), "superseded") ] + ControlEdges(nodes[1..])
  }

  function DefaultStateGraph(): (r: seq<Edge>)
    ensures forall e :: e in r ==> Pays(e)
  {
    BaseEdges() + ControlEdges([Plan, Execute, Evaluate, Reflect, Escalate, Pause])
  }

  /** Whether one edge licenses the move; an empty condition matches every edge. */
  predicate Licenses(e: Edge, node: Node, target: Target, condition: string) {
    e.source == node && e.target == target && (condition == "" || e.condition == condition)
  }

  ghost predicate Allowed(graph: seq<Edge>, node: Node, target: Target, condition: string) {
    exists i :: 0 <= i < |graph| && Licenses(graph[i], node, target, condition)
  }

  type Evidence = map<string, Json>

  datatype LoopRunState = LoopRunState(
    goalId: string,
    specId: string,
    node: Node,
    stop: Stop,
    checkpointId: string,
    attempt: int,
    parentRunId: string,
    childRunIds: seq<string>,
    lockedResources: seq<string>,
    evidence: Evidence,
    updatedAt: real,
    version: int,
    leaseOwner: string,
    leaseExpiresAt: real)

  predicate Blank(s: string) {
    forall i :: 0 <= i < |s| ==> s[i] in {' ', '\t', '\n', '\r'}
  }

  function StopOf(terminal: Option<Terminal>): Stop {
    match terminal
    case None => Running
    case Some(t) => Stopped(t)
  }

  /** `LoopRunState.transition`. */
  function Transition(run: LoopRunState, node: Node, checkpointId: string, terminal: Option<Terminal>,
                      evidence: Evidence, now: real): Result<LoopRunState>
  {
    if run.stop.Stopped? || Blank(checkpointId) then Raised(ValueError)
    else
      Ok(run.(node := node,
              checkpointId := checkpointId,
              stop := StopOf(terminal),
              evidence := run.evidence + evidence,
              attempt := run.attempt + AttemptCost(run.node, node),
              updatedAt := now))
  }

  lemma DefaultEdgePays(source: Node, target: Node, condition: string)
    requires Allowed(DefaultStateGraph(), source, ToNode(target), condition)
    ensures Rank(target) + 1 <= Rank(source) + 4 * AttemptCost(source, target)
  {
    var graph := DefaultStateGraph();
    var i :| 0 <= i < |graph| && Licenses(graph[i], source, ToNode(target), condition);
    assert graph[i] in graph;
  }
}
