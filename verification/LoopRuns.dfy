/**
 Durable loop runs (`loop_runs.py`, the orphan recovery of `lifecycle_saga.py` and the loop
 part of `retention.py`), as a specification over values.

 `ApplyOp` gives the effect of each operation that is one atomic transaction. The remaining
 operations first SELECT a row, check it, and later issue `UPDATE ... WHERE version = ?`;
 `Examine` is the check made at the read and `CommitRow` the effect of the update.
 `Step` interleaves all of them, for any number of drivers.
 */
module LoopRuns {
  import opened Values
  import opened LoopContracts

  type RunId = string

  datatype Tables = Tables(
    runs: map<RunId, LoopRunState>,
    specs: map<string, seq<Edge>>,
    checkpoints: map<string, RunId>)

  /** Operations that run in one transaction. `ids` is the result of the operation's own SELECT. */
  datatype Op =
    | CreateRun(id: RunId, specId: string, graph: seq<Edge>, goalId: string, parentRunId: string,
                node: Node, terminal: Option<Terminal>, evidence: Evidence, now: real)
    | SaveSpec(specId: string, graph: seq<Edge>)
    | WriteCheckpoint(checkpointId: string, id: RunId)
    | Claim(id: RunId, owner: string, lease: real, allowPaused: bool, now: real)
    | Renew(id: RunId, owner: string, lease: real, now: real)
    | ClaimActive(ids: seq<RunId>, mode: string, owner: string, lease: real,
                  updatedBefore: Option<real>, now: real)
    | ReleaseForOwners(ids: seq<RunId>, owners: set<string>, now: real)
    | Release(id: RunId, owner: string, now: real)
    | ReleaseExpired(ids: seq<RunId>, now: real)
    | RecoverOrphan(id: RunId, evidence: Evidence, now: real)
    | Retain(id: RunId, specId: string, summary: Evidence)

  /** `lease_owner = '' OR lease_owner = ? OR lease_expires_at <= ?` */
  predicate Claimable(r: LoopRunState, owner: string, now: real) {
    r.leaseOwner == "" || r.leaseOwner == owner || r.leaseExpiresAt <= now
  }

  predicate CanClaim(r: LoopRunState, owner: string, allowPaused: bool, now: real) {
    && (r.stop == Running || (allowPaused && r.stop == Stopped(Paused)))
    && Claimable(r, owner, now)
  }

  predicate CanRenew(r: LoopRunState, owner: string, now: real) {
    r.stop == Running && r.leaseOwner == owner && r.leaseExpiresAt > now
  }

  predicate CanClaimActive(r: LoopRunState, mode: string, owner: string, updatedBefore: Option<real>, now: real) {
    && r.stop == Running
    && Get(r.evidence, "execution_mode") == Some(Str(mode))
    && Claimable(r, owner, now)
    && (updatedBefore.Some? ==> r.updatedAt <= updatedBefore.value)
  }

  predicate CanReleaseFor(r: LoopRunState, owners: set<string>) {
    r.stop == Running && r.leaseOwner in owners
  }

  predicate CanReleaseExpired(r: LoopRunState, now: real) {
    r.stop == Running && r.leaseOwner != "" && 0.0 < r.leaseExpiresAt <= now
  }

  function Leased(r: LoopRunState, owner: string, lease: real, now: real): LoopRunState {
    r.(leaseOwner := owner, leaseExpiresAt := now + Max(1.0, lease), version := r.version + 1, updatedAt := now)
  }

  function Unleased(r: LoopRunState, now: real): LoopRunState {
    r.(leaseOwner := "", leaseExpiresAt := 0.0, version := r.version + 1, updatedAt := now)
  }

  /** What retention leaves of a row; its UPDATE has no other guard than the id. */
  function Emptied(r: LoopRunState, summary: Evidence): LoopRunState {
    r.(checkpointId := "", childRunIds := [], lockedResources := [], evidence := summary, version := r.version + 1)
  }

  /** Effect of an atomic operation on one existing row. */
  function RowAfter(id: RunId, r: LoopRunState, op: Op): LoopRunState {
    match op
    case Claim(i, owner, lease, allowPaused, now) =>
      if i == id && CanClaim(r, owner, allowPaused, now) then Leased(r, owner, lease, now) else r
    case Renew(i, owner, lease, now) =>
      if i == id && CanRenew(r, owner, now)
      then r.(leaseExpiresAt := now + Max(1.0, lease), updatedAt := now)
      else r
    case ClaimActive(ids, mode, owner, lease, updatedBefore, now) =>
      if id in ids && CanClaimActive(r, mode, owner, updatedBefore, now) then Leased(r, owner, lease, now) else r
    case ReleaseForOwners(ids, owners, now) =>
      if id in ids && CanReleaseFor(r, owners) then Unleased(r, now) else r
    case Release(i, owner, now) =>
      if i == id && r.leaseOwner == owner then Unleased(r, now) else r
    case ReleaseExpired(ids, now) =>
      if id in ids && CanReleaseExpired(r, now) then Unleased(r, now) else r
    case RecoverOrphan(i, evidence, now) =>
      if i == id && r.stop == Running
      then Unleased(r, now).(stop := Stopped(Failed), evidence := evidence)
      else r
    case Retain(i, _, summary) => if i == id then Emptied(r, summary) else r
    case CreateRun(_, _, _, _, _, _, _, _, _) => r
    case SaveSpec(_, _) => r
    case WriteCheckpoint(_, _) => r
  }

  function NewRun(op: Op): LoopRunState
    requires op.CreateRun?
  {
    LoopRunState(op.goalId, op.specId, op.node, StopOf(op.terminal), "", 1, op.parentRunId, [], [],
                 op.evidence, op.now, 0, "", 0.0)
  }

  function ApplyOp(t: Tables, op: Op): Tables {
    match op
    case CreateRun(id, specId, graph, _, _, _, _, _, _) =>
      if id in t.runs then t
      else t.(runs := t.runs[id := NewRun(op)], specs := t.specs[specId := graph])
    case SaveSpec(specId, graph) => t.(specs := t.specs[specId := graph])
    case WriteCheckpoint(checkpointId, id) =>
      if id in t.runs && checkpointId !in t.checkpoints
      then t.(checkpoints := t.checkpoints[checkpointId := id])
      else t
    case Retain(id, specId, _) =>
      Tables(map i | i in t.runs :: RowAfter(i, t.runs[i], op), t.specs - {specId},
             map c | c in t.checkpoints && t.checkpoints[c] != id :: t.checkpoints[c])
    case _ => t.(runs := map i | i in t.runs :: RowAfter(i, t.runs[i], op))
  }

  /** Operations that read a row and commit later. `note` stands for the retry facts they record. */
  datatype Request =
    | Resume
    | ResumeResourcePause(note: Json)
    | ResumeRetryPause(note: Json)
    | RejectGate(evidence: Evidence)
    | CancelWait(evidence: Evidence)
    | ParkWait(evidence: Evidence)
    | FinishDelivery(success: bool, evidence: Evidence)
    | FailActive(owner: string, evidence: Evidence)
    | Advance(node: Node, checkpointId: string, terminal: Option<Terminal>, condition: string,
              evidence: Evidence, owner: string)

  /** What a transition reads besides the row itself. */
  datatype Facts = Facts(graph: Option<seq<Edge>>, checkpointOk: bool)

  datatype Verdict = Write | AlreadyDone | Reject(error: Error)

  /** The nodes a paused run may be reopened at, from their stored name. */
  function ResumeNode(name: Option<Json>): Option<Node> {
    match name
    case Some(Str(s)) =>
      if s == "plan" then Some(Plan)
      else if s == "execute" then Some(Execute)
      else if s == "evaluate" then Some(Evaluate)
      else None
    case _ => None
  }

  function RetryGate(r: LoopRunState): Option<map<string, Json>> {
    match Get(r.evidence, "retry_gate")
    case Some(Obj(fields)) => Some(fields)
    case _ => None
  }

  predicate RetryableGrant(grant: Option<Json>) {
    grant.Some? && grant.value.Obj? && Get(grant.value.fields, "decision") == Some(Str("pause"))
  }

  /**
   What `reopen_retryable_pause` goes on to do, decided by a first read of its own: without a
   typed gate it falls back to the resource pause.
   */
  function RetryRequest(snapshot: LoopRunState, note: Json): Request {
    if RetryGate(snapshot).Some? then ResumeRetryPause(note) else ResumeResourcePause(note)
  }

  /** The node a pause is reopened at, or nothing when the guard of the request refuses. */
  function ReopenNode(r: LoopRunState, request: Request): Option<Node> {
    match request
    case Resume => if Suspended(r.stop) then Some(Execute) else None
    case ResumeResourcePause(_) =>
      if r.stop == Stopped(Paused) && RetryableGrant(Get(r.evidence, "resource_grant"))
      then ResumeNode(Get(r.evidence, "resource_resume_node"))
      else None
    case ResumeRetryPause(_) =>
      (match RetryGate(r)
       case Some(gate) =>
         if r.stop == Stopped(Paused) && Get(gate, "decision") == Some(Str("pause"))
         then ResumeNode(Get(gate, "resume_node"))
         else None
       case None => None)
    case _ => None
  }

  function TargetOf(request: Request): Target
    requires request.Advance?
  {
    if request.terminal.Some? then ToTerminal(request.terminal.value) else ToNode(request.node)
  }

  function DeliveryTarget(success: bool): Terminal {
    if success then Converged else Failed
  }

  /** The checks made on the row that was read, in the order of the code. */
  ghost function Examine(request: Request, r: LoopRunState, at: real, facts: Facts): Verdict {
    match request
    case RejectGate(_) =>
      if r.stop == Stopped(Cancelled) then AlreadyDone
      else if Suspended(r.stop) then Write else Reject(ValueError)
    case CancelWait(_) =>
      if r.stop == Stopped(Cancelled) then AlreadyDone
      else if Suspended(r.stop) then Write else Reject(ValueError)
    case ParkWait(_) => if Suspended(r.stop) then Write else Reject(ValueError)
    case FinishDelivery(success, _) =>
      if r.stop == Stopped(DeliveryTarget(success)) then AlreadyDone
      else if r.stop == Stopped(Paused) && Get(r.evidence, "action") == Some(Str("connector_outbound")) then Write
      else Reject(ValueError)
    case FailActive(owner, _) =>
      if owner == "" then Reject(ValueError)
      else if r.stop.Stopped? then AlreadyDone
      else if r.leaseOwner != owner || r.leaseExpiresAt <= at then Reject(RuntimeError)
      else Write
    case Advance(_, checkpointId, _, condition, _, owner) =>
      if !facts.checkpointOk then Reject(ValueError)
      else if r.stop.Stopped? then Reject(ValueError)
      else if facts.graph.None? then Reject(KeyError)
      else if !Allowed(facts.graph.value, r.node, TargetOf(request), condition) then Reject(ValueError)
      else if owner != "" && (r.leaseOwner != owner || r.leaseExpiresAt <= at) then Reject(RuntimeError)
      else if Blank(checkpointId) then Reject(ValueError)
      else Write
    case _ => if ReopenNode(r, request).Some? then Write else Reject(ValueError)
  }

  /** The WHERE clause of the update: the version read, and for `fail_active_run` the live lease. */
  predicate VersionMatches(request: Request, seen: LoopRunState, at: real, r: LoopRunState) {
    && r.version == seen.version
    && (request.FailActive? ==> r.leaseOwner == request.owner && r.leaseExpiresAt > at)
  }

  /** `_transition_to`: stop the run, merge evidence and drop the lease. */
  function Halted(r: LoopRunState, seen: LoopRunState, target: Terminal, evidence: Evidence, now: real): LoopRunState {
    r.(stop := Stopped(target), evidence := seen.evidence + evidence, updatedAt := now,
       version := seen.version + 1, leaseOwner := "", leaseExpiresAt := 0.0)
  }

  function Reopened(r: LoopRunState, seen: LoopRunState, node: Node, now: real): LoopRunState {
    r.(node := node, stop := Running, updatedAt := now, version := seen.version + 1)
  }

  /** The columns written by `transition`, all taken from the row that was read. */
  function Advanced(r: LoopRunState, seen: LoopRunState, request: Request, now: real): LoopRunState
    requires request.Advance?
  {
    var stopping := request.terminal.Some?;
    r.(node := request.node, stop := StopOf(request.terminal), checkpointId := request.checkpointId,
       attempt := seen.attempt + AttemptCost(seen.node, request.node),
       parentRunId := seen.parentRunId, childRunIds := seen.childRunIds,
       lockedResources := seen.lockedResources, evidence := seen.evidence + request.evidence,
       updatedAt := now, version := seen.version + 1,
       leaseOwner := if stopping then "" else seen.leaseOwner,
       leaseExpiresAt := if stopping then 0.0 else seen.leaseExpiresAt)
  }

  /** The row `r` after the update of a request that read `seen`. */
  function CommitRow(request: Request, seen: LoopRunState, at: real, r: LoopRunState, now: real): LoopRunState {
    match request
    case Resume => Reopened(r, seen, Execute, now)
    case ResumeResourcePause(note) =>
      var node := ReopenNode(seen, request);
      if node.None? then r
      else Reopened(r, seen, node.value, now).(evidence := seen.evidence["resource_retry" := note])
    case ResumeRetryPause(note) =>
      var node := ReopenNode(seen, request);
      if node.None? then r
      else Reopened(r, seen, node.value, now).(evidence := seen.evidence["durable_retry" := note])
    case RejectGate(evidence) => Halted(r, seen, Cancelled, evidence, now)
    case CancelWait(evidence) => Halted(r, seen, Cancelled, evidence, now)
    case ParkWait(evidence) => Halted(r, seen, Paused, evidence, now)
    case FinishDelivery(success, evidence) => Halted(r, seen, DeliveryTarget(success), evidence, now)
    case FailActive(_, evidence) => Halted(r, seen, Failed, evidence, at)
    case Advance(_, _, _, _, _, _) => Advanced(r, seen, request, now)
  }

  /** A driver between its read and its commit. */
  datatype Pending = Pending(id: RunId, request: Request, seen: LoopRunState, at: real, facts: Facts)

  datatype System = System(tables: Tables, pending: map<nat, Pending>)

  datatype Event =
    | Do(op: Op)
    | Begin(pid: nat, id: RunId, request: Request, at: real)
    | Commit(pid: nat, now: real)

  function FactsFor(t: Tables, id: RunId, request: Request): Facts
    requires id in t.runs
  {
    var specId := t.runs[id].specId;
    Facts(if specId in t.specs then Some(t.specs[specId]) else None,
          request.Advance? && request.checkpointId in t.checkpoints && t.checkpoints[request.checkpointId] == id)
  }

  /** The commit of `p` finds the version it read. */
  predicate Lands(t: Tables, p: Pending) {
    p.id in t.runs && VersionMatches(p.request, p.seen, p.at, t.runs[p.id])
  }

  function CommitTables(t: Tables, p: Pending, now: real): Tables {
    if Lands(t, p)
    then t.(runs := t.runs[p.id := CommitRow(p.request, p.seen, p.at, t.runs[p.id], now)])
    else t
  }

  /**
   One event. A read that is refused leaves nothing pending; a commit whose WHERE clause
   matches no row raises and changes nothing. A pending driver that never commits has crashed,
   and a `Begin` may reuse its number.
   */
  ghost function Step(s: System, e: Event): System {
    match e
    case Do(op) => s.(tables := ApplyOp(s.tables, op))
    case Begin(pid, id, request, at) =>
      if id !in s.tables.runs then s
      else
        var r, facts := s.tables.runs[id], FactsFor(s.tables, id, request);
        if Examine(request, r, at, facts) == Write
        then s.(pending := s.pending[pid := Pending(id, request, r, at, facts)])
        else s
    case Commit(pid, now) =>
      if pid !in s.pending then s
      else System(CommitTables(s.tables, s.pending[pid], now), s.pending - {pid})
  }

  /** The state after a run of events. */
  ghost function Run(s: System, es: seq<Event>): System {
    if es == [] then s else Step(Run(s, es[..|es| - 1]), es[|es| - 1])
  }

  function Empty(): System {
    System(Tables(map[], map[], map[]), map[])
  }
}
