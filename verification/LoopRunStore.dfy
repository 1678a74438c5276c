/**
 `LoopRunStore` (`loop_runs.py`), the orphan recovery of `lifecycle_saga.py` and the loop part
 of `retention.py`, in place on the tables. Each method is proved against the specification of its step. A method that
 reads and then commits is given as its read (`Begin...`) and its update (`Commit...`),
 because other drivers may write in between. A parameter named `selected` is the result of
 the SELECT the method issues inside its own transaction.
 */
module LoopRunStore {
  import opened Values
  import opened LoopContracts
  import opened LoopRuns

  /** A read that goes on to commit, or one that finds its work already done. */
  datatype Begun = Ready(pending: Pending) | Current(run: LoopRunState)

  class Store {
    var runs: map<RunId, LoopRunState>
    var specs: map<string, seq<Edge>>
    var checkpoints: map<string, RunId>

    function View(): Tables
      reads this
    {
      Tables(runs, specs, checkpoints)
    }

    constructor ()
      ensures View() == Empty().tables
    {
      runs, specs, checkpoints := map[], map[], map[];
    }

    /** `valid` is the verdict of `spec.validate()`, which looks at more than the graph. */
    method SaveSpec(specId: string, graph: seq<Edge>, valid: bool) returns (r: Result<()>)
      modifies this
      ensures !valid ==> r == Raised(ValueError) && View() == old(View())
      ensures valid ==> r == Ok(()) && View() == ApplyOp(old(View()), Op.SaveSpec(specId, graph))
    {
      if !valid { return Raised(ValueError); }
      specs := specs[specId := graph];
      return Ok(());
    }

    method CreateRun(id: RunId, specId: string, graph: seq<Edge>, goalId: string, parentRunId: string,
                     node: Node, terminal: Option<Terminal>, evidence: Evidence, now: real, valid: bool)
      returns (r: Result<LoopRunState>)
      requires id !in runs  // a fresh uuid
      modifies this
      ensures !valid ==> r == Raised(ValueError) && View() == old(View())
      ensures valid ==>
                var op := Op.CreateRun(id, specId, graph, goalId, parentRunId, node, terminal, evidence, now);
                && View() == ApplyOp(old(View()), op)
                && r == Ok(NewRun(op)) && id in runs && runs[id] == r.value
    {
      if !valid { return Raised(ValueError); }
      specs := specs[specId := graph];
      var state := LoopRunState(goalId, specId, node, StopOf(terminal), "", 1, parentRunId, [], [],
                                evidence, now, 0, "", 0.0);
      runs := runs[id := state];
      return Ok(state);
    }

    method WriteCheckpoint(checkpointId: string, id: RunId) returns (r: Result<()>)
      modifies this
      ensures View() == ApplyOp(old(View()), Op.WriteCheckpoint(checkpointId, id))
      ensures r.Ok? <==> id in runs && checkpointId !in old(checkpoints)
      ensures r.Ok? ==> checkpointId in checkpoints && checkpoints[checkpointId] == id
    {
      if id !in runs { return Raised(KeyError); }
      if checkpointId in checkpoints { return Raised(RuntimeError); }
      checkpoints := checkpoints[checkpointId := id];
      return Ok(());
    }

    method ClaimForExecution(id: RunId, owner: string, lease: real, allowPaused: bool, now: real)
      returns (claimed: Option<LoopRunState>)
      modifies this
      ensures View() == ApplyOp(old(View()), Op.Claim(id, owner, lease, allowPaused, now))
      ensures claimed.Some? <==> id in old(runs) && CanClaim(old(runs)[id], owner, allowPaused, now)
      ensures claimed.Some? ==> id in runs && runs[id] == claimed.value && claimed.value.leaseOwner == owner
    {
      if id !in runs || !(runs[id].stop == Running || (allowPaused && runs[id].stop == Stopped(Paused)))
         || !(runs[id].leaseOwner == "" || runs[id].leaseOwner == owner || runs[id].leaseExpiresAt <= now) {
        assert runs == ApplyOp(old(View()), Op.Claim(id, owner, lease, allowPaused, now)).runs;
        return None;
      }
      var r := runs[id];
      runs := runs[id := r.(leaseOwner := owner, leaseExpiresAt := now + Max(1.0, lease),
                            version := r.version + 1, updatedAt := now)];
      return Some(runs[id]);
    }

    method RenewExecutionLease(id: RunId, owner: string, lease: real, now: real) returns (renewed: bool)
      modifies this
      ensures View() == ApplyOp(old(View()), Op.Renew(id, owner, lease, now))
      ensures renewed <==> id in old(runs) && CanRenew(old(runs)[id], owner, now)
    {
      renewed := id in runs && runs[id].stop == Running && runs[id].leaseOwner == owner
          && runs[id].leaseExpiresAt > now;
      if renewed {
        runs := runs[id := runs[id].(leaseExpiresAt := now + Max(1.0, lease), updatedAt := now)];
      } else {
        assert runs == ApplyOp(old(View()), Op.Renew(id, owner, lease, now)).runs;
      }
    }

    /** The oldest claimable rows of the mode, up to the limit, each leased and returned. */
    method ClaimActiveForExecutionMode(selected: seq<RunId>, mode: string, owner: string, limit: Option<nat>,
                                       lease: real, updatedBefore: Option<real>, now: real)
      returns (claimed: seq<LoopRunState>)
      requires Oldest(runs, (r: LoopRunState) => CanClaimActive(r, mode, owner, updatedBefore, now),
                      (r: LoopRunState) => r.updatedAt, limit, selected)
      modifies this
      ensures View() == ApplyOp(old(View()), Op.ClaimActive(selected, mode, owner, lease, updatedBefore, now))
      ensures |claimed| == |selected|
      ensures forall k :: 0 <= k < |selected| ==> selected[k] in runs && claimed[k] == runs[selected[k]]
    {
      LeaseRows(selected, owner, lease, now);
      assert runs == ApplyOp(old(View()), Op.ClaimActive(selected, mode, owner, lease, updatedBefore, now)).runs;
      claimed := seq(|selected|, k requires 0 <= k < |selected| && selected[k] in runs reads this => runs[selected[k]]);
    }

    /** The row loop of the bulk claim. */
    method LeaseRows(selected: seq<RunId>, owner: string, lease: real, now: real)
      requires forall i :: 0 <= i < |selected| ==> selected[i] in runs
      requires forall i, j :: 0 <= i < j < |selected| ==> selected[i] != selected[j]
      modifies this`runs
      ensures runs.Keys == old(runs).Keys
      ensures forall id :: id in runs ==>
                runs[id] == if id in selected then Leased(old(runs)[id], owner, lease, now) else old(runs)[id]
    {
      for k := 0 to |selected|
        invariant runs.Keys == old(runs).Keys
        invariant forall id :: id in runs ==>
                    runs[id] == if id in selected[..k] then Leased(old(runs)[id], owner, lease, now) else old(runs)[id]
      {
        var r := runs[selected[k]];
        runs := runs[selected[k] := r.(leaseOwner := owner, leaseExpiresAt := now + Max(1.0, lease),
                                       version := r.version + 1, updatedAt := now)];
      }
      assert selected[..|selected|] == selected;
    }

    /** Every running row leased to one of the owners; empty names are dropped. */
    method ReleaseExecutionLeasesForOwners(selected: seq<RunId>, owners: set<string>, now: real)
      returns (released: seq<RunId>)
      requires Oldest(runs, (r: LoopRunState) => CanReleaseFor(r, owners - {""}), (r: LoopRunState) => r.updatedAt,
                      None, selected)
      modifies this
      ensures View() == ApplyOp(old(View()), Op.ReleaseForOwners(selected, owners - {""}, now))
      ensures forall id :: id in runs && runs[id].stop == Running ==> runs[id].leaseOwner !in owners - {""}
      ensures released == selected
    {
      released := ReleaseRows(selected, now);
      assert runs == ApplyOp(old(View()), Op.ReleaseForOwners(selected, owners - {""}, now)).runs;
    }

    /** The rows whose leases expired first, up to the limit. */
    method ReleaseExpiredExecutionLeases(selected: seq<RunId>, limit: int, now: real) returns (released: seq<RunId>)
      requires Oldest(runs, (r: LoopRunState) => CanReleaseExpired(r, now), (r: LoopRunState) => r.leaseExpiresAt,
                      Some(if limit >= 1 then limit else 1), selected)
      modifies this
      ensures View() == ApplyOp(old(View()), Op.ReleaseExpired(selected, now))
      ensures released == selected
    {
      released := ReleaseRows(selected, now);
      assert runs == ApplyOp(old(View()), Op.ReleaseExpired(selected, now)).runs;
    }

    /** The row loop shared by both bulk releases; each UPDATE repeats the guard of the SELECT. */
    method ReleaseRows(selected: seq<RunId>, now: real) returns (released: seq<RunId>)
      requires forall i :: 0 <= i < |selected| ==> selected[i] in runs && runs[selected[i]].stop == Running
      requires forall i, j :: 0 <= i < j < |selected| ==> selected[i] != selected[j]
      modifies this`runs
      ensures runs.Keys == old(runs).Keys
      ensures forall id :: id in runs ==>
                runs[id] == if id in selected then Unleased(old(runs)[id], now) else old(runs)[id]
      ensures released == selected
    {
      released := [];
      for k := 0 to |selected|
        invariant runs.Keys == old(runs).Keys
        invariant forall id :: id in runs ==>
                    runs[id] == if id in selected[..k] then Unleased(old(runs)[id], now) else old(runs)[id]
        invariant released == selected[..k]
      {
        var r := runs[selected[k]];
        if r.stop == Running {
          runs := runs[selected[k] := r.(leaseOwner := "", leaseExpiresAt := 0.0,
                                         version := r.version + 1, updatedAt := now)];
          released := released + [selected[k]];
        }
      }
      assert selected[..|selected|] == selected;
    }

    method ReleaseExecutionLease(id: RunId, owner: string, now: real) returns (released: bool)
      modifies this
      ensures View() == ApplyOp(old(View()), Op.Release(id, owner, now))
      ensures released <==> id in old(runs) && old(runs)[id].leaseOwner == owner
    {
      released := id in runs && runs[id].leaseOwner == owner;
      if released {
        runs := runs[id := runs[id].(leaseOwner := "", leaseExpiresAt := 0.0,
                                     version := runs[id].version + 1, updatedAt := now)];
      } else {
        assert runs == ApplyOp(old(View()), Op.Release(id, owner, now)).runs;
      }
    }

    /**
     The loop part of `recover_open_orphans`. The list was read earlier, so each UPDATE is
     guarded again; a row the guard spares is reported all the same.
     */
    method RecoverOpenOrphans(listed: seq<Listed>, goalIds: set<string>, cutoff: real, evidence: Evidence, now: real)
      returns (recovered: seq<RunId>)
      modifies this
      ensures recovered == Orphans(listed, goalIds, cutoff)
      ensures View() == RecoverAll(old(View()), recovered, evidence, now)
    {
      recovered := [];
      for k := 0 to |listed|
        invariant recovered == Orphans(listed[..k], goalIds, cutoff)
        invariant View() == RecoverAll(old(View()), recovered, evidence, now)
      {
        assert listed[..k + 1][..k] == listed[..k];
        var row := listed[k];
        if row.goalId in goalIds || row.stop.Stopped? || row.createdAt > cutoff { continue; }
        RecoverOne(row.id, evidence, now);
        assert (recovered + [row.id])[..|recovered|] == recovered;
        recovered := recovered + [row.id];
      }
      assert listed[..|listed|] == listed;
    }

    /** The loop transaction of `_compact_one`. */
    method CompactOne(id: RunId, specId: string, summary: Evidence)
      modifies this
      ensures View() == ApplyOp(old(View()), Op.Retain(id, specId, summary))
    {
      checkpoints := map c | c in checkpoints && checkpoints[c] != id :: checkpoints[c];
      if id in runs {
        runs := runs[id := runs[id].(checkpointId := "", childRunIds := [], lockedResources := [],
                                     evidence := summary, version := runs[id].version + 1)];
      }
      specs := specs - {specId};
      assert runs == ApplyOp(old(View()), Op.Retain(id, specId, summary)).runs;
    }

    /** The first read of `reopen_retryable_pause`, which chooses the reopening to attempt. */
    method ChooseRetry(id: RunId, note: Json) returns (r: Result<Request>)
      ensures r == if id in runs then Ok(RetryRequest(runs[id], note)) else Raised(KeyError)
    {
      if id !in runs { return Raised(KeyError); }
      var gate := Get(runs[id].evidence, "retry_gate");
      if gate.None? || !gate.value.Obj? { return Ok(ResumeResourcePause(note)); }
      return Ok(ResumeRetryPause(note));
    }

    method RecoverOne(id: RunId, evidence: Evidence, now: real)
      modifies this
      ensures View() == ApplyOp(old(View()), Op.RecoverOrphan(id, evidence, now))
    {
      if id in runs && runs[id].stop == Running {
        runs := runs[id := runs[id].(stop := Stopped(Failed), evidence := evidence, version := runs[id].version + 1,
                                     leaseOwner := "", leaseExpiresAt := 0.0, updatedAt := now)];
      } else {
        assert runs == ApplyOp(old(View()), Op.RecoverOrphan(id, evidence, now)).runs;
      }
    }

    /** `_transition_allowed`: the first matching edge decides. */
    method TransitionAllowed(graph: seq<Edge>, node: Node, target: Target, condition: string) returns (ok: bool)
      ensures ok <==> Allowed(graph, node, target, condition)
    {
      for k := 0 to |graph|
        invariant forall i :: 0 <= i < k ==> !Licenses(graph[i], node, target, condition)
      {
        var edge := graph[k];
        if edge.source != node || edge.target != target { continue; }
        if condition != "" && edge.condition != condition { continue; }
        return true;
      }
      return false;
    }

    /** The SELECT and the checks of `transition`. */
    method BeginTransition(id: RunId, request: Request, at: real) returns (r: Result<Pending>)
      requires request.Advance?
      ensures id !in runs ==> r == Raised(KeyError)
      ensures id in runs ==>
                var facts := FactsFor(View(), id, request);
                match Examine(request, runs[id], at, facts)
                case Write => r == Ok(Pending(id, request, runs[id], at, facts))
                case Reject(e) => r == Raised(e)
                case AlreadyDone => false
    {
      if id !in runs { return Raised(KeyError); }
      if request.checkpointId !in checkpoints || checkpoints[request.checkpointId] != id { return Raised(ValueError); }
      var current := runs[id];
      if current.stop.Stopped? { return Raised(ValueError); }
      if current.specId !in specs { return Raised(KeyError); }
      var target := if request.terminal.Some? then ToTerminal(request.terminal.value) else ToNode(request.node);
      var ok := TransitionAllowed(specs[current.specId], current.node, target, request.condition);
      if !ok { return Raised(ValueError); }
      if request.owner != "" && (current.leaseOwner != request.owner || current.leaseExpiresAt <= at) {
        return Raised(RuntimeError);
      }
      if Blank(request.checkpointId) { return Raised(ValueError); }
      return Ok(Pending(id, request, current, at, Facts(Some(specs[current.specId]), true)));
    }

    /** The SELECT and the checks of every other read-then-commit operation. */
    method BeginRequest(id: RunId, request: Request, at: real) returns (r: Result<Begun>)
      requires !request.Advance?
      ensures id !in runs ==>
                r == Raised(if request.FailActive? && request.owner == "" then ValueError else KeyError)
      ensures id in runs ==>
                var facts := FactsFor(View(), id, request);
                match Examine(request, runs[id], at, facts)
                case Write => r == Ok(Ready(Pending(id, request, runs[id], at, facts)))
                case AlreadyDone => r == Ok(Current(runs[id]))
                case Reject(e) => r == Raised(e)
    {
      if request.FailActive? && request.owner == "" { return Raised(ValueError); }
      if id !in runs { return Raised(KeyError); }
      var current := runs[id];
      var ready := Ok(Ready(Pending(id, request, current, at, FactsFor(View(), id, request))));
      match request {
        case FailActive(owner, _) =>
          if current.stop.Stopped? { return Ok(Current(current)); }
          if current.leaseOwner != owner || current.leaseExpiresAt <= at { return Raised(RuntimeError); }
          return ready;
        case FinishDelivery(success, _) =>
          if current.stop == Stopped(if success then Converged else Failed) { return Ok(Current(current)); }
          if current.stop != Stopped(Paused) || Get(current.evidence, "action") != Some(Str("connector_outbound")) {
            return Raised(ValueError);
          }
          return ready;
        case ParkWait(_) =>
          if !Suspended(current.stop) { return Raised(ValueError); }
          return ready;
        case RejectGate(_) =>
          if current.stop == Stopped(Cancelled) { return Ok(Current(current)); }
          if !Suspended(current.stop) { return Raised(ValueError); }
          return ready;
        case CancelWait(_) =>
          if current.stop == Stopped(Cancelled) { return Ok(Current(current)); }
          if !Suspended(current.stop) { return Raised(ValueError); }
          return ready;
        case _ =>
          if ReopenNode(current, request).None? { return Raised(ValueError); }
          return ready;
      }
    }

    /** The UPDATE of `transition`, from the state computed by `LoopRunState.transition`. */
    method CommitTransition(p: Pending, now: real) returns (r: Result<LoopRunState>)
      requires p.request.Advance? && Examine(p.request, p.seen, p.at, p.facts) == Write
      modifies this
      ensures View() == CommitTables(old(View()), p, now)
      ensures r == if Lands(old(View()), p) then Ok(CommitRow(p.request, p.seen, p.at, p.seen, now))
                   else Raised(RuntimeError)
    {
      var next := Transition(p.seen, p.request.node, p.request.checkpointId, p.request.terminal, p.request.evidence,
                             now);
      if next.Raised? { return next; }
      var stopping := p.request.terminal.Some?;
      var n := next.value.(version := p.seen.version + 1,
                           leaseOwner := if stopping then "" else p.seen.leaseOwner,
                           leaseExpiresAt := if stopping then 0.0 else p.seen.leaseExpiresAt);
      if p.id !in runs || runs[p.id].version != p.seen.version { return Raised(RuntimeError); }
      runs := runs[p.id := runs[p.id].(node := n.node, stop := n.stop, checkpointId := n.checkpointId,
                                       attempt := n.attempt, parentRunId := n.parentRunId,
                                       childRunIds := n.childRunIds, lockedResources := n.lockedResources,
                                       evidence := n.evidence, updatedAt := n.updatedAt, version := n.version,
                                       leaseOwner := n.leaseOwner, leaseExpiresAt := n.leaseExpiresAt)];
      return Ok(n);
    }

    /**
     `_transition_to`, with the extra WHERE clause of `fail_active_run`; the state returned is the
     one read, changed.
     */
    method TransitionTo(p: Pending, target: Terminal, evidence: Evidence, now: real) returns (r: Result<LoopRunState>)
      modifies this
      ensures r == if Lands(old(View()), p) then Ok(Halted(p.seen, p.seen, target, evidence, now))
                   else Raised(RuntimeError)
      ensures View() == if Lands(old(View()), p)
                        then old(View()).(runs :=
                                          old(runs)[p.id := Halted(old(runs)[p.id], p.seen, target, evidence, now)])
                        else old(View())
    {
      var next := p.seen.(stop := Stopped(target), evidence := p.seen.evidence + evidence, updatedAt := now,
                          version := p.seen.version + 1, leaseOwner := "", leaseExpiresAt := 0.0);
      if p.id !in runs || runs[p.id].version != p.seen.version
         || (p.request.FailActive? && !(runs[p.id].leaseOwner == p.request.owner && runs[p.id].leaseExpiresAt > p.at)) {
        return Raised(RuntimeError);
      }
      runs := runs[p.id := runs[p.id].(stop := next.stop, evidence := next.evidence, updatedAt := next.updatedAt,
                                       version := next.version, leaseOwner := "", leaseExpiresAt := 0.0)];
      return Ok(next);
    }

    /** The updates of the operations that stop a run outside the state graph. */
    method CommitHalt(p: Pending, now: real) returns (r: Result<LoopRunState>)
      requires p.request.RejectGate? || p.request.CancelWait? || p.request.ParkWait?
               || p.request.FinishDelivery? || p.request.FailActive?
      modifies this
      ensures View() == CommitTables(old(View()), p, now)
      ensures r == if Lands(old(View()), p) then Ok(CommitRow(p.request, p.seen, p.at, p.seen, now))
                   else Raised(RuntimeError)
    {
      match p.request
      case RejectGate(evidence) => r := TransitionTo(p, Cancelled, evidence, now);
      case CancelWait(evidence) => r := TransitionTo(p, Cancelled, evidence, now);
      case ParkWait(evidence) => r := TransitionTo(p, Paused, evidence, now);
      case FinishDelivery(success, evidence) =>
        r := TransitionTo(p, if success then Converged else Failed, evidence, now);
      case FailActive(_, evidence) => r := TransitionTo(p, Failed, evidence, p.at);
    }

    /** The updates of the three reopening operations; lease columns are left as they are. */
    method CommitReopen(p: Pending, now: real) returns (r: Result<LoopRunState>)
      requires p.request.Resume? || p.request.ResumeResourcePause? || p.request.ResumeRetryPause?
      requires Examine(p.request, p.seen, p.at, p.facts) == Write
      modifies this
      ensures View() == CommitTables(old(View()), p, now)
      ensures r == if Lands(old(View()), p) then Ok(CommitRow(p.request, p.seen, p.at, p.seen, now))
                   else Raised(RuntimeError)
    {
      var node := ReopenNode(p.seen, p.request).value;
      if p.id !in runs || runs[p.id].version != p.seen.version { return Raised(RuntimeError); }
      var next := p.seen.(node := node, stop := Running, updatedAt := now, version := p.seen.version + 1);
      var row := runs[p.id].(node := node, stop := Running, updatedAt := now, version := next.version);
      if !p.request.Resume? {
        next := next.(evidence := p.seen.evidence[NoteKey(p.request) := p.request.note]);
        row := row.(evidence := next.evidence);
      }
      runs := runs[p.id := row];
      return Ok(next);
    }
  }

  /** Where a retrying reopening records its facts. */
  function NoteKey(request: Request): string {
    if request.ResumeResourcePause? then "resource_retry" else "durable_retry"
  }

  /** A row of the list that orphan recovery works through. */
  datatype Listed = Listed(id: RunId, goalId: string, createdAt: real, stop: Stop)

  /** The running, old enough rows whose goal is missing. */
  function Orphans(listed: seq<Listed>, goalIds: set<string>, cutoff: real): seq<RunId> {
    if listed == [] then []
    else
      var row := listed[|listed| - 1];
      Orphans(listed[..|listed| - 1], goalIds, cutoff)
      + if row.goalId in goalIds || row.stop.Stopped? || row.createdAt > cutoff then [] else [row.id]
  }

  /** What `SELECT ... WHERE eligible ORDER BY age LIMIT limit` may return. */
  ghost predicate Oldest(runs: map<RunId, LoopRunState>, eligible: LoopRunState -> bool, age: LoopRunState -> real,
                         limit: Option<nat>, selected: seq<RunId>)
  {
    && (forall k :: 0 <= k < |selected| ==> selected[k] in runs && eligible(runs[selected[k]]))
    && (forall i, j :: 0 <= i < j < |selected| ==>
          selected[i] != selected[j] && age(runs[selected[i]]) <= age(runs[selected[j]]))
    && (limit.Some? ==> |selected| <= limit.value)
    && (forall id :: id in runs && eligible(runs[id]) && id !in selected ==>
          && limit == Some(|selected|)
          && forall k :: 0 <= k < |selected| ==> age(runs[selected[k]]) <= age(runs[id]))
  }

  /** Orphans recovered one UPDATE at a time. */
  function RecoverAll(t: Tables, orphans: seq<RunId>, evidence: Evidence, now: real): Tables {
    if orphans == [] then t
    else
      ApplyOp(RecoverAll(t, orphans[..|orphans| - 1], evidence, now),
              RecoverOrphan(orphans[|orphans| - 1], evidence, now))
  }
}
