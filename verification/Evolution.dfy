/**
 Applying and rolling back one evolution proposal (`evolution_engine.py`, `evolution.py`,
 `evolution_experiments.py`): one engine that may crash between any two of its durable
 steps, then run again. The target adapter is atomic: an `apply` either lands or raises
 with the target as it was.
 */
module Evolution {
  import opened Values
  import Canary

  type Content = string

  /** `snapshot` and `rollback_snapshot` of the target adapter. */
  datatype Adapter = Adapter(snapshot: Content -> string, restore: string -> Content)

  /** Restoring a snapshot gives back the content it was taken from. */
  ghost predicate Lawful(a: Adapter) {
    forall x :: a.restore(a.snapshot(x)) == x
  }

  datatype Status = Proposed | Applying | Applied | ApplyFailed | ApplyUncertain | RolledBack

  datatype Proposal = Proposal(before: Content, after: Content, status: Status, appliedEvent: Option<nat>)

  /** A ledger event of kind `apply`; its position in the ledger is its id. */
  datatype ApplyEvent = ApplyEvent(rollbackState: string, rolledBack: bool)

  /** Where the running call stands. */
  datatype Pc =
    | Idle
    | Checked              // gates passed, baseline read
    | Claimed              // status set to applying
    | Rechecked            // baseline read again
    | Recorded(event: nat) // apply event in the ledger
    | Landed(event: nat)   // target holds the new content
    | Marked(event: nat)   // status set to applied
    | Failing              // status to be set to apply_failed
    | Doubting             // status to be set to apply_uncertain
    | Restoring(event: nat)
    | Restored(event: nat)
    | Reverted(event: nat) // rollback committed to the ledger

  datatype World = World(
    target: Content,
    proposal: Proposal,
    events: seq<ApplyEvent>,
    activations: map<nat, Canary.Activation>,
    pc: Pc)

  datatype Event =
    | Call(gate: bool)     // `apply_proposal` up to its first write
    | Claim
    | Recheck
    | Record
    | Apply(lands: bool)
    | MarkFailed
    | MarkUncertain
    | MarkApplied
    | Activate
    | CallRollback(event: nat)
    | Restore
    | CommitRollback
    | MarkRolledBack
    | Crash
    | OutsideWrite(content: Content)

  /** The branch taken by `apply_proposal`; `gate` is the verdict of the approval and experiment checks. */
  function Branch(w: World, gate: bool): Pc {
    match w.proposal.status
    case Applied => if w.proposal.appliedEvent.Some? then Marked(w.proposal.appliedEvent.value) else Idle
    case Applying =>  // `_reconcile_applying`
      if w.target == w.proposal.after && w.events != [] then Landed(|w.events| - 1)
      else if w.target == w.proposal.before then Failing
      else Doubting
    case Proposed => if gate && w.target == w.proposal.before then Checked else Idle
    case _ => Idle
  }

  /** The branch taken by `rollback_applied_event`. */
  function RollbackBranch(w: World, event: nat): Pc {
    if event < |w.events| && w.proposal.appliedEvent == Some(event) && w.proposal.status in {Applied, RolledBack} then
      if w.events[event].rolledBack then Reverted(event) else Restoring(event)
    else Idle
  }

  /** One step; a step not enabled where the call stands does nothing. */
  function Step(a: Adapter, w: World, e: Event): World {
    match (e, w.pc)
    case (Call(gate), Idle) => w.(pc := Branch(w, gate))
    case (Claim, Checked) =>
      if w.proposal.status == Proposed then w.(proposal := w.proposal.(status := Applying), pc := Claimed)
      else w.(pc := Idle)
    case (Recheck, Claimed) => w.(pc := if w.target == w.proposal.before then Rechecked else Failing)
    case (Record, Rechecked) =>
      w.(events := w.events + [ApplyEvent(a.snapshot(w.target), false)], pc := Recorded(|w.events|))
    case (Apply(lands), Recorded(event)) =>
      if lands then w.(target := w.proposal.after, pc := Landed(event)) else w.(pc := Failing)
    case (MarkFailed, Failing) => SetStatus(w, ApplyFailed)
    case (MarkUncertain, Doubting) => SetStatus(w, ApplyUncertain)
    case (MarkApplied, Landed(event)) =>
      if w.proposal.status == Applying
      then w.(proposal := w.proposal.(status := Applied, appliedEvent := Some(event)), pc := Marked(event))
      else w.(pc := Idle)
    case (Activate, Marked(event)) =>
      w.(activations := if event in w.activations then w.activations
                        else w.activations[event := Canary.NewActivation(3, 0.2)], pc := Idle)
    case (CallRollback(event), Idle) => w.(pc := RollbackBranch(w, event))
    case (Restore, Restoring(event)) =>
      if event < |w.events| then w.(target := a.restore(w.events[event].rollbackState), pc := Restored(event)) else w
    case (CommitRollback, Restored(event)) =>
      if event < |w.events|
      then w.(events := w.events[event := w.events[event].(rolledBack := true)],
              proposal := w.proposal.(status := RolledBack), pc := Reverted(event))
      else w
    case (MarkRolledBack, Reverted(event)) =>
      w.(activations := if event in w.activations
                        then w.activations[event := w.activations[event].(status := Canary.RolledBack)]
                        else w.activations, pc := Idle)
    case (Crash, _) => w.(pc := Idle)
    case (OutsideWrite(content), _) => w.(target := content)
    case _ => w
  }

  /** `UPDATE ... WHERE status = 'applying'`, after which the call raises. */
  function SetStatus(w: World, status: Status): World {
    w.(proposal := if w.proposal.status == Applying then w.proposal.(status := status) else w.proposal, pc := Idle)
  }

  function Run(a: Adapter, w: World, es: seq<Event>): World {
    if es == [] then w else Step(a, Run(a, w, es[..|es| - 1]), es[|es| - 1])
  }

  function Start(before: Content, after: Content, target: Content): World {
    World(target, Proposal(before, after, Proposed, None), [], map[], Idle)
  }
}
