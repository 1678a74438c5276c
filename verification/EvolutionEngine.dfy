/**
 `EvolutionEngine` in place on the ledger, the target and the activations. Each call is the
 uninterrupted run of the step machine given by its trace.
 */
module EvolutionEngine {
  import opened Values
  import Canary
  import opened Evolution

  lemma RunSnoc(a: Adapter, w: World, es: seq<Event>, e: Event)
    ensures Run(a, w, es + [e]) == Step(a, Run(a, w, es), e)
  {
    assert (es + [e])[..|es|] == es;
  }

  class Engine {
    const adapter: Adapter
    var target: Content
    var proposal: Proposal
    var events: seq<ApplyEvent>
    var activations: map<nat, Canary.Activation>

    function View(pc: Pc): World
      reads this
    {
      World(target, proposal, events, activations, pc)
    }

    constructor (adapter: Adapter, before: Content, after: Content, target: Content)
      ensures View(Idle) == Start(before, after, target) && this.adapter == adapter
    {
      this.adapter := adapter;
      this.target := target;
      proposal, events, activations := Proposal(before, after, Proposed, None), [], map[];
    }

    /**
     `apply_proposal`. `gate` is the verdict of the approval and experiment checks and `lands`
     whether the adapter applies or raises. An apply that lands is recorded with the snapshot
     taken before it; one that raises leaves the target alone.
     */
    method ApplyProposal(gate: bool, lands: bool) returns (r: Result<nat>, ghost trace: seq<Event>)
      modifies this
      ensures Run(adapter, old(View(Idle)), trace) == View(Idle)
      ensures old(proposal.status) == Proposed && gate && old(target) == old(proposal.before) ==>
                && events == old(events) + [ApplyEvent(adapter.snapshot(old(target)), false)]
                && (lands ==> r == Ok(|old(events)|) && target == old(proposal.after) && proposal.status == Applied
                              && |old(events)| in activations)
                && (!lands ==> r.Raised? && target == old(target) && proposal.status == ApplyFailed)
      ensures old(proposal.status) == Proposed && !(gate && old(target) == old(proposal.before)) ==>
                r.Raised? && View(Idle) == old(View(Idle))
      ensures old(proposal.status) != Proposed ==> target == old(target) && events == old(events)
      ensures old(proposal.status) == Applying ==>
                && (r.Ok? <==> target == old(proposal.after) && events != [])
                && (r.Ok? ==> r == Ok(|events| - 1) && r.value in activations
                              && proposal == old(proposal).(status := Applied, appliedEvent := Some(r.value)))
                && (r.Raised? ==> activations == old(activations)
                                  && proposal == old(proposal).(status := if target == old(proposal.before)
                                                                          then ApplyFailed else ApplyUncertain))
      ensures old(proposal.status) == Applied && old(proposal.appliedEvent).Some? ==>
                r == Ok(old(proposal.appliedEvent).value) && r.value in activations && proposal == old(proposal)
      ensures old(proposal.status) in {ApplyFailed, ApplyUncertain, RolledBack} ==>
                r.Raised? && View(Idle) == old(View(Idle))
    {
      ghost var w0 := View(Idle);
      match proposal.status
      case Applied =>
        if proposal.appliedEvent.None? { return Raised(KeyError), []; }
        trace := Trace1(w0, Call(gate));
        r, trace := StartActivation(proposal.appliedEvent.value, w0, trace);
      case Applying =>
        r, trace := ReconcileApplying(gate, w0);
      case Proposed =>
        if !gate || target != proposal.before { return Raised(ValueError), []; }
        r, trace := ClaimAndApply(gate, lands, w0);
      case _ =>
        return Raised(ValueError), [];
    }

    /** A trace of one event. */
    lemma Trace1(w: World, e: Event) returns (trace: seq<Event>)
      ensures trace == [e] && Run(adapter, w, trace) == Step(adapter, w, e)
    {
      trace := [e];
      assert trace[..0] == [];
    }

    /** A trace with one more event. */
    lemma Extend(w: World, trace: seq<Event>, e: Event) returns (trace': seq<Event>)
      ensures trace' == trace + [e] && Run(adapter, w, trace') == Step(adapter, Run(adapter, w, trace), e)
    {
      trace' := trace + [e];
      RunSnoc(adapter, w, trace, e);
    }

    method StartActivation(event: nat, ghost w0: World, ghost trace0: seq<Event>)
      returns (r: Result<nat>, ghost trace: seq<Event>)
      requires Run(adapter, w0, trace0) == View(Marked(event))
      modifies this`activations
      ensures Run(adapter, w0, trace) == View(Idle) && r == Ok(event) && event in activations
    {
      trace := Extend(w0, trace0, Activate);
      if event !in activations {
        activations := activations[event := Canary.NewActivation(3, 0.2)];
      }
      r := Ok(event);
    }

    /** `mark_applied`, then the activation. */
    method CommitApplied(event: nat, ghost w0: World, ghost trace0: seq<Event>)
      returns (r: Result<nat>, ghost trace: seq<Event>)
      requires Run(adapter, w0, trace0) == View(Landed(event)) && proposal.status == Applying
      modifies this`proposal, this`activations
      ensures Run(adapter, w0, trace) == View(Idle) && r == Ok(event) && event in activations
      ensures proposal == old(proposal).(status := Applied, appliedEvent := Some(event))
    {
      trace := Extend(w0, trace0, MarkApplied);
      proposal := proposal.(status := Applied, appliedEvent := Some(event));
      r, trace := StartActivation(event, w0, trace);
    }

    method ReconcileApplying(gate: bool, ghost w0: World) returns (r: Result<nat>, ghost trace: seq<Event>)
      requires w0 == View(Idle) && proposal.status == Applying
      modifies this`proposal, this`activations
      ensures Run(adapter, w0, trace) == View(Idle)
      ensures r.Ok? <==> target == old(proposal.after) && events != []
      ensures r.Ok? ==> r == Ok(|events| - 1) && r.value in activations
                        && proposal == old(proposal).(status := Applied, appliedEvent := Some(r.value))
      ensures r.Raised? ==> activations == old(activations)
                            && proposal == old(proposal).(status := if target == old(proposal.before)
                                                                    then ApplyFailed else ApplyUncertain)
    {
      trace := Trace1(w0, Call(gate));
      if target == proposal.after && events != [] {
        r, trace := CommitApplied(|events| - 1, w0, trace);
        return;
      }
      if target == proposal.before {
        trace := Extend(w0, trace, MarkFailed);
        proposal := proposal.(status := ApplyFailed);
        return Raised(ValueError), trace;
      }
      trace := Extend(w0, trace, MarkUncertain);
      proposal := proposal.(status := ApplyUncertain);
      return Raised(ValueError), trace;
    }

    method ClaimAndApply(gate: bool, lands: bool, ghost w0: World) returns (r: Result<nat>, ghost trace: seq<Event>)
      requires w0 == View(Idle) && proposal.status == Proposed && gate && target == proposal.before
      modifies this
      ensures Run(adapter, w0, trace) == View(Idle)
      ensures events == old(events) + [ApplyEvent(adapter.snapshot(old(target)), false)]
      ensures lands ==> r == Ok(|old(events)|) && target == old(proposal.after) && proposal.status == Applied
                        && |old(events)| in activations
      ensures !lands ==> r.Raised? && target == old(target) && proposal.status == ApplyFailed
    {
      trace := Trace1(w0, Call(gate));
      trace := Extend(w0, trace, Claim);
      proposal := proposal.(status := Applying);
      trace := Extend(w0, trace, Recheck);
      trace := Extend(w0, trace, Record);
      var event := |events|;
      events := events + [ApplyEvent(adapter.snapshot(target), false)];
      trace := Extend(w0, trace, Apply(lands));
      if !lands {
        trace := Extend(w0, trace, MarkFailed);
        proposal := proposal.(status := ApplyFailed);
        return Raised(RuntimeError), trace;
      }
      target := proposal.after;
      r, trace := CommitApplied(event, w0, trace);
    }

    /** `rollback`: restore under the ledger lock, stamp the event, close the activation. */
    method Rollback(event: nat) returns (r: Result<nat>, ghost trace: seq<Event>)
      modifies this
      ensures Run(adapter, old(View(Idle)), trace) == View(Idle)
      ensures r.Ok? <==> RollbackBranch(old(View(Idle)), event) != Idle
      ensures r.Ok? && !old(events)[event].rolledBack ==>
                target == adapter.restore(old(events)[event].rollbackState)
                && proposal == old(proposal).(status := RolledBack)
                && events == old(events)[event := old(events)[event].(rolledBack := true)]
      ensures r.Ok? && old(events)[event].rolledBack ==> target == old(target) && events == old(events)
      ensures r.Ok? ==> activations.Keys == old(activations).Keys
                        && (event in activations ==> activations[event].status == Canary.RolledBack)
      ensures r.Raised? ==> View(Idle) == old(View(Idle))
    {
      ghost var w0 := View(Idle);
      if event >= |events| { return Raised(KeyError), []; }
      if proposal.appliedEvent != Some(event) || (proposal.status != Applied && proposal.status != RolledBack) {
        return Raised(ValueError), [];
      }
      trace := Trace1(w0, CallRollback(event));
      if !events[event].rolledBack {
        trace := RestoreTarget(event, w0, trace);
      }
      trace := CloseActivation(event, w0, trace);
      r := Ok(event);
    }

    /** The transaction of `rollback_applied_event`. */
    method RestoreTarget(event: nat, ghost w0: World, ghost trace0: seq<Event>) returns (ghost trace: seq<Event>)
      requires event < |events| && Run(adapter, w0, trace0) == View(Restoring(event))
      modifies this`target, this`events, this`proposal
      ensures Run(adapter, w0, trace) == View(Reverted(event))
      ensures target == adapter.restore(old(events)[event].rollbackState)
      ensures proposal == old(proposal).(status := RolledBack)
      ensures events == old(events)[event := old(events)[event].(rolledBack := true)]
    {
      trace := Extend(w0, trace0, Restore);
      target := adapter.restore(events[event].rollbackState);
      trace := Extend(w0, trace, CommitRollback);
      events := events[event := events[event].(rolledBack := true)];
      proposal := proposal.(status := RolledBack);
    }

    method CloseActivation(event: nat, ghost w0: World, ghost trace0: seq<Event>) returns (ghost trace: seq<Event>)
      requires Run(adapter, w0, trace0) == View(Reverted(event))
      modifies this`activations
      ensures Run(adapter, w0, trace) == View(Idle)
      ensures activations.Keys == old(activations).Keys
      ensures event in activations ==> activations[event].status == Canary.RolledBack
    {
      trace := Extend(w0, trace0, MarkRolledBack);
      if event in activations {
        activations := activations[event := activations[event].(status := Canary.RolledBack)];
      }
    }
  }
}
