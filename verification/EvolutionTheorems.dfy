/** Interrupted applies and rollbacks always settle. */
module EvolutionTheorems {
  import opened Values
  import Canary
  import opened Evolution

  /** The only apply event holds the snapshot of the content before the apply. */
  predicate OneEvent(a: Adapter, w: World) {
    |w.events| == 1 && w.events[0].rollbackState == a.snapshot(w.proposal.before)
  }

  /** What holds at every step of every run without outside writes. */
  predicate Inv(a: Adapter, w: World) {
    var p := w.proposal;
    && (w.events == [] || OneEvent(a, w))
    && (p.appliedEvent.Some? <==> p.status in {Applied, RolledBack})
    && (p.appliedEvent.Some? ==> p.appliedEvent == Some(0) && OneEvent(a, w))
    && (w.events != [] && w.events[0].rolledBack ==> p.status == RolledBack)
    && (w.activations != map[] ==> p.status in {Applied, RolledBack})
    && (match p.status
        case Proposed => w.events == [] && (w.pc == Idle || (w.pc == Checked && w.target == p.before))
        case Applying =>
          (match w.pc
           case Idle => w.target == p.before || (w.target == p.after && OneEvent(a, w))
           case Claimed => w.target == p.before && w.events == []
           case Rechecked => w.target == p.before && w.events == []
           case Recorded(e) => w.target == p.before && OneEvent(a, w) && e == 0
           case Landed(e) => w.target == p.after && OneEvent(a, w) && e == 0
           case Failing => w.target == p.before
           case _ => false)
        case Applied =>
          && (w.target == p.after || w.target == p.before)
          && (w.pc in {Idle, Marked(0), Restoring(0), Restored(0)})
          && (w.pc == Restored(0) ==> w.target == p.before)
        case ApplyFailed => w.target == p.before && w.pc == Idle
        case RolledBack => w.target == p.before && w.events[0].rolledBack && (w.pc == Idle || w.pc == Reverted(0))
        case ApplyUncertain => false)
  }

  lemma StepKeepsInv(a: Adapter, w: World, e: Event)
    requires Lawful(a) && Inv(a, w) && !e.OutsideWrite?
    ensures Inv(a, Step(a, w, e))
    ensures Step(a, w, e).proposal.before == w.proposal.before && Step(a, w, e).proposal.after == w.proposal.after
  {
  }

  predicate Undisturbed(es: seq<Event>) {
    forall i :: 0 <= i < |es| ==> !es[i].OutsideWrite?
  }

  lemma {:induction false} RunKeepsInv(a: Adapter, w: World, es: seq<Event>)
    requires Lawful(a) && Inv(a, w) && Undisturbed(es)
    ensures Inv(a, Run(a, w, es))
    ensures Run(a, w, es).proposal.before == w.proposal.before && Run(a, w, es).proposal.after == w.proposal.after
  {
    if es != [] {
      RunKeepsInv(a, w, es[..|es| - 1]);
      StepKeepsInv(a, Run(a, w, es[..|es| - 1]), es[|es| - 1]);
    }
  }

  /** While no rollback was called, an applied proposal has its content in the target. */
  predicate Forward(w: World) {
    && (w.proposal.status == Applied ==> w.target == w.proposal.after)
    && !w.pc.Restoring? && !w.pc.Restored? && !w.pc.Reverted? && w.proposal.status != RolledBack
  }

  lemma StepStaysForward(a: Adapter, w: World, e: Event)
    requires Inv(a, w) && Forward(w) && !e.OutsideWrite? && !e.CallRollback?
    ensures Forward(Step(a, w, e))
  {
  }

  lemma {:induction false} RunStaysForward(a: Adapter, w: World, es: seq<Event>)
    requires Lawful(a) && Inv(a, w) && Forward(w) && Undisturbed(es)
    requires forall i :: 0 <= i < |es| ==> !es[i].CallRollback?
    ensures Forward(Run(a, w, es))
  {
    if es != [] {
      var rest := es[..|es| - 1];
      RunStaysForward(a, w, rest);
      RunKeepsInv(a, w, rest);
      StepStaysForward(a, Run(a, w, rest), es[|es| - 1]);
    }
  }

  /** The apply is over: it happened completely, or not at all. */
  predicate Settled(a: Adapter, w: World) {
    && w.pc == Idle
    && ((w.proposal.status == Applied && w.proposal.appliedEvent == Some(0) && w.target == w.proposal.after
         && OneEvent(a, w) && !w.events[0].rolledBack && 0 in w.activations)
        || (w.proposal.status == ApplyFailed && w.target == w.proposal.before && w.activations == map[]))
  }

  /**
   A restarted engine calling `apply_proposal` once more, to the end. A step not due where the call
   stands does nothing.
   */
  function Rerun(a: Adapter, w: World, gate: bool, lands: bool): World {
    Finish(a, Perform(a, Step(a, Step(a, w, Crash), Call(gate)), lands))
  }

  /** From the claim to the side effect. */
  function Perform(a: Adapter, w: World, lands: bool): World {
    Step(a, Step(a, Step(a, Step(a, w, Claim), Recheck), Record), Apply(lands))
  }

  /** The closing writes. */
  function Finish(a: Adapter, w: World): World {
    Step(a, Step(a, Step(a, Step(a, w, MarkFailed), MarkUncertain), MarkApplied), Activate)
  }

  /** A rerun from a proposal that nobody claimed does nothing unless the gate passes on an unchanged target. */
  predicate Stuck(w: World, gate: bool) {
    w.proposal.status == Proposed && !(gate && w.target == w.proposal.before)
  }

  /**
   An apply interrupted anywhere, before or after its claim and any number of times, and run
   once more ends settled: applied with exactly one apply event holding the pre-apply
   snapshot and an activation, or failed with the target as it was. The one exception is a
   proposal not yet claimed that the rerun refuses; then nothing at all has happened.
   */
  lemma InterruptedApplySettles(a: Adapter, before: Content, after: Content, target: Content, es: seq<Event>,
                                gate: bool, lands: bool)
    requires Lawful(a) && Undisturbed(es) && forall i :: 0 <= i < |es| ==> !es[i].CallRollback?
    ensures var w := Run(a, Start(before, after, target), es);
            var r := Rerun(a, w, gate, lands);
            && r.proposal.before == before && r.proposal.after == after
            && (Settled(a, r) <==> !Stuck(w, gate))
            && (Stuck(w, gate) ==> r == Start(before, after, w.target))
            && (w.proposal.status == Proposed && !Stuck(w, gate) ==> (r.proposal.status == Applied <==> lands))
  {
    RunKeepsInv(a, Start(before, after, target), es);
    RunStaysForward(a, Start(before, after, target), es);
    RerunSettles(a, Run(a, Start(before, after, target), es), gate, lands);
  }

  lemma RerunSettles(a: Adapter, w: World, gate: bool, lands: bool)
    requires Lawful(a) && Inv(a, w) && Forward(w)
    ensures var r := Rerun(a, w, gate, lands);
            && r.proposal.before == w.proposal.before && r.proposal.after == w.proposal.after
            && (Settled(a, r) <==> !Stuck(w, gate))
            && (Stuck(w, gate) ==> r == Start(w.proposal.before, w.proposal.after, w.target))
            && (w.proposal.status == Proposed && !Stuck(w, gate) ==> (r.proposal.status == Applied <==> lands))
  {
    var idle := w.(pc := Idle);
    CrashIdles(a, w, gate, lands);
    match w.proposal.status
    case Proposed =>
      if Stuck(w, gate) {
        IdlePerforms(a, idle, lands);
      } else {
        RerunApplies(a, idle, lands);
      }
    case Applying => RerunReconciles(a, idle, gate, lands);
    case Applied => RerunActivates(a, idle, gate, lands);
    case ApplyFailed => IdlePerforms(a, idle, lands);
  }

  /** A crash only puts the call down. */
  lemma CrashIdles(a: Adapter, w: World, gate: bool, lands: bool)
    requires Lawful(a) && Inv(a, w)
    ensures Step(a, w, Crash) == w.(pc := Idle) && Inv(a, w.(pc := Idle))
    ensures Rerun(a, w, gate, lands) == Rerun(a, w.(pc := Idle), gate, lands)
  {
    StepKeepsInv(a, w, Crash);
  }

  lemma IdlePerforms(a: Adapter, w: World, lands: bool)
    requires w.pc == Idle
    ensures Perform(a, w, lands) == w && Finish(a, w) == w
  {
  }

  lemma RerunApplies(a: Adapter, w: World, lands: bool)
    requires w.proposal.status == Proposed && w.pc == Idle && w.target == w.proposal.before && Inv(a, w)
    ensures var r := Rerun(a, w, true, lands);
            && Settled(a, r) && (r.proposal.status == Applied <==> lands)
            && r.proposal.before == w.proposal.before && r.proposal.after == w.proposal.after
  {
    var called := Step(a, Step(a, w, Crash), Call(true));
    assert called == w.(pc := Checked);
    ClaimRecords(a, called);
    var recorded := called.(proposal := w.proposal.(status := Applying),
                            events := [ApplyEvent(a.snapshot(w.target), false)], pc := Recorded(0));
    if lands {
      assert Step(a, recorded, Apply(true)) == recorded.(target := w.proposal.after, pc := Landed(0));
      LandedFinishes(a, recorded.(target := w.proposal.after, pc := Landed(0)));
    } else {
      assert Step(a, recorded, Apply(false)) == recorded.(pc := Failing);
      FailingFinishes(a, recorded.(pc := Failing));
    }
  }

  lemma ClaimRecords(a: Adapter, w: World)
    requires w.pc == Checked && w.proposal.status == Proposed && w.target == w.proposal.before && w.events == []
    ensures Step(a, Step(a, Step(a, w, Claim), Recheck), Record)
         == w.(proposal := w.proposal.(status := Applying), events := [ApplyEvent(a.snapshot(w.target), false)],
               pc := Recorded(0))
  {
    var claimed := Step(a, w, Claim);
    assert claimed == w.(proposal := w.proposal.(status := Applying), pc := Claimed);
    assert Step(a, claimed, Recheck) == claimed.(pc := Rechecked);
  }

  lemma LandedFinishes(a: Adapter, w: World)
    requires w.pc == Landed(0) && w.proposal.status == Applying && w.target == w.proposal.after
    requires OneEvent(a, w) && !w.events[0].rolledBack
    ensures Settled(a, Finish(a, w)) && Finish(a, w).proposal.status == Applied
    ensures Finish(a, w).proposal.before == w.proposal.before && Finish(a, w).proposal.after == w.proposal.after
  {
    assert Step(a, Step(a, w, MarkFailed), MarkUncertain) == w;
  }

  lemma FailingFinishes(a: Adapter, w: World)
    requires w.pc == Failing && w.proposal.status == Applying && w.target == w.proposal.before
    requires w.activations == map[]
    ensures Settled(a, Finish(a, w)) && Finish(a, w).proposal.status == ApplyFailed
    ensures Finish(a, w).proposal.before == w.proposal.before && Finish(a, w).proposal.after == w.proposal.after
  {
    var failed := Step(a, w, MarkFailed);
    assert failed == w.(proposal := w.proposal.(status := ApplyFailed), pc := Idle);
    assert Finish(a, w) == failed;
  }

  lemma RerunReconciles(a: Adapter, w: World, gate: bool, lands: bool)
    requires Inv(a, w) && w.proposal.status == Applying && w.pc == Idle
    ensures Settled(a, Rerun(a, w, gate, lands))
    ensures Rerun(a, w, gate, lands).proposal.before == w.proposal.before
    ensures Rerun(a, w, gate, lands).proposal.after == w.proposal.after
  {
    var called := Step(a, Step(a, w, Crash), Call(gate));
    if w.target == w.proposal.after && w.events != [] {
      assert called == w.(pc := Landed(0));
      assert Perform(a, called, lands) == called;
      LandedFinishes(a, called);
    } else {
      assert called == w.(pc := Failing);
      assert Perform(a, called, lands) == called;
      FailingFinishes(a, called);
    }
  }

  lemma RerunActivates(a: Adapter, w: World, gate: bool, lands: bool)
    requires Inv(a, w) && Forward(w) && w.proposal.status == Applied && w.pc == Idle
    ensures Settled(a, Rerun(a, w, gate, lands))
    ensures Rerun(a, w, gate, lands).proposal.before == w.proposal.before
    ensures Rerun(a, w, gate, lands).proposal.after == w.proposal.after
  {
    var called := Step(a, Step(a, w, Crash), Call(gate));
    assert called == w.(pc := Marked(0));
    assert Perform(a, called, lands) == called;
  }

  /** A settled apply stays as it is under any further calls and crashes. */
  lemma {:induction false} SettledIsStable(a: Adapter, w: World, es: seq<Event>)
    requires Settled(a, w) && Undisturbed(es) && forall i :: 0 <= i < |es| ==> !es[i].CallRollback?
    ensures Run(a, w, es) == w || (w.proposal.status == Applied && Run(a, w, es) == w.(pc := Marked(0)))
  {
    if es != [] {
      SettledIsStable(a, w, es[..|es| - 1]);
    }
  }

  /** `apply_uncertain` needs somebody else to write the target. */
  lemma UncertainNeedsOutsider(a: Adapter, before: Content, after: Content, target: Content, es: seq<Event>)
    requires Lawful(a)
    requires Run(a, Start(before, after, target), es).proposal.status == ApplyUncertain
    ensures exists i :: 0 <= i < |es| && es[i].OutsideWrite?
  {
    if Undisturbed(es) {
      RunKeepsInv(a, Start(before, after, target), es);
    }
  }

  /** Reconciling doubts exactly the targets that are neither the old content nor a recorded new one. */
  lemma ReconcileVerdict(a: Adapter, w: World, gate: bool, lands: bool)
    requires w.proposal.status == Applying
    ensures var r := Rerun(a, w, gate, lands);
            && (r.proposal.status == ApplyUncertain
                <==> w.target != w.proposal.before && !(w.target == w.proposal.after && w.events != []))
            && (r.proposal.status == Applied <==> w.target == w.proposal.after && w.events != [])
            && r.target == w.target && r.events == w.events
  {
    var called := Step(a, Step(a, w, Crash), Call(gate));
    assert Perform(a, called, lands) == called;
  }

  /** A restarted engine calling `rollback` once more, to the end. */
  function RerunRollback(a: Adapter, w: World): World {
    var called := Step(a, Step(a, w, Crash), CallRollback(0));
    Step(a, Step(a, Step(a, called, Restore), CommitRollback), MarkRolledBack)
  }

  /**
   A rollback of an applied proposal, interrupted anywhere and rerun, ends with the target
   as it was before the apply, the event stamped and the activation closed; doing it again
   changes nothing.
   */
  lemma RollbackRestores(a: Adapter, before: Content, after: Content, target: Content, es: seq<Event>)
    requires Lawful(a) && Undisturbed(es)
    requires Run(a, Start(before, after, target), es).proposal.status in {Applied, RolledBack}
    ensures var w := RerunRollback(a, Run(a, Start(before, after, target), es));
            Undone(a, w) && w.target == before && RerunRollback(a, w) == w
  {
    RunKeepsInv(a, Start(before, after, target), es);
    RerunRollbackRestores(a, Run(a, Start(before, after, target), es));
  }

  predicate Undone(a: Adapter, w: World) {
    && w.target == w.proposal.before && w.proposal.status == RolledBack && w.pc == Idle
    && w.proposal.appliedEvent == Some(0)
    && OneEvent(a, w) && w.events[0].rolledBack
    && (0 in w.activations ==> w.activations[0].status == Canary.RolledBack)
  }

  lemma RestoreReverts(a: Adapter, w: World)
    requires Lawful(a) && OneEvent(a, w) && w.pc == Restoring(0)
    ensures Step(a, Step(a, w, Restore), CommitRollback)
         == w.(target := w.proposal.before, events := [w.events[0].(rolledBack := true)],
               proposal := w.proposal.(status := RolledBack), pc := Reverted(0))
  {
    assert Step(a, w, Restore) == w.(target := w.proposal.before, pc := Restored(0));
    assert w.events[0 := w.events[0].(rolledBack := true)] == [w.events[0].(rolledBack := true)];
  }

  lemma RerunUndoes(a: Adapter, w: World)
    requires Lawful(a) && Inv(a, w) && w.proposal.status in {Applied, RolledBack}
    ensures Undone(a, RerunRollback(a, w)) && RerunRollback(a, w).proposal.before == w.proposal.before
  {
    var called := Step(a, Step(a, w, Crash), CallRollback(0));
    if w.events[0].rolledBack {
      assert called == w.(pc := Reverted(0));
      assert Step(a, Step(a, called, Restore), CommitRollback) == called;
      RevertedCloses(a, called);
    } else {
      assert called == w.(pc := Restoring(0));
      RestoreReverts(a, called);
      RevertedCloses(a, Step(a, Step(a, called, Restore), CommitRollback));
    }
  }

  lemma RevertedCloses(a: Adapter, w: World)
    requires w.pc == Reverted(0) && w.target == w.proposal.before && w.proposal.status == RolledBack
    requires w.proposal.appliedEvent == Some(0) && OneEvent(a, w) && w.events[0].rolledBack
    ensures Undone(a, Step(a, w, MarkRolledBack)) && Step(a, w, MarkRolledBack).proposal == w.proposal
  {
  }

  lemma RerunRollbackRestores(a: Adapter, w: World)
    requires Lawful(a) && Inv(a, w) && w.proposal.status in {Applied, RolledBack}
    ensures Undone(a, RerunRollback(a, w)) && RerunRollback(a, w).proposal.before == w.proposal.before
    ensures RerunRollback(a, RerunRollback(a, w)) == RerunRollback(a, w)
  {
    RerunUndoes(a, w);
    UndoneStays(a, RerunRollback(a, w));
  }

  lemma UndoneStays(a: Adapter, w: World)
    requires Undone(a, w)
    ensures RerunRollback(a, w) == w
  {
    assert Step(a, Step(a, w, Crash), CallRollback(0)) == w.(pc := Reverted(0));
    var activations := if 0 in w.activations
                       then w.activations[0 := w.activations[0].(status := Canary.RolledBack)]
                       else w.activations;
    assert activations == w.activations;
  }
}
