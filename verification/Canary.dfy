/** The canary of an applied evolution (`evolution_experiments.py`): a counter that decides once. */
module Canary {
  import opened Values

  datatype Status = Observing | Regressed | Healthy | RolledBack

  datatype Activation = Activation(
    status: Status,
    successes: nat,
    errors: nat,
    observations: nat,
    minObservations: nat,
    maxErrorRate: real)

  /** A row inserted by `start_activation`. */
  function NewActivation(minObservations: int, maxErrorRate: real): (a: Activation)
    ensures a.minObservations >= 1 && 0.0 <= a.maxErrorRate <= 1.0
  {
    Activation(Observing, 0, 0, 0, if minObservations >= 1 then minObservations else 1,
               Max(0.0, Min(1.0, maxErrorRate)))
  }

  /** The rollback port handed to `observe`: absent, raising, or completing. */
  datatype Port = NoPort | PortRaises | PortCompletes

  /**
   The transactions on one activation: the counting of a call of `observe`, the closing write
   of a call whose rollback port completed, and `mark_rolled_back`. Calls interleave, and one
   may crash between its two transactions.
   */
  datatype Event = Observe(successes: int, errors: int) | FinishRollback | MarkRolledBack

  function Clamp(n: int): nat {
    if n >= 0 then n else 0
  }

  /** An observation with at least one outcome; anything else raises before reading the row. */
  predicate Valid(e: Event) {
    e.Observe? && Clamp(e.successes) + Clamp(e.errors) >= 1
  }

  function Rate(successes: nat, errors: nat): real {
    if successes + errors == 0 then 0.0 else errors as real / (successes + errors) as real
  }

  /** The counting transaction of `observe`. */
  function Counted(a: Activation, e: Event): Activation
    requires Valid(e)
  {
    if a.status != Observing then a
    else
      var s, f, n := a.successes + Clamp(e.successes), a.errors + Clamp(e.errors), a.observations + 1;
      a.(successes := s, errors := f, observations := n,
         status := if n < a.minObservations then Observing
                   else if Rate(s, f) > a.maxErrorRate then Regressed else Healthy)
  }

  function Step(a: Activation, e: Event): Activation {
    match e
    case Observe(_, _) => if Valid(e) then Counted(a, e) else a
    case FinishRollback => if a.status == Regressed then a.(status := RolledBack) else a
    case MarkRolledBack => a.(status := RolledBack)
  }

  function Run(a: Activation, es: seq<Event>): Activation {
    if es == [] then a else Step(Run(a, es[..|es| - 1]), es[|es| - 1])
  }

  /** The activation was marked rolled back from outside. */
  predicate Marked(es: seq<Event>) {
    exists i :: 0 <= i < |es| && es[i].MarkRolledBack?
  }

  /** The first `limit` valid observations made before any outside rollback. */
  function Prefix(es: seq<Event>, limit: nat): (r: seq<Event>)
    ensures |r| <= limit && forall e :: e in r ==> Valid(e)
  {
    if es == [] then []
    else
      var rest, last := es[..|es| - 1], es[|es| - 1];
      var r := Prefix(rest, limit);
      if Valid(last) && |r| < limit && !Marked(rest) then r + [last] else r
  }

  function Successes(es: seq<Event>): nat
    requires forall e :: e in es ==> Valid(e)
  {
    if es == [] then 0
    else
      assert Valid(es[|es| - 1]);
      Successes(es[..|es| - 1]) + Clamp(es[|es| - 1].successes)
  }

  function Failures(es: seq<Event>): nat
    requires forall e :: e in es ==> Valid(e)
  {
    if es == [] then 0
    else
      assert Valid(es[|es| - 1]);
      Failures(es[..|es| - 1]) + Clamp(es[|es| - 1].errors)
  }

  /** The state of a canary after a run, read off the run alone. */
  predicate DecidedBy(a: Activation, start: Activation, es: seq<Event>) {
    var prefix := Prefix(es, start.minObservations);
    var decided := |prefix| == start.minObservations;
    var bad := Rate(Successes(prefix), Failures(prefix)) > start.maxErrorRate;
    && a.successes == Successes(prefix) && a.errors == Failures(prefix) && a.observations == |prefix|
    && a.minObservations == start.minObservations && a.maxErrorRate == start.maxErrorRate
    && (a.status == Observing <==> !decided && !Marked(es))
    && (a.status == Healthy <==> decided && !bad && !Marked(es))
    && (a.status == Regressed ==> decided && bad && !Marked(es))
    && (a.status == RolledBack ==> Marked(es) || (decided && bad))
  }

  lemma MarkedGrows(es: seq<Event>)
    requires es != []
    ensures Marked(es) <==> Marked(es[..|es| - 1]) || es[|es| - 1].MarkRolledBack?
  {
    var rest := es[..|es| - 1];
    if Marked(rest) {
      var i :| 0 <= i < |rest| && rest[i].MarkRolledBack?;
      assert es[i].MarkRolledBack?;
    }
  }

  lemma PrefixAppends(r: seq<Event>, e: Event)
    requires (forall x :: x in r ==> Valid(x)) && Valid(e)
    ensures forall x :: x in r + [e] ==> Valid(x)
    ensures Successes(r + [e]) == Successes(r) + Clamp(e.successes)
    ensures Failures(r + [e]) == Failures(r) + Clamp(e.errors)
  {
    assert (r + [e])[..|r|] == r;
  }

  /**
   Over any sequence of calls the counters are the sums over one fixed prefix of the valid
   observations, and the canary regresses exactly when that prefix is complete and its error
   rate exceeds the limit. Later, retried and invalid calls change nothing.
   */
  lemma {:induction false} DecidesOnceFromPrefix(start: Activation, es: seq<Event>)
    requires start.status == Observing && start.successes == start.errors == start.observations == 0
    requires start.minObservations >= 1
    ensures DecidedBy(Run(start, es), start, es)
  {
    if es != [] {
      var rest, last := es[..|es| - 1], es[|es| - 1];
      DecidesOnceFromPrefix(start, rest);
      MarkedGrows(es);
      var r := Prefix(rest, start.minObservations);
      if Valid(last) && |r| < start.minObservations && !Marked(rest) {
        PrefixAppends(r, last);
      }
    }
  }

  class ExperimentStore {
    var activations: map<string, Activation>

    constructor ()
      ensures activations == map[]
    {
      activations := map[];
    }

    /** `INSERT ... ON CONFLICT(event_id) DO NOTHING` */
    method StartActivation(eventId: string, minObservations: int, maxErrorRate: real) returns (a: Activation)
      modifies this
      ensures activations == if eventId in old(activations) then old(activations)
                             else old(activations)[eventId := NewActivation(minObservations, maxErrorRate)]
      ensures eventId in activations && a == activations[eventId]
    {
      if eventId !in activations {
        activations := activations[eventId := NewActivation(minObservations, maxErrorRate)];
      }
      a := activations[eventId];
    }

    /** The counting transaction: whether the call goes on to roll back. */
    method CountObservation(eventId: string, successes: int, errors: int) returns (r: Result<bool>)
      modifies this
      ensures !Valid(Observe(successes, errors)) ==> r == Raised(ValueError) && activations == old(activations)
      ensures Valid(Observe(successes, errors)) && eventId !in old(activations) ==>
                r == Raised(KeyError) && activations == old(activations)
      ensures Valid(Observe(successes, errors)) && eventId in old(activations) ==>
                var after := Step(old(activations)[eventId], Observe(successes, errors));
                activations == old(activations)[eventId := after] && r == Ok(after.status == Regressed)
    {
      var s, f := if successes >= 0 then successes else 0, if errors >= 0 then errors else 0;
      if s + f < 1 { return Raised(ValueError); }
      if eventId !in activations { return Raised(KeyError); }
      var a := activations[eventId];
      var needsRollback := a.status == Regressed;
      if a.status == Observing {
        var successCount, errorCount, observations := a.successes + s, a.errors + f, a.observations + 1;
        var rate := if successCount + errorCount == 0 then 0.0
                    else errorCount as real / (successCount + errorCount) as real;
        var status := Observing;
        if observations >= a.minObservations {
          status := if rate > a.maxErrorRate then Regressed else Healthy;
        }
        activations := activations[eventId := a.(status := status, successes := successCount, errors := errorCount,
                                                 observations := observations)];
        needsRollback := status == Regressed;
      }
      assert activations == old(activations)[eventId := Step(a, Observe(successes, errors))];
      return Ok(needsRollback);
    }

    /** The closing transaction, guarded because others may have acted while the port ran. */
    method CloseRollback(eventId: string)
      modifies this
      ensures activations == if eventId in old(activations)
                             then old(activations)[eventId := Step(old(activations)[eventId], FinishRollback)]
                             else old(activations)
    {
      if eventId in activations && activations[eventId].status == Regressed {
        activations := activations[eventId := activations[eventId].(status := RolledBack)];
      }
    }

    /** A call of `observe` that nobody interrupts. */
    method ObserveOutcome(eventId: string, successes: int, errors: int, port: Port) returns (r: Result<Activation>)
      modifies this
      ensures !Valid(Observe(successes, errors)) ==> r == Raised(ValueError) && activations == old(activations)
      ensures Valid(Observe(successes, errors)) && eventId !in old(activations) ==>
                r == Raised(KeyError) && activations == old(activations)
      ensures Valid(Observe(successes, errors)) && eventId in old(activations) ==>
                var counted := Step(old(activations)[eventId], Observe(successes, errors));
                var closed := Step(counted, FinishRollback);
                if counted.status == Regressed && !port.PortCompletes?
                then r == Raised(RuntimeError) && activations == old(activations)[eventId := counted]
                else r == Ok(closed) && activations == old(activations)[eventId := closed]
    {
      var counted := CountObservation(eventId, successes, errors);
      if counted.Raised? { return Raised(counted.error); }
      if counted.value {
        if !port.PortCompletes? { return Raised(RuntimeError); }
        CloseRollback(eventId);
      }
      return Ok(activations[eventId]);
    }

    method MarkActivationRolledBack(eventId: string) returns (a: Option<Activation>)
      modifies this
      ensures activations == if eventId in old(activations)
                             then old(activations)[eventId := Step(old(activations)[eventId], MarkRolledBack)]
                             else old(activations)
      ensures a.Some? <==> eventId in activations
      ensures a.Some? ==> a.value == activations[eventId]
    {
      if eventId !in activations { return None; }
      activations := activations[eventId := activations[eventId].(status := RolledBack)];
      return Some(activations[eventId]);
    }
  }
}
