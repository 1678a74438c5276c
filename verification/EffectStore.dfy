/** `EffectJournal` in place on its table, and `CapabilityRegistry.invoke` as one uninterrupted call. */
module EffectStore {
  import opened Values
  import opened Effects

  class EffectJournal {
    var rows: Journal

    constructor ()
      ensures rows == Initial().rows
    {
      rows := map[];
    }

    method Reserve(key: string, owner: string, run: string, lease: real, now: real) returns (r: Reservation)
      modifies this
      ensures r == ReserveOutcome(old(rows), key, now)
      ensures rows == ReserveRows(old(rows), key, owner, run, lease, now)
    {
      if key in rows {
        var row := rows[key];
        if row.status == Completed { return Replay(row.result); }
        if row.status == Uncertain { return Unsettled; }
        if row.status == Active && row.expiresAt > now { return Busy; }
        if row.status == Active {
          rows := rows[key := row.(status := Uncertain, expiresAt := 0.0)];
          return Unsettled;
        }
        rows := rows[key := row.(status := Active, owner := owner, expiresAt := now + lease, result := Null)];
        return Acquired;
      }
      rows := rows[key := Effect(Active, owner, run, now + lease, Null)];
      return Acquired;
    }

    method Complete(key: string, owner: string, result: Json) returns (r: Result<()>)
      modifies this
      ensures r.Ok? <==> Owns(old(rows), key, owner)
      ensures rows == CompleteRows(old(rows), key, owner, result)
    {
      if key !in rows || rows[key].owner != owner || rows[key].status != Active {
        return Raised(RuntimeError);
      }
      rows := rows[key := rows[key].(status := Completed, result := result, expiresAt := 0.0)];
      return Ok(());
    }

    method Fail(key: string, owner: string)
      modifies this
      ensures rows == FailRows(old(rows), key, owner)
    {
      if key in rows && rows[key].owner == owner && rows[key].status == Active {
        rows := rows[key := rows[key].(status := Uncertain, expiresAt := 0.0)];
      }
    }

    method Abandon(key: string, owner: string)
      modifies this
      ensures rows == AbandonRows(old(rows), key, owner)
    {
      if key in rows && rows[key].owner == owner && rows[key].status == Active {
        rows := rows - {key};
      }
    }

    /** The DELETE of retention, for all effects of one loop run. */
    method DeleteRun(run: string)
      modifies this
      ensures rows == PurgeRows(old(rows), run)
      ensures forall k :: k in old(rows) ==> (k in rows <==> old(rows)[k].run != run)
    {
      rows := map k | k in rows && rows[k].run != run :: rows[k];
    }
  }

  datatype HandlerOutcome = Returns(result: Json) | Raises(result: Json)

  /**
   What the environment answers during one call: the resource gateway, the audit log and the
   handler. A handler that is a plain tool has no audit entry, which is the answer `true`.
   `Raises` carries the error result built for an exception.
   */
  datatype Environment = Environment(granted: bool, auditReserved: bool, handler: HandlerOutcome, auditCompleted: bool)

  /** A single call run by the step machine without interference. */
  ghost function Play(rows: Journal, c: Invocation, actions: seq<Action>): (Journal, Invocation) {
    if actions == [] then (rows, c)
    else
      var (rows', c') := Play(rows, c, actions[..|actions| - 1]);
      var a := actions[|actions| - 1];
      (RowsAfter(rows', c', a), CallAfter(rows', c', a))
  }

  lemma PlaySnoc(rows: Journal, c: Invocation, actions: seq<Action>, a: Action)
    ensures var (rows', c') := Play(rows, c, actions);
            Play(rows, c, actions + [a]) == (RowsAfter(rows', c', a), CallAfter(rows', c', a))
  {
    assert (actions + [a])[..|actions|] == actions;
  }

  /** The reservation of `invoke`. */
  method TryReserve(journal: EffectJournal, key: string, owner: string, run: string, lease: real, now: real)
    returns (pc: Pc, ghost trace: seq<Action>)
    modifies journal
    ensures Play(old(journal.rows), Invocation(key, owner, run, Start, false, false), trace)
            == (journal.rows, Invocation(key, owner, run, pc, false, false))
    ensures journal.rows == ReserveRows(old(journal.rows), key, owner, run, lease, now)
    ensures match ReserveOutcome(old(journal.rows), key, now)
            case Acquired => pc == Reserved
            case Replay(result) => pc == Replayed(result)
            case _ => pc == Refused
  {
    ghost var start := Invocation(key, owner, run, Start, false, false);
    ghost var call;
    trace, call := Extend(journal.rows, start, [], start, journal.rows, Action.Reserve(lease, now));
    var reservation := journal.Reserve(key, owner, run, lease, now);
    match reservation
    case Acquired => pc := Reserved;
    case Replay(result) => pc := Replayed(result);
    case _ => pc := Refused;
  }

  /** Resource grant and audit entry; a refusal gives the reservation back. */
  method Admit(journal: EffectJournal, key: string, owner: string, ghost run: string, granted: bool,
               auditReserved: bool)
    returns (pc: Pc, ghost trace: seq<Action>)
    modifies journal
    ensures Play(old(journal.rows), Invocation(key, owner, run, Reserved, false, false), trace)
            == (journal.rows, Invocation(key, owner, run, pc, false, false))
    ensures pc == if granted && auditReserved then Prepared else Refused
    ensures journal.rows == if granted && auditReserved then old(journal.rows)
                            else AbandonRows(old(journal.rows), key, owner)
  {
    ghost var start := Invocation(key, owner, run, Reserved, false, false);
    ghost var rows0, call := journal.rows, start;
    trace := [];
    trace, call := Extend(rows0, start, trace, call, journal.rows, Grant(granted));
    if granted {
      trace, call := Extend(rows0, start, trace, call, journal.rows, AuditReserve(auditReserved));
    }
    if !granted || !auditReserved {
      trace, call := Extend(rows0, start, trace, call, journal.rows, Action.Abandon);
      journal.Abandon(key, owner);
      return Refused, trace;
    }
    return Prepared, trace;
  }

  /** The handler call of `invoke`: an exception fails the effect and becomes an error result. */
  method CallAndCatch(journal: EffectJournal, key: string, owner: string, ghost run: string, handler: HandlerOutcome)
    returns (result: Json, ghost trace: seq<Action>)
    modifies journal
    ensures Play(old(journal.rows), Invocation(key, owner, run, Prepared, false, false), trace)
            == (journal.rows, Invocation(key, owner, run, Finished(result), true, handler.Raises?))
    ensures result == handler.result
    ensures journal.rows == if handler.Raises? then FailRows(old(journal.rows), key, owner) else old(journal.rows)
  {
    ghost var start := Invocation(key, owner, run, Prepared, false, false);
    ghost var rows0, call := journal.rows, start;
    trace := [];
    trace, call := Extend(rows0, start, trace, call, journal.rows, CallHandler);
    assert call == Invocation(key, owner, run, InHandler, true, false);
    result := handler.result;
    if handler.Returns? {
      trace, call := Extend(rows0, start, trace, call, journal.rows, HandlerReturns(result));
    } else {
      trace, call := Extend(rows0, start, trace, call, journal.rows, HandlerRaises(result));
      assert call == Invocation(key, owner, run, HandlerRaised(result), true, true);
      trace, call := Extend(rows0, start, trace, call, journal.rows, Action.Fail);
      journal.Fail(key, owner);
    }
  }

  /** The end of `invoke`: audit completion, then the journal. */
  method Settle(journal: EffectJournal, key: string, owner: string, ghost run: string, ghost raised: bool, result: Json,
                auditCompleted: bool)
    returns (end: Pc, ghost trace: seq<Action>)
    modifies journal
    ensures Play(old(journal.rows), Invocation(key, owner, run, Finished(result), true, raised), trace)
            == (journal.rows, Invocation(key, owner, run, end, true, raised))
    ensures end == if !auditCompleted then Refused
                   else if Owns(old(journal.rows), key, owner) then Returned(result) else Died
    ensures journal.rows == if auditCompleted then CompleteRows(old(journal.rows), key, owner, result)
                            else FailRows(old(journal.rows), key, owner)
  {
    ghost var start := Invocation(key, owner, run, Finished(result), true, raised);
    ghost var rows0, call := journal.rows, start;
    trace := [];
    trace, call := Extend(rows0, start, trace, call, journal.rows, AuditComplete(auditCompleted));
    if !auditCompleted {
      trace, call := Extend(rows0, start, trace, call, journal.rows, Action.Fail);
      journal.Fail(key, owner);
      return Refused, trace;
    }
    trace, call := Extend(rows0, start, trace, call, journal.rows, Action.Complete);
    var completed := journal.Complete(key, owner, result);
    end := if completed.Ok? then Returned(result) else Died;
  }

  /**
   `invoke` from the reservation on, without interference. A handler exception marks the
   effect uncertain first, so the later `complete` raises and the call dies.
   */
  method Invoke(journal: EffectJournal, key: string, owner: string, run: string, env: Environment, lease: real,
                now: real)
    returns (end: Pc)
    modifies journal
    ensures Ended(end)
    ensures end.Returned? || end.Replayed? ==>
              key in journal.rows && journal.rows[key].status == Completed && journal.rows[key].result == end.result
    ensures var outcome := ReserveOutcome(old(journal.rows), key, now);
            var reserved := ReserveRows(old(journal.rows), key, owner, run, lease, now);
            if outcome.Replay? then end == Replayed(outcome.result) && journal.rows == old(journal.rows)
            else if outcome != Acquired then end == Refused && journal.rows == reserved
            else if !env.granted || !env.auditReserved then end == Refused && journal.rows == reserved - {key}
            else if !env.auditCompleted then
              end == Refused && journal.rows == reserved[key := reserved[key].(status := Uncertain, expiresAt := 0.0)]
            else if env.handler.Raises? then
              end == Died && journal.rows == reserved[key := reserved[key].(status := Uncertain, expiresAt := 0.0)]
            else
              && end == Returned(env.handler.result)
              && journal.rows == CompleteRows(reserved, key, owner, env.handler.result)
  {
    ghost var trace;
    end, trace := TryReserve(journal, key, owner, run, lease, now);
    if end == Reserved {
      end, trace := Admit(journal, key, owner, run, env.granted, env.auditReserved);
    }
    if end == Prepared {
      var result;
      result, trace := CallAndCatch(journal, key, owner, run, env.handler);
      end, trace := Settle(journal, key, owner, run, env.handler.Raises?, result, env.auditCompleted);
    }
  }

  /** Appends one action to a played trace. */
  lemma Extend(rows0: Journal, start: Invocation, trace: seq<Action>, call: Invocation, rows: Journal, a: Action)
    returns (trace': seq<Action>, call': Invocation)
    requires Play(rows0, start, trace) == (rows, call)
    ensures call' == CallAfter(rows, call, a)
    ensures Play(rows0, start, trace') == (RowsAfter(rows, call, a), call')
  {
    trace', call' := trace + [a], CallAfter(rows, call, a);
    PlaySnoc(rows0, start, trace, a);
  }
}
