/**
 The effect journal (`effect_journal.py`) and the invocation protocol that uses it
 (`CapabilityRegistry.invoke` in `capabilities.py`, from reservation to completion).

 Retention (`retention.py`) may delete the rows of a loop run at any time.

 The first half gives the journal operations as functions on the `loop_effects` table, the
 second half the protocol as a step machine in which any number of invocations interleave
 and each may crash between any two of its steps.
 */
module Effects {
  import opened Values

  /** The status column. `Foreign` is any text the journal itself never writes. */
  datatype Status = Active | Completed | Uncertain | Foreign(text: string)

  /** A row; `run` is the loop run it was inserted for. */
  datatype Effect = Effect(status: Status, owner: string, run: string, expiresAt: real, result: Json)

  type Journal = map<string, Effect>

  datatype Reservation = Acquired | Replay(result: Json) | Busy | Unsettled

  function ReserveOutcome(rows: Journal, key: string, now: real): Reservation {
    if key !in rows then Acquired
    else
      match rows[key].status
      case Completed => Replay(rows[key].result)
      case Uncertain => Unsettled
      case Active => if rows[key].expiresAt > now then Busy else Unsettled
      case Foreign(_) => Acquired
  }

  function ReserveRows(rows: Journal, key: string, owner: string, run: string, lease: real, now: real): Journal {
    if key !in rows then rows[key := Effect(Active, owner, run, now + lease, Null)]
    else
      match rows[key].status
      case Completed => rows
      case Uncertain => rows
      case Active =>
        if rows[key].expiresAt > now then rows
        else rows[key := rows[key].(status := Uncertain, expiresAt := 0.0)]
      case Foreign(_) =>
        rows[key := rows[key].(status := Active, owner := owner, expiresAt := now + lease, result := Null)]
  }

  /** `WHERE effect_key = ? AND owner = ? AND status = 'active'` */
  predicate Owns(rows: Journal, key: string, owner: string) {
    key in rows && rows[key].owner == owner && rows[key].status == Active
  }

  function CompleteRows(rows: Journal, key: string, owner: string, result: Json): Journal {
    if Owns(rows, key, owner) then rows[key := rows[key].(status := Completed, expiresAt := 0.0, result := result)]
        else rows
  }

  function FailRows(rows: Journal, key: string, owner: string): Journal {
    if Owns(rows, key, owner) then rows[key := rows[key].(status := Uncertain, expiresAt := 0.0)] else rows
  }

  function AbandonRows(rows: Journal, key: string, owner: string): Journal {
    if Owns(rows, key, owner) then rows - {key} else rows
  }

  /** What retention leaves once it has deleted the rows of a run. */
  function PurgeRows(rows: Journal, run: string): Journal {
    map k | k in rows && rows[k].run != run :: rows[k]
  }

  /** Where an invocation stands. */
  datatype Pc =
    | Start                       // before the reservation
    | Reserved                    // reservation acquired
    | Granted                     // resource grant obtained
    | Abandoning                  // grant or audit refused, reservation to be released
    | Prepared                    // audit reserved, handler not yet called
    | InHandler
    | HandlerRaised(result: Json) // exception caught, `fail` still to run
    | Finished(result: Json)      // handler outcome known, audit completion to run
    | AuditFailed                 // audit completion raised, `fail` still to run
    | Settled(result: Json)       // `complete` still to run
    | Returned(result: Json)      // completed the effect itself
    | Replayed(result: Json)      // returned the stored result
    | Refused                     // returned an error result without completing
    | Died                        // crashed, or `complete` raised

  /** `started` and `raised` record whether the handler was called and whether it raised. */
  datatype Invocation = Invocation(key: string, owner: string, run: string, pc: Pc, started: bool, raised: bool)

  datatype System = System(rows: Journal, calls: map<nat, Invocation>)

  datatype Action =
    | Reserve(lease: real, now: real)
    | Grant(allowed: bool)
    | AuditReserve(ok: bool)
    | Abandon
    | CallHandler
    | HandlerReturns(result: Json)
    | HandlerRaises(result: Json)
    | Fail
    | AuditComplete(ok: bool)
    | Complete
    | Crash

  datatype Event =
    | Enter(i: nat, key: string, owner: string, run: string)
    | Act(i: nat, action: Action)
    | Purge(run: string)

  /** The journal after an action of an invocation at `c`; an action not enabled there does nothing. */
  function RowsAfter(rows: Journal, c: Invocation, a: Action): Journal {
    match (a, c.pc)
    case (Reserve(lease, now), Start) => ReserveRows(rows, c.key, c.owner, c.run, lease, now)
    case (Abandon, Abandoning) => AbandonRows(rows, c.key, c.owner)
    case (Fail, HandlerRaised(_)) => FailRows(rows, c.key, c.owner)
    case (Fail, AuditFailed) => FailRows(rows, c.key, c.owner)
    case (Complete, Settled(result)) => CompleteRows(rows, c.key, c.owner, result)
    case _ => rows
  }

  function PcAfter(rows: Journal, c: Invocation, a: Action): Pc {
    match (a, c.pc)
    case (Reserve(_, now), Start) =>
      (match ReserveOutcome(rows, c.key, now)
       case Acquired => Reserved
       case Replay(result) => Replayed(result)
       case Busy => Refused
       case Unsettled => Refused)
    case (Grant(allowed), Reserved) => if allowed then Granted else Abandoning
    case (AuditReserve(ok), Granted) => if ok then Prepared else Abandoning
    case (Abandon, Abandoning) => Refused
    case (CallHandler, Prepared) => InHandler
    case (HandlerReturns(result), InHandler) => Finished(result)
    case (HandlerRaises(result), InHandler) => HandlerRaised(result)
    case (Fail, HandlerRaised(result)) => Finished(result)
    case (AuditComplete(ok), Finished(result)) => if ok then Settled(result) else AuditFailed
    case (Fail, AuditFailed) => Refused
    case (Complete, Settled(result)) => if Owns(rows, c.key, c.owner) then Returned(result) else Died
    case (Crash, _) => if Ended(c.pc) then c.pc else Died
    case _ => c.pc
  }

  predicate Ended(pc: Pc) {
    pc.Returned? || pc.Replayed? || pc.Refused? || pc.Died?
  }

  function CallAfter(rows: Journal, c: Invocation, a: Action): Invocation {
    c.(pc := PcAfter(rows, c, a), started := c.started || (a.CallHandler? && c.pc == Prepared),
       raised := c.raised || (a.HandlerRaises? && c.pc == InHandler))
  }

  /** One event. Owners are fresh uuids, so an `Enter` that reuses a number or an owner does not happen. */
  ghost function Step(s: System, e: Event): System {
    match e
    case Enter(i, key, owner, run) =>
      if i in s.calls || (exists j :: j in s.calls && s.calls[j].owner == owner) then s
      else s.(calls := s.calls[i := Invocation(key, owner, run, Start, false, false)])
    case Act(i, a) =>
      if i !in s.calls then s
      else System(RowsAfter(s.rows, s.calls[i], a), s.calls[i := CallAfter(s.rows, s.calls[i], a)])
    case Purge(run) => s.(rows := PurgeRows(s.rows, run))
  }

  ghost function Run(s: System, es: seq<Event>): System {
    if es == [] then s else Step(Run(s, es[..|es| - 1]), es[|es| - 1])
  }

  function Initial(): System {
    System(map[], map[])
  }
}
