/**
 The event log of goals (`goals.py`): recording, compaction, counting and the stop decision.
 A compaction reads the log, waits for a model to summarise it, and only then writes; other
 writers run in between, so its two halves are separate steps. Retention (`retention.py`) may
 delete the events of a whole goal at any time.
 */
module GoalEvents {
  import opened Values

  datatype Governance = Ungoverned | AwaitingApproval | Approved | Rejected

  datatype Resolution = Unresolved | Success | Failed | Canceled | Blocked

  datatype Phase = Pending | Running | Paused | Ended

  /** The kinds of event the modelled code tells apart. */
  datatype EventType = RunState | Compaction | Named(name: string)

  /** The evidence of an event: facts, or a summary with the constraint events copied verbatim. */
  datatype Evidence = Facts(text: string) | Compacted(summary: string, preserved: seq<GoalEvent>)

  datatype GoalEvent = GoalEvent(
    id: string,
    goal: string,
    eventType: EventType,
    phase: Phase,
    governance: Governance,
    resolution: Resolution,
    evidence: Evidence,
    createdAt: real)

  type Rows = map<string, GoalEvent>

  /** `_is_constraint_event` */
  predicate IsConstraint(e: GoalEvent) {
    e.governance == AwaitingApproval || e.resolution in {Blocked, Failed}
  }

  /** The constraint events of a sequence, in order. */
  function ConstraintsOf(events: seq<GoalEvent>): (kept: seq<GoalEvent>)
    ensures forall e :: e in kept <==> e in events && IsConstraint(e)
  {
    if events == [] then []
    else
      var last := events[|events| - 1];
      ConstraintsOf(events[..|events| - 1]) + if IsConstraint(last) then [last] else []
  }

  /** What `list_events` may return without a limit: each row of the goal once, oldest first. */
  predicate Lists(rows: Rows, goal: string, events: seq<GoalEvent>) {
    && (forall i :: 0 <= i < |events| ==>
          events[i].goal == goal && events[i].id in rows && rows[events[i].id] == events[i])
    && (forall i, j :: 0 <= i < j < |events| ==> events[i].id != events[j].id)
    && (forall i, j :: 0 <= i < j < |events| ==> events[i].createdAt <= events[j].createdAt)
    && (forall id :: id in rows && rows[id].goal == goal ==> rows[id] in events)
  }

  function CompactionRecord(id: string, goal: string, summary: string, events: seq<GoalEvent>, now: real): GoalEvent {
    GoalEvent(id, goal, Compaction, Running, Ungoverned, Unresolved,
              Compacted(summary, ConstraintsOf(events)), now)
  }

  /** The ids `compact_events` deletes: the routine events it read. */
  function Deletable(events: seq<GoalEvent>): set<string> {
    set e | e in events && !IsConstraint(e) :: e.id
  }

  lemma DeletableSnoc(events: seq<GoalEvent>, e: GoalEvent)
    ensures Deletable(events + [e]) == Deletable(events) + if IsConstraint(e) then {} else {e.id}
  {
    assert forall x :: x in events + [e] <==> x in events || x == e;
  }

  /** The second half of `compact_events`, in one transaction. */
  function FinishedRows(rows: Rows, record: GoalEvent, events: seq<GoalEvent>): Rows {
    rows[record.id := record] - Deletable(events)
  }

  /** `count_events` */
  function Matching(rows: Rows, goal: string, eventType: Option<EventType>, resolutions: set<Resolution>): set<string> {
    set id | id in rows && rows[id].goal == goal
             && (eventType.None? || rows[id].eventType == eventType.value)
             && (resolutions == {} || rows[id].resolution in resolutions)
  }

  function CountEvents(rows: Rows, goal: string, eventType: Option<EventType>, resolutions: set<Resolution>): nat {
    |Matching(rows, goal, eventType, resolutions)|
  }

  datatype Goal = Goal(id: string, phase: Phase, createdAt: real, timeout: real, maxRetries: int)

  datatype StopFacts = KeepGoing | TimeoutReached(age: real, timeout: real)
      | RetryCeiling(retries: nat, maxRetries: int)

  /** `stop_condition_facts`; the ages are shown truncated, which is not part of the decision. */
  function StopConditionFacts(goals: map<string, Goal>, rows: Rows, id: string, now: real): StopFacts {
    if id !in goals || goals[id].phase != Running then KeepGoing
    else
      var goal := goals[id];
      var age := now - goal.createdAt;
      if goal.timeout > 0.0 && age >= goal.timeout then TimeoutReached(age, goal.timeout)
      else if goal.maxRetries > 0 then
        var retries := CountEvents(rows, id, Some(RunState), {Blocked, Failed});
        if retries >= goal.maxRetries then RetryCeiling(retries, goal.maxRetries) else KeepGoing
      else KeepGoing
  }

  // ----- whole runs -----

  /** A compaction waiting for its summary. */
  datatype Waiting = Waiting(goal: string, events: seq<GoalEvent>)

  /**
   The table; every event written and not deleted by retention since, compaction records
   included; the ids ever used; the compactions under way; and for each compaction record the
   ids of the events its summary was made from.
   */
  datatype World = World(
    rows: Rows,
    written: Rows,
    used: set<string>,
    waiting: map<nat, Waiting>,
    sources: map<string, set<string>>)

  datatype Event =
    | Record(event: GoalEvent)
    | Begin(task: nat, goal: string, events: seq<GoalEvent>, threshold: int)
    | Finish(task: nat, id: string, summary: string, at: real)
    | Abort(task: nat)
    | Purge(goal: string)

  const START := World(map[], map[], {}, map[], map[])

  function Ids(events: seq<GoalEvent>): set<string> {
    set e | e in events :: e.id
  }

  /** What retention leaves once it has deleted the events of a goal. */
  function Without(rows: Rows, goal: string): Rows {
    map id | id in rows && rows[id].goal != goal :: rows[id]
  }

  /** An event as the callers of the store make it: new rows have fresh ids. */
  predicate Possible(w: World, e: Event) {
    match e
    case Record(event) => event.id !in w.used
    case Begin(task, goal, events, _) => task !in w.waiting && Lists(w.rows, goal, events)
    case Finish(task, id, _, _) => task in w.waiting && id !in w.used
    case Abort(task) => task in w.waiting
    case Purge(_) => true
  }

  /** One step; an impossible event changes nothing. */
  function Step(w: World, e: Event): World {
    if !Possible(w, e) then w
    else
      match e
      case Record(event) =>
        w.(rows := w.rows[event.id := event], written := w.written[event.id := event], used := w.used + {event.id})
      case Begin(task, goal, events, threshold) =>
        if |events| <= threshold then w else w.(waiting := w.waiting[task := Waiting(goal, events)])
      case Finish(task, id, summary, at) =>
        var c := w.waiting[task];
        var record := CompactionRecord(id, c.goal, summary, c.events, at);
        World(FinishedRows(w.rows, record, c.events), w.written[id := record], w.used + {id}, w.waiting - {task},
              w.sources[id := Ids(c.events)])
      case Abort(task) => w.(waiting := w.waiting - {task})
      case Purge(goal) => w.(rows := Without(w.rows, goal), written := Without(w.written, goal))
  }

  function Run(es: seq<Event>): World {
    if es == [] then START else Step(Run(es[..|es| - 1]), es[|es| - 1])
  }

  // ----- the store -----

  class GoalStore {
    var rows: Rows
    var goals: map<string, Goal>

    constructor ()
      ensures rows == map[] && goals == map[]
    {
      rows := map[];
      goals := map[];
    }

    method RecordEvent(event: GoalEvent) returns (result: Result<GoalEvent>)
      modifies this`rows
      ensures event.id in old(rows) ==> result == Raised(RuntimeError) && rows == old(rows)
      ensures event.id !in old(rows) ==> result == Ok(event) && rows == old(rows)[event.id := event]
    {
      if event.id in rows { return Raised(RuntimeError); }
      rows := rows[event.id := event];
      return Ok(event);
    }

    /** `compact_events` up to the call of the model: nothing is written, and a short log is left alone. */
    method BeginCompact(goal: string, events: seq<GoalEvent>, threshold: int) returns (waiting: Option<Waiting>)
      requires Lists(rows, goal, events)
      ensures waiting == if |events| <= threshold then None else Some(Waiting(goal, events))
    {
      if |events| <= threshold { return None; }
      return Some(Waiting(goal, events));
    }

    /** `compact_events` after the call: one record in, the routine events read before out, one by one. */
    method FinishCompact(waiting: Waiting, id: string, summary: string, now: real) returns (result: Result<bool>)
      modifies this`rows
      ensures id in old(rows) ==> result == Raised(RuntimeError) && rows == old(rows)
      ensures id !in old(rows) ==>
                result == Ok(true)
                && rows == FinishedRows(old(rows), CompactionRecord(id, waiting.goal, summary, waiting.events, now),
                                        waiting.events)
    {
      var preserved, deletable := Partition(waiting.events);
      var record := GoalEvent(id, waiting.goal, Compaction, Running, Ungoverned, Unresolved,
                              Compacted(summary, preserved), now);
      if id in rows { return Raised(RuntimeError); }
      rows := rows[id := record];
      DeleteEach(deletable);
      return Ok(true);
    }

    /** The events copied into the record, and the ids to delete. */
    method Partition(events: seq<GoalEvent>) returns (preserved: seq<GoalEvent>, deletable: seq<string>)
      ensures preserved == ConstraintsOf(events)
      ensures (set id | id in deletable) == Deletable(events)
    {
      preserved, deletable := [], [];
      for k := 0 to |events|
        invariant preserved == ConstraintsOf(events[..k])
        invariant (set id | id in deletable) == Deletable(events[..k])
      {
        assert events[..k + 1] == events[..k] + [events[k]];
        DeletableSnoc(events[..k], events[k]);
        if IsConstraint(events[k]) {
          preserved := preserved + [events[k]];
        } else {
          deletable := deletable + [events[k].id];
        }
      }
      assert events[..|events|] == events;
    }

    method DeleteEach(ids: seq<string>)
      modifies this`rows
      ensures rows == old(rows) - (set id | id in ids)
    {
      for k := 0 to |ids|
        invariant rows == old(rows) - (set id | id in ids[..k])
      {
        rows := rows - {ids[k]};
      }
      assert ids[..|ids|] == ids;
    }

    /** The DELETE of retention, for all events of one goal. */
    method DeleteGoal(goal: string)
      modifies this`rows
      ensures rows == Without(old(rows), goal)
      ensures forall id :: id in old(rows) ==> (id in rows <==> old(rows)[id].goal != goal)
    {
      rows := map id | id in rows && rows[id].goal != goal :: rows[id];
    }

    method StopFactsNow(id: string, now: real) returns (facts: StopFacts)
      ensures facts == StopConditionFacts(goals, rows, id, now)
    {
      if id !in goals { return KeepGoing; }
      var goal := goals[id];
      if goal.phase != Running { return KeepGoing; }
      if goal.timeout > 0.0 {
        var age := now - goal.createdAt;
        if age >= goal.timeout { return TimeoutReached(age, goal.timeout); }
      }
      if goal.maxRetries > 0 {
        var retries := CountEvents(rows, id, Some(RunState), {Blocked, Failed});
        if retries >= goal.maxRetries { return RetryCeiling(retries, goal.maxRetries); }
      }
      return KeepGoing;
    }
  }
}
