/** What compaction keeps: the constraint events, the stop decision, and a trace of everything else. */
module GoalEventTheorems {
  import opened Values
  import opened GoalEvents

  /** The constraint rows of a table. */
  function Constraints(rows: Rows): Rows {
    map id | id in rows && IsConstraint(rows[id]) :: rows[id]
  }

  /** A listed event is as it was written, as far as it has not been deleted by retention. */
  predicate Known(w: World, e: GoalEvent, goal: string) {
    e.id in w.used && e.goal == goal && (e.id in w.written ==> e == w.written[e.id])
  }

  ghost predicate WrittenOk(w: World) {
    && (forall id :: id in w.written ==> w.written[id].id == id && id in w.used)
    && (forall id :: id in w.rows ==> id in w.written && w.rows[id] == w.written[id])
  }

  ghost predicate WaitingOk(w: World) {
    forall t, e :: t in w.waiting && e in w.waiting[t].events ==> Known(w, e, w.waiting[t].goal)
  }

  ghost predicate Inv(w: World) {
    WrittenOk(w) && WaitingOk(w) && Constraints(w.rows) == Constraints(w.written)
  }

  /** A compaction deletes no constraint row. */
  lemma FinishKeepsConstraints(w: World, e: Event)
    requires Inv(w) && e.Finish? && Possible(w, e)
    ensures Constraints(Step(w, e).rows) == Constraints(w.rows)
  {
    var c := w.waiting[e.task];
    var rows := Step(w, e).rows;
    forall x | x in c.events && !IsConstraint(x) && x.id in w.rows ensures !IsConstraint(w.rows[x.id]) {
      assert Known(w, x, c.goal);
    }
    assert forall i :: i in rows && IsConstraint(rows[i]) <==> i in w.rows && IsConstraint(w.rows[i]);
  }

  lemma ConstraintsPut(rows: Rows, e: GoalEvent)
    ensures Constraints(rows[e.id := e])
         == if IsConstraint(e) then Constraints(rows)[e.id := e] else Constraints(rows) - {e.id}
  {
  }

  /** What is known of an event stays known under fresh ids. */
  lemma KnownStays(w: World, e: Event, x: GoalEvent, goal: string)
    requires Known(w, x, goal)
    ensures Known(Step(w, e), x, goal)
  {
  }

  lemma AllKnownStay(w: World, e: Event)
    requires WaitingOk(w) && WrittenOk(w)
    ensures WaitingOk(Step(w, e))
  {
    var w' := Step(w, e);
    forall t, x | t in w'.waiting && x in w'.waiting[t].events
      ensures Known(w', x, w'.waiting[t].goal)
    {
      if t in w.waiting && w.waiting[t] == w'.waiting[t] {
        KnownStays(w, e, x, w.waiting[t].goal);
      } else {
        assert x == w.rows[x.id];
      }
    }
  }

  lemma WrittenStays(w: World, e: Event)
    requires WrittenOk(w)
    ensures WrittenOk(Step(w, e))
  {
  }

  lemma PurgeKeepsConstraints(rows: Rows, written: Rows, goal: string)
    requires Constraints(rows) == Constraints(written)
    ensures Constraints(Without(rows, goal)) == Constraints(Without(written, goal))
  {
    forall id
      ensures id in Constraints(Without(rows, goal)) <==> id in Constraints(Without(written, goal))
      ensures id in Constraints(Without(rows, goal)) ==>
                Constraints(Without(rows, goal))[id] == Constraints(Without(written, goal))[id]
    {
      assert id in Constraints(rows) <==> id in Constraints(written);
    }
  }

  lemma StepKeepsInv(w: World, e: Event)
    requires Inv(w)
    ensures Inv(Step(w, e))
  {
    AllKnownStay(w, e);
    WrittenStays(w, e);
    if Possible(w, e) {
      match e
      case Record(event) =>
        ConstraintsPut(w.rows, event);
        ConstraintsPut(w.written, event);
      case Begin(_, _, _, _) =>
      case Finish(task, id, summary, at) =>
        var c := w.waiting[task];
        FinishKeepsConstraints(w, e);
        ConstraintsPut(w.written, CompactionRecord(id, c.goal, summary, c.events, at));
      case Abort(_) =>
      case Purge(goal) => PurgeKeepsConstraints(w.rows, w.written, goal);
    }
  }

  lemma {:induction false} RunKeepsInv(es: seq<Event>)
    ensures Inv(Run(es))
  {
    if es != [] {
      RunKeepsInv(es[..|es| - 1]);
      StepKeepsInv(Run(es[..|es| - 1]), es[|es| - 1]);
    }
  }

  /**
   After any mix of recording, compacting and purging, the stored constraint events are those
   written and not deleted with their goal.
   */
  lemma ConstraintsSurvive(es: seq<Event>)
    ensures Constraints(Run(es).rows) == Constraints(Run(es).written)
  {
    RunKeepsInv(es);
  }

  /** A count over constraint resolutions reads the table as it would the whole history. */
  lemma CountUnchanged(es: seq<Event>, goal: string, eventType: Option<EventType>, resolutions: set<Resolution>)
    requires resolutions != {} && resolutions <= {Blocked, Failed}
    ensures CountEvents(Run(es).rows, goal, eventType, resolutions)
         == CountEvents(Run(es).written, goal, eventType, resolutions)
  {
    ConstraintsSurvive(es);
    MatchingConstraints(Run(es).rows, goal, eventType, resolutions);
    MatchingConstraints(Run(es).written, goal, eventType, resolutions);
  }

  lemma MatchingConstraints(rows: Rows, goal: string, eventType: Option<EventType>, resolutions: set<Resolution>)
    requires resolutions != {} && resolutions <= {Blocked, Failed}
    ensures Matching(rows, goal, eventType, resolutions) == Matching(Constraints(rows), goal, eventType, resolutions)
  {
  }

  /** The stop decision at any time is the one the whole uncompacted history would give. */
  lemma StopDecisionUnchanged(es: seq<Event>, goals: map<string, Goal>, id: string, now: real)
    ensures StopConditionFacts(goals, Run(es).rows, id, now) == StopConditionFacts(goals, Run(es).written, id, now)
  {
    CountUnchanged(es, id, Some(RunState), {Blocked, Failed});
  }

  // ----- what becomes of routine events -----

  /** From an event to a stored row of its goal, each hop a compaction that read the hop before it. */
  predicate Path(w: World, path: seq<string>, goal: string) {
    && path != []
    && path[|path| - 1] in w.rows
    && (forall k :: 0 <= k < |path| ==> path[k] in w.written && w.written[path[k]].goal == goal)
    && (forall k :: 0 < k < |path| ==> path[k] in w.sources && path[k - 1] in w.sources[path[k]])
  }

  ghost predicate Traced(w: World, id: string)
    requires id in w.written
  {
    exists path: seq<string> :: Path(w, path, w.written[id].goal) && path[0] == id
  }

  lemma PathStays(w: World, e: Event, path: seq<string>, goal: string) returns (path': seq<string>)
    requires Inv(w) && Path(w, path, goal) && e != Purge(goal)
    ensures Path(Step(w, e), path', goal) && path'[0] == path[0]
  {
    var last := path[|path| - 1];
    PathWritten(w, e, path, goal);
    if last in Step(w, e).rows {
      path' := path;
    } else {
      path' := path + [e.id];
      DeletedIsRead(w, e, last);
      RecordStays(w, e);
    }
  }

  /** Everything on a path but its end stays as it is. */
  lemma PathWritten(w: World, e: Event, path: seq<string>, goal: string)
    requires WrittenOk(w) && Path(w, path, goal) && e != Purge(goal)
    ensures var w' := Step(w, e);
            && (forall k :: 0 <= k < |path| ==> path[k] in w'.written && w'.written[path[k]].goal == goal)
            && (forall k :: 0 < k < |path| ==> path[k] in w'.sources && path[k - 1] in w'.sources[path[k]])
            && (path[|path| - 1] in w.rows)
  {
    forall k | 0 <= k < |path| ensures path[k] in Step(w, e).written && Step(w, e).written[path[k]].goal == goal {
      EntryStays(w, e, path[k], goal);
    }
    forall k | 0 < k < |path|
      ensures path[k] in Step(w, e).sources && path[k - 1] in Step(w, e).sources[path[k]]
    {
      EntryStays(w, e, path[k], goal);
    }
  }

  lemma EntryStays(w: World, e: Event, id: string, goal: string)
    requires WrittenOk(w) && id in w.written && w.written[id].goal == goal && e != Purge(goal)
    ensures id in Step(w, e).written && Step(w, e).written[id].goal == goal
    ensures id in w.sources ==> id in Step(w, e).sources && Step(w, e).sources[id] == w.sources[id]
  {
  }

  /** A row that goes without its goal was read by the compaction that deletes it. */
  lemma DeletedIsRead(w: World, e: Event, id: string)
    requires Inv(w) && id in w.rows && id !in Step(w, e).rows && e != Purge(w.rows[id].goal)
    ensures e.Finish? && Possible(w, e)
    ensures id in Ids(w.waiting[e.task].events) && w.waiting[e.task].goal == w.rows[id].goal
  {
    assert e.Finish? && Possible(w, e);
    var c := w.waiting[e.task];
    var x :| x in c.events && x.id == id;
    assert Known(w, x, c.goal);
  }

  /** The record a compaction inserts is not among the rows it deletes. */
  lemma RecordStays(w: World, e: Event)
    requires Inv(w) && e.Finish? && Possible(w, e)
    ensures e.id in Step(w, e).rows
  {
    forall x | x in w.waiting[e.task].events ensures x.id != e.id {
      assert Known(w, x, w.waiting[e.task].goal);
    }
  }

  lemma NewIsStored(w: World, e: Event, id: string)
    requires Inv(w) && id !in w.written && id in Step(w, e).written
    ensures Path(Step(w, e), [id], Step(w, e).written[id].goal)
  {
    if e.Finish? {
      RecordStays(w, e);
    }
  }

  /**
   No event is ever lost but with its whole goal: it is stored, or a chain of stored summaries
   leads back to it.
   */
  lemma {:induction false} EverythingIsTraced(es: seq<Event>, id: string)
    requires id in Run(es).written
    ensures Traced(Run(es), id)
  {
    assert es != [];
    var init, e := es[..|es| - 1], es[|es| - 1];
    RunKeepsInv(init);
    if id !in Run(init).written {
      NewIsStored(Run(init), e, id);
      assert [id][0] == id;
    } else {
      EverythingIsTraced(init, id);
      GoalStays(Run(init), e, id);
      var goal := Run(init).written[id].goal;
      var path: seq<string> :| Path(Run(init), path, goal) && path[0] == id;
      var path' := PathStays(Run(init), e, path, goal);
    }
  }

  lemma GoalStays(w: World, e: Event, id: string)
    requires WrittenOk(w) && id in w.written && id in Step(w, e).written
    ensures Step(w, e).written[id].goal == w.written[id].goal && e != Purge(w.written[id].goal)
  {
  }

  // ----- how far a compaction shrinks the log -----

  function RowsOf(rows: Rows, goal: string): set<string> {
    set id | id in rows && rows[id].goal == goal
  }

  predicate DistinctIds(events: seq<GoalEvent>) {
    forall i, j :: 0 <= i < j < |events| ==> events[i].id != events[j].id
  }

  lemma IdsSnoc(events: seq<GoalEvent>, e: GoalEvent)
    ensures Ids(events + [e]) == Ids(events) + {e.id}
  {
    assert forall x :: x in events + [e] <==> x in events || x == e;
  }

  /** The ids of the constraint events of a sequence. */
  function ConstraintIds(events: seq<GoalEvent>): set<string> {
    set e | e in events && IsConstraint(e) :: e.id
  }

  lemma ConstraintIdsSnoc(events: seq<GoalEvent>, e: GoalEvent)
    ensures ConstraintIds(events + [e]) == ConstraintIds(events) + if IsConstraint(e) then {e.id} else {}
  {
    assert forall x :: x in events + [e] <==> x in events || x == e;
  }

  lemma LastIsNew(events: seq<GoalEvent>)
    requires events != [] && DistinctIds(events)
    ensures events[|events| - 1].id !in Ids(events[..|events| - 1])
  {
    var last := |events| - 1;
    forall x | x in events[..last] ensures x.id != events[last].id {
      var i :| 0 <= i < last && events[i] == x;
      assert events[i].id != events[last].id;
    }
  }

  lemma DistinctNext(init: seq<GoalEvent>, last: GoalEvent, ids: set<string>, constraints: set<string>)
    requires ids == Ids(init) && constraints == ConstraintIds(init) && last.id !in ids
    requires |ids| == |init| && |constraints| == |ConstraintsOf(init)|
    ensures |Ids(init + [last])| == |init| + 1
    ensures |ConstraintIds(init + [last])| == |ConstraintsOf(init + [last])|
  {
    IdsSnoc(init, last);
    ConstraintIdsSnoc(init, last);
    assert (init + [last])[..|init|] == init;
    assert last.id !in constraints;
  }

  lemma {:induction false} DistinctCount(events: seq<GoalEvent>)
    requires DistinctIds(events)
    ensures |Ids(events)| == |events| && |ConstraintIds(events)| == |ConstraintsOf(events)|
  {
    if events != [] {
      var init, last := events[..|events| - 1], events[|events| - 1];
      DistinctCount(init);
      LastIsNew(events);
      assert events == init + [last];
      DistinctNext(init, last, Ids(init), ConstraintIds(init));
    }
  }

  lemma {:induction false} KeptOrDeleted(events: seq<GoalEvent>)
    requires DistinctIds(events)
    ensures Ids(events) - Deletable(events) == ConstraintIds(events)
  {
    forall x, y | x in events && y in events && x.id == y.id ensures x == y {
      var i, j :| 0 <= i < |events| && 0 <= j < |events| && events[i] == x && events[j] == y;
    }
  }

  lemma ListedIds(rows: Rows, goal: string, events: seq<GoalEvent>)
    requires Lists(rows, goal, events) && forall id :: id in rows ==> rows[id].id == id
    ensures Ids(events) == RowsOf(rows, goal) && DistinctIds(events)
  {
    forall id | id in RowsOf(rows, goal) ensures id in Ids(events) {
      assert rows[id] in events;
    }
  }

  lemma RowsAfterFinish(rows: Rows, record: GoalEvent, events: seq<GoalEvent>)
    requires record.id !in Ids(events)
    requires Ids(events) == RowsOf(rows, record.goal)
    ensures RowsOf(FinishedRows(rows, record, events), record.goal)
         == (Ids(events) - Deletable(events)) + {record.id}
  {
    forall e | e in events ensures e.id in Ids(events) {
    }
    assert Deletable(events) <= Ids(events);
  }

  /** A compaction that nothing raced leaves the constraint events and one record. */
  lemma CompactedLength(rows: Rows, record: GoalEvent, events: seq<GoalEvent>, later: seq<GoalEvent>)
    requires forall id :: id in rows ==> rows[id].id == id
    requires record.id !in rows
    requires Lists(rows, record.goal, events)
    requires Lists(FinishedRows(rows, record, events), record.goal, later)
    ensures |later| == |ConstraintsOf(events)| + 1
  {
    ListedIds(rows, record.goal, events);
    ListedIds(FinishedRows(rows, record, events), record.goal, later);
    DistinctCount(events);
    DistinctCount(later);
    KeptOrDeleted(events);
    RowsAfterFinish(rows, record, events);
  }

  /** The next compaction leaves the log alone if and only if fewer constraint events than the threshold were kept. */
  lemma NextIsANoOpIff(w: World, task: nat, id: string, summary: string, at: real, later: seq<GoalEvent>,
                       next: nat, threshold: int)
    requires Inv(w) && Possible(w, Finish(task, id, summary, at))
    requires Lists(w.rows, w.waiting[task].goal, w.waiting[task].events)
    requires Possible(Step(w, Finish(task, id, summary, at)), Begin(next, w.waiting[task].goal, later, threshold))
    ensures var w' := Step(w, Finish(task, id, summary, at));
      Step(w', Begin(next, w.waiting[task].goal, later, threshold)) == w'
      <==> |ConstraintsOf(w.waiting[task].events)| < threshold
  {
    var c := w.waiting[task];
    CompactedLength(w.rows, CompactionRecord(id, c.goal, summary, c.events, at), c.events, later);
  }
}
