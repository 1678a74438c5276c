/**
 `DeliveryOutboxStore` in place on its table and the worker loop of `DeliveryCoordinator.drain`.
 A parameter named `selected` or `rows` is the result of the method's own SELECT.
 */
module OutboxStore {
  import opened Values
  import opened Outbox

  /** What `SELECT ... WHERE eligible ORDER BY precedes LIMIT limit` may return. */
  ghost predicate Chosen(t: Table, eligible: Item -> bool, precedes: (Item, Item) -> bool, limit: nat,
                         selected: seq<string>)
  {
    && (forall k :: 0 <= k < |selected| ==> selected[k] in t && eligible(t[selected[k]]))
    && (forall i, j :: 0 <= i < j < |selected| ==>
          selected[i] != selected[j] && precedes(t[selected[i]], t[selected[j]]))
    && |selected| <= limit
    && (forall id :: id in t && eligible(t[id]) && id !in selected ==>
          |selected| == limit && forall k :: 0 <= k < |selected| ==> precedes(t[selected[k]], t[id]))
  }

  /** A claimable item of the channel, at least as urgent as asked for. */
  predicate Ready(item: Item, channel: string, minimum: Option<int>, now: real) {
    CanClaim(item, channel, now) && (minimum.Some? ==> item.content.priority >= minimum.value)
  }

  /** Higher priority first, then older first. */
  predicate Precedes(a: Item, b: Item) {
    a.content.priority > b.content.priority
    || (a.content.priority == b.content.priority && a.content.createdAt <= b.content.createdAt)
  }

  predicate StalerThan(a: Item, b: Item) {
    a.updatedAt <= b.updatedAt
  }

  /** The items of one batch, in row order. */
  function GroupOf(rows: seq<(string, Item)>, batchId: string): seq<Item> {
    if rows == [] then []
    else
      var last := rows[|rows| - 1].1;
      var before := GroupOf(rows[..|rows| - 1], batchId);
      if last.content.batchId == batchId then before + [last] else before
  }

  lemma {:induction false} GroupHolds(rows: seq<(string, Item)>, batchId: string)
    ensures forall item :: item in GroupOf(rows, batchId) <==>
              exists i :: 0 <= i < |rows| && rows[i].1 == item && item.content.batchId == batchId
  {
    if rows != [] {
      var before := rows[..|rows| - 1];
      GroupHolds(before, batchId);
      forall item
        ensures item in GroupOf(rows, batchId) <==>
                  exists i :: 0 <= i < |rows| && rows[i].1 == item && item.content.batchId == batchId
      {
        if item in GroupOf(before, batchId) {
          var i :| 0 <= i < |before| && before[i].1 == item && item.content.batchId == batchId;
          assert rows[i].1 == item;
        }
        if exists i :: 0 <= i < |rows| && rows[i].1 == item && item.content.batchId == batchId {
          var i :| 0 <= i < |rows| && rows[i].1 == item && item.content.batchId == batchId;
          assert i < |before| ==> before[i].1 == item;
        }
      }
    }
  }

  /** Every item is sent and none is projected. */
  predicate Settled(batch: seq<Item>) {
    forall i :: 0 <= i < |batch| ==> batch[i].projectedAt <= 0.0 && batch[i].status == Sent
  }

  /** The rows of a channel, each once. */
  ghost predicate ChannelRows(t: Table, channel: string, rows: seq<(string, Item)>) {
    && (forall i :: 0 <= i < |rows| ==>
          rows[i].0 in t && t[rows[i].0] == rows[i].1 && rows[i].1.content.channel == channel)
    && (forall id :: id in t && t[id].content.channel == channel ==> (id, t[id]) in rows)
  }

  class DeliveryOutboxStore {
    var items: Table

    constructor ()
      ensures items == Initial().table
    {
      items := map[];
    }

    method Enqueue(env: Envelope, now: real) returns (r: Result<()>)
      modifies this
      ensures match Enqueued(old(items), env, now)
              case Ok(t) => r.Ok? && items == t
              case Raised(e) => r == Raised(e) && items == old(items)
    {
      var news := Items(env, now);
      if news == [] { return Ok(()); }
      if env.channel == "" || env.peerId == "" { return Raised(ValueError); }
      ItemsOnce(env, now);
      var draft := InsertItems(items, news);
      if draft.Raised? { return Raised(draft.error); }
      items := draft.value;
      return Ok(());
    }

    /** The row loop of `enqueue` in its transaction, which a conflict rolls back. */
    method InsertItems(stored: Table, news: seq<(string, Item)>) returns (r: Result<Table>)
      requires KeysOnce(news)
      ensures r == if Conflicts(stored, news) then Raised(RuntimeError) else Ok(InsertAll(stored, news))
    {
      var draft := stored;
      for k := 0 to |news|
        invariant forall i :: 0 <= i < k ==> !Clashes(stored, news[i])
        invariant draft == InsertAll(stored, news[..k])
      {
        var (id, item) := news[k];
        InsertNext(stored, news, k, draft);
        if id !in draft {
          draft := draft[id := item];
        }
        if !SameRequest(draft[id].content, item.content) {
          assert Clashes(stored, news[k]);
          return Raised(RuntimeError);
        }
      }
      assert news[..|news|] == news;
      assert !Conflicts(stored, news);
      return Ok(draft);
    }

    method ClaimReady(selected: seq<string>, channel: string, limit: int, minimum: Option<int>, now: real)
      returns (claimed: seq<Item>)
      requires Chosen(items, (item: Item) => Ready(item, channel, minimum, now), Precedes, AtLeastOne(limit), selected)
      modifies this
      ensures items.Keys == old(items).Keys
      ensures forall id :: id in items ==>
                items[id] == if id in selected then Claimed(old(items)[id], now) else old(items)[id]
      ensures |claimed| == |selected| && forall i :: 0 <= i < |selected| ==> claimed[i] == items[selected[i]]
    {
      claimed := ClaimRows(selected, channel, now);
    }

    /** The SELECT of a claim of one item. */
    method FirstReady(channel: string, minimum: Option<int>, now: real) returns (pick: Option<string>)
      ensures MayPick(items, channel, minimum, now, pick)
    {
      pick := None;
      var rest := items.Keys;
      while rest != {}
        invariant rest <= items.Keys
        invariant pick.Some? ==> pick.value in items && Ready(items[pick.value], channel, minimum, now)
        invariant forall id :: id in items && id !in rest && Ready(items[id], channel, minimum, now) ==>
                    pick.Some? && Precedes(items[pick.value], items[id])
        decreases |rest|
      {
        var id :| id in rest;
        rest := rest - {id};
        if Ready(items[id], channel, minimum, now) && (pick.None? || !Precedes(items[pick.value], items[id])) {
          pick := Some(id);
        }
      }
    }

    /** The row loop of `claim_ready`. */
    method ClaimRows(selected: seq<string>, channel: string, now: real) returns (claimed: seq<Item>)
      requires forall i :: 0 <= i < |selected| ==> selected[i] in items && CanClaim(items[selected[i]], channel, now)
      requires forall i, j :: 0 <= i < j < |selected| ==> selected[i] != selected[j]
      modifies this
      ensures items.Keys == old(items).Keys
      ensures forall id :: id in items ==>
                items[id] == if id in selected then Claimed(old(items)[id], now) else old(items)[id]
      ensures |claimed| == |selected| && forall i :: 0 <= i < |selected| ==> claimed[i] == items[selected[i]]
    {
      claimed := [];
      for k := 0 to |selected|
        invariant items.Keys == old(items).Keys
        invariant forall id :: id in items ==>
                    items[id] == if id in selected[..k] then Claimed(old(items)[id], now) else old(items)[id]
        invariant |claimed| == k && forall i :: 0 <= i < k ==> claimed[i] == items[selected[i]]
      {
        var item := items[selected[k]];
        if item.status == Pending && item.nextAttemptAt <= now {
          items := items[selected[k] := item.(status := Sending, attempts := item.attempts + 1, updatedAt := now)];
          claimed := claimed + [items[selected[k]]];
        }
      }
      assert selected[..|selected|] == selected;
    }

    method MarkSent(id: string, now: real)
      modifies this
      ensures items == Outbox.MarkSent(old(items), id, now)
    {
      if id in items && (items[id].status == Pending || items[id].status == Sending) {
        items := items[id := items[id].(status := Sent, updatedAt := now)];
      }
    }

    method ScheduleRetry(id: string, delay: real, now: real)
      modifies this
      ensures items == Outbox.ScheduleRetry(old(items), id, delay, now)
    {
      if id in items && items[id].status == Sending {
        items := items[id := items[id].(status := Pending, nextAttemptAt := now + Max(0.0, delay), updatedAt := now)];
      }
    }

    method MarkFailed(id: string, now: real)
      modifies this
      ensures items == Outbox.MarkFailed(old(items), id, now)
    {
      if id in items && (items[id].status == Pending || items[id].status == Sending) {
        items := items[id := items[id].(status := Failed, updatedAt := now)];
      }
    }

    /** The read and the checks of `requeue_failed`. */
    method BeginRequeue(id: string, now: real) returns (r: Result<Item>)
      ensures id !in items ==> r == Raised(KeyError)
      ensures id in items ==>
                r == if items[id].status == Failed && !Expired(items[id].content, now) then Ok(items[id])
                     else Raised(ValueError)
    {
      if id !in items { return Raised(KeyError); }
      var item := items[id];
      if item.status != Failed { return Raised(ValueError); }
      if Expired(item.content, now) { return Raised(ValueError); }
      return Ok(item);
    }

    /**
     The guarded UPDATE of `requeue_failed`, which repeats the status check alone. The deadline
     was checked on the item read earlier and never changes.
     */
    method CommitRequeue(id: string, read: Item, now: real) returns (r: Result<Item>)
      requires read.status == Failed && !Expired(read.content, now)
      requires id in items ==> items[id].content == read.content
      modifies this
      ensures items == Requeue(old(items), id, now)
      ensures CanRequeue(old(items), id, now) ==> id in items && r == Ok(items[id])
      ensures !CanRequeue(old(items), id, now) ==> r == Raised(RuntimeError)
    {
      if id !in items || items[id].status != Failed { return Raised(RuntimeError); }
      items := items[id := items[id].(status := Pending, attempts := 0, nextAttemptAt := now, updatedAt := now,
                                      projectedAt := 0.0)];
      return Ok(items[id]);
    }

    method RecoverStaleSending(selected: seq<string>, channel: string, limit: int, cutoff: real, now: real)
      returns (recovered: seq<Item>)
      requires Chosen(items, (item: Item) => Stale(item, channel, cutoff), StalerThan, AtLeastOne(limit), selected)
      modifies this
      ensures items == RecoverStale(old(items), selected, channel, cutoff, now)
      ensures |recovered| == |selected|
      ensures forall i :: 0 <= i < |selected| ==> selected[i] in items && recovered[i] == items[selected[i]]
    {
      recovered := RecoverRows(selected, channel, cutoff, now);
      assert items == RecoverStale(old(items), selected, channel, cutoff, now);
    }

    /** The row loop of `recover_stale_sending`. */
    method RecoverRows(selected: seq<string>, channel: string, cutoff: real, now: real) returns (recovered: seq<Item>)
      requires forall i :: 0 <= i < |selected| ==> selected[i] in items && Stale(items[selected[i]], channel, cutoff)
      requires forall i, j :: 0 <= i < j < |selected| ==> selected[i] != selected[j]
      modifies this
      ensures items.Keys == old(items).Keys
      ensures forall id :: id in items ==> items[id] == if id in selected then Recovered(old(items)[id], now)
          else old(items)[id]
      ensures |recovered| == |selected| && forall i :: 0 <= i < |selected| ==> recovered[i] == items[selected[i]]
    {
      recovered := [];
      for k := 0 to |selected|
        invariant items.Keys == old(items).Keys
        invariant forall id :: id in items ==>
                    items[id] == if id in selected[..k] then Recovered(old(items)[id], now) else old(items)[id]
        invariant |recovered| == k && forall i :: 0 <= i < k ==> recovered[i] == items[selected[i]]
      {
        var item := items[selected[k]];
        if item.status == Sending && item.updatedAt <= cutoff {
          items := items[selected[k] := item.(status := Pending, nextAttemptAt := now, updatedAt := now)];
          recovered := recovered + [items[selected[k]]];
        }
      }
      assert selected[..|selected|] == selected;
    }

    method MarkBatchProjected(batchId: string, at: real)
      modifies this
      ensures items == MarkProjected(old(items), batchId, at)
    {
      items := map id | id in items ::
        if items[id].content.batchId == batchId && items[id].projectedAt == 0.0
        then items[id].(projectedAt := at)
        else items[id];
    }

    /**
     Groups the rows of the channel by batch and hands out the batches that are entirely sent
     and not yet projected: only such batches, each once with exactly its items, and all of
     them unless the limit cut the list short.
     */
    method CompleteUnprojectedBatches(rows: seq<(string, Item)>, channel: string, limit: int)
      returns (completed: seq<(string, seq<Item>)>)
      requires ChannelRows(items, channel, rows)
      ensures forall i :: 0 <= i < |completed| ==>
                HandedOut(items, channel, completed[i].0) && completed[i].1 == GroupOf(rows, completed[i].0)
      ensures forall i, j :: 0 <= i < j < |completed| ==> completed[i].0 != completed[j].0
      ensures |completed| <= AtLeastOne(limit)
      ensures |completed| < AtLeastOne(limit) ==>
                forall b :: HandedOut(items, channel, b) ==> (b, GroupOf(rows, b)) in completed
    {
      var grouped, order := GroupRows(rows);
      completed := SelectSettled(grouped, order, limit);
      forall b | b in order
        ensures HandedOut(items, channel, b) <==> Settled(grouped[b])
      {
        BatchVerdict(items, channel, rows, b);
      }
      forall b | HandedOut(items, channel, b)
        ensures b in order
      {
        var id :| id in items && InBatch(items[id], channel, b);
        var i :| 0 <= i < |rows| && rows[i] == (id, items[id]);
      }
    }

    /** The loop over the groups, in order, up to the limit. */
    method SelectSettled(grouped: map<string, seq<Item>>, order: seq<string>, limit: int)
      returns (completed: seq<(string, seq<Item>)>)
      requires forall i, j :: 0 <= i < j < |order| ==> order[i] != order[j]
      requires forall b :: b in order ==> b in grouped
      ensures forall i :: 0 <= i < |completed| ==>
                completed[i].0 in order && completed[i].1 == grouped[completed[i].0] && Settled(completed[i].1)
      ensures forall i, j :: 0 <= i < j < |completed| ==> completed[i].0 != completed[j].0
      ensures |completed| <= AtLeastOne(limit)
      ensures |completed| < AtLeastOne(limit) ==>
                forall b :: b in order && Settled(grouped[b]) ==> (b, grouped[b]) in completed
    {
      completed := [];
      for k := 0 to |order|
        invariant forall i :: 0 <= i < |completed| ==>
                    completed[i].0 in order[..k] && completed[i].1 == grouped[completed[i].0] && Settled(completed[i].1)
        invariant forall i, j :: 0 <= i < j < |completed| ==> completed[i].0 != completed[j].0
        invariant |completed| <= AtLeastOne(limit)
        invariant |completed| < AtLeastOne(limit) ==>
                    forall i :: 0 <= i < k && Settled(grouped[order[i]]) ==> (order[i], grouped[order[i]]) in completed
      {
        if |completed| >= AtLeastOne(limit) { break; }
        var batch := grouped[order[k]];
        if exists i :: 0 <= i < |batch| && batch[i].projectedAt > 0.0 { continue; }
        if forall i :: 0 <= i < |batch| ==> batch[i].status == Sent {
          completed := completed + [(order[k], batch)];
        }
      }
    }

    /** The `setdefault(...).append(...)` loop. */
    method GroupRows(rows: seq<(string, Item)>) returns (grouped: map<string, seq<Item>>, order: seq<string>)
      ensures forall i, j :: 0 <= i < j < |order| ==> order[i] != order[j]
      ensures forall b :: b in order <==> b in grouped
      ensures forall i :: 0 <= i < |rows| ==> rows[i].1.content.batchId in grouped
      ensures forall b :: b in grouped ==> grouped[b] == GroupOf(rows, b) && grouped[b] != []
    {
      grouped, order := map[], [];
      for k := 0 to |rows|
        invariant forall i, j :: 0 <= i < j < |order| ==> order[i] != order[j]
        invariant forall b :: b in order <==> b in grouped
        invariant forall b :: b in grouped ==> grouped[b] == GroupOf(rows[..k], b) && grouped[b] != []
        invariant forall b :: b !in grouped ==> GroupOf(rows[..k], b) == []
      {
        var item := rows[k].1;
        var b := item.content.batchId;
        GroupSteps(rows, k);
        if b !in grouped {
          grouped := grouped[b := []];
          order := order + [b];
        }
        grouped := grouped[b := grouped[b] + [item]];
      }
      assert rows[..|rows|] == rows;
      EveryRowGrouped(rows);
    }
  }

  lemma EveryRowGrouped(rows: seq<(string, Item)>)
    ensures forall i :: 0 <= i < |rows| ==> GroupOf(rows, rows[i].1.content.batchId) != []
  {
    forall i | 0 <= i < |rows|
      ensures GroupOf(rows, rows[i].1.content.batchId) != []
    {
      GroupHolds(rows, rows[i].1.content.batchId);
      assert rows[i].1 in GroupOf(rows, rows[i].1.content.batchId);
    }
  }

  lemma GroupSteps(rows: seq<(string, Item)>, k: nat)
    requires k < |rows|
    ensures forall b :: GroupOf(rows[..k + 1], b)
                        == GroupOf(rows[..k], b) + if rows[k].1.content.batchId == b then [rows[k].1] else []
  {
    forall b {
      GroupStep(rows, k, b);
    }
  }

  lemma GroupStep(rows: seq<(string, Item)>, k: nat, b: string)
    requires k < |rows|
    ensures GroupOf(rows[..k + 1], b)
            == GroupOf(rows[..k], b) + if rows[k].1.content.batchId == b then [rows[k].1] else []
  {
    assert rows[..k + 1][..k] == rows[..k];
  }

  function KeysOf(news: seq<(string, Item)>): set<string> {
    set row | row in news :: row.0
  }

  /** No key twice. */
  predicate KeysOnce(news: seq<(string, Item)>) {
    news == [] || (KeysOnce(news[..|news| - 1]) && news[|news| - 1].0 !in KeysOf(news[..|news| - 1]))
  }

  lemma {:induction false} OnceAt(news: seq<(string, Item)>, k: nat)
    requires KeysOnce(news) && k < |news|
    ensures news[k].0 !in KeysOf(news[..k])
  {
    if k < |news| - 1 {
      OnceAt(news[..|news| - 1], k);
      assert news[..|news| - 1][..k] == news[..k];
    }
  }

  lemma ItemsOnce(env: Envelope, now: real)
    ensures KeysOnce(Items(env, now))
  {
    ItemKeysDiffer(env, now);
    var news := Items(env, now);
    if |news| == 2 {
      assert news[..1] == [news[0]] && news[..1][..0] == [];
      assert KeysOf([]) == {} && KeysOf([news[0]]) == {news[0].0};
    } else if |news| == 1 {
      assert news[..0] == [] && KeysOf([]) == {};
    }
  }

  /** One row of the loop: a stored key stays as it is, a new one is inserted. */
  lemma InsertNext(stored: Table, news: seq<(string, Item)>, k: nat, before: Table)
    requires KeysOnce(news) && k < |news| && before == InsertAll(stored, news[..k])
    ensures news[k].0 in before <==> news[k].0 in stored
    ensures news[k].0 in stored ==> before[news[k].0] == stored[news[k].0]
    ensures InsertAll(stored, news[..k + 1])
         == if news[k].0 in stored then before else before[news[k].0 := news[k].1]
  {
    OnceAt(news, k);
    InsertAllHolds(stored, news[..k]);
    assert news[..k + 1][..k] == news[..k];
    forall i | 0 <= i < k ensures news[..k][i].0 in KeysOf(news[..k]) {
      assert news[..k][i] in news[..k];
    }
  }

  /** The tests made on a group decide whether the batch is handed out. */
  lemma BatchVerdict(t: Table, channel: string, rows: seq<(string, Item)>, b: string)
    requires ChannelRows(t, channel, rows) && GroupOf(rows, b) != []
    ensures HandedOut(t, channel, b) <==> Settled(GroupOf(rows, b))
  {
    GroupHolds(rows, b);
    var group := GroupOf(rows, b);
    assert group[0] in group;
    forall id | id in t && InBatch(t[id], channel, b)
      ensures t[id] in group
    {
      var i :| 0 <= i < |rows| && rows[i] == (id, t[id]);
      assert rows[i].1 == t[id];
    }
    forall item | item in group
      ensures exists id :: id in t && t[id] == item && InBatch(item, channel, b)
    {
      var i :| 0 <= i < |rows| && rows[i].1 == item && item.content.batchId == b;
      assert rows[i].0 in t;
    }
  }

  datatype Answer = Delivered | Failure(rateLimited: bool, retryable: bool, base: real)

  /** One pass of the worker: its clock readings and what the transport answers if there is anything to deliver. */
  datatype Pass = Pass(claimAt: real, checkAt: real, answer: Answer, doneAt: real)

  /** A pass with the item its claim picked, if any. */
  datatype Turn = Turn(pick: Option<string>, pass: Pass)

  datatype State = DeadlinePassed | RetryScheduled | GivenUp | Accepted

  datatype Outcome = Outcome(id: string, state: State)

  lemma {:induction false} RunAppend(w: World, a: seq<Event>, b: seq<Event>)
    ensures Run(w, a + b) == Run(Run(w, a), b)
  {
    if b == [] {
      assert a + b == a;
    } else {
      RunAppend(w, a, b[..|b| - 1]);
      assert (a + b)[..|a + b| - 1] == a + b[..|b| - 1];
    }
  }

  /** What the claim of one item may return: nothing when nothing is ready, or one that precedes all that are. */
  ghost predicate MayPick(t: Table, channel: string, minimum: Option<int>, now: real, pick: Option<string>) {
    match pick
    case None => forall id :: id in t ==> !Ready(t[id], channel, minimum, now)
    case Some(first) =>
      && first in t && Ready(t[first], channel, minimum, now)
      && forall id :: id in t && Ready(t[id], channel, minimum, now) ==> Precedes(t[first], t[id])
  }

  lemma PickIsChosen(t: Table, channel: string, minimum: Option<int>, now: real, pick: Option<string>)
    requires MayPick(t, channel, minimum, now, pick)
    ensures Chosen(t, (item: Item) => Ready(item, channel, minimum, now), Precedes, 1,
                   if pick.Some? then [pick.value] else [])
  {
  }

  /** The transport's answer leads to another attempt. */
  predicate Retries(item: Item, pass: Pass) {
    pass.answer.Failure? && pass.answer.retryable && item.attempts < item.content.maxAttempts
  }

  /** What becomes of a claimed item. */
  function StateOf(item: Item, pass: Pass): State {
    if Expired(item.content, pass.checkAt) then DeadlinePassed
    else if pass.answer.Delivered? then Accepted
    else if Retries(item, pass) then RetryScheduled
    else GivenUp
  }

  /** The same as an event of the step machine. */
  function Reaction(channel: string, item: Item, pass: Pass): Event {
    if Expired(item.content, pass.checkAt) then Event.Expire(channel, pass.checkAt)
    else
      match pass.answer
      case Delivered => Event.Deliver(channel, pass.doneAt)
      case Failure(_, retryable, base) => Event.Fail(channel, retryable, base, pass.doneAt)
  }

  /** The worker gives up its loop after a retry that a rate limit asked for. */
  predicate BacksOff(item: Item, pass: Pass) {
    StateOf(item, pass) == RetryScheduled && pass.answer.rateLimited
  }

  predicate Picks(t: Table, turn: Turn) {
    turn.pick.Some? && turn.pick.value in t
  }

  /** The picked item as the claim leaves it. */
  function Picked(t: Table, turn: Turn): Item
    requires Picks(t, turn)
  {
    Claimed(t[turn.pick.value], turn.pass.claimAt)
  }

  function TurnEvents(t: Table, channel: string, turn: Turn): seq<Event> {
    if Picks(t, turn)
    then [Event.Claim(turn.pick.value, channel, turn.pass.claimAt), Reaction(channel, Picked(t, turn), turn.pass)]
    else []
  }

  predicate LastTurn(t: Table, turn: Turn) {
    Picks(t, turn) ==> BacksOff(Picked(t, turn), turn.pass)
  }

  function AfterTurn(w: World, channel: string, turn: Turn): World {
    Run(w, TurnEvents(w.table, channel, turn))
  }

  /** One turn of a session: its pick is one the claim may return, and the worker reacts to it. */
  ghost predicate TurnTaken(w: World, channel: string, minimum: Option<int>, turn: Turn, w': World) {
    MayPick(w.table, channel, minimum, turn.pass.claimAt, turn.pick) && w' == AfterTurn(w, channel, turn)
  }

  /** The turns of a loop, with the worlds before, between and after them; only the last may end it. */
  ghost predicate Session(worlds: seq<World>, turns: seq<Turn>, channel: string, minimum: Option<int>) {
    && |worlds| == |turns| + 1
    && (forall k :: 0 <= k < |turns| ==> TurnTaken(worlds[k], channel, minimum, turns[k], worlds[k + 1]))
    && (forall k :: 0 <= k < |turns| - 1 ==> !LastTurn(worlds[k].table, turns[k]))
  }

  /** What the loop returns: an outcome for every item picked. */
  ghost predicate Reported(worlds: seq<World>, turns: seq<Turn>, outcomes: seq<Outcome>)
    requires |worlds| == |turns| + 1
  {
    && |outcomes| <= |turns|
    && (forall k :: 0 <= k < |turns| ==> (k < |outcomes| <==> Picks(worlds[k].table, turns[k])))
    && (forall k :: 0 <= k < |outcomes| ==>
          outcomes[k] == Outcome(turns[k].pick.value, StateOf(Picked(worlds[k].table, turns[k]), turns[k].pass)))
  }

  lemma SessionNext(worlds: seq<World>, turns: seq<Turn>, channel: string, minimum: Option<int>, turn: Turn, w: World)
    requires Session(worlds, turns, channel, minimum)
    requires turns != [] ==> !LastTurn(worlds[|turns| - 1].table, turns[|turns| - 1])
    requires TurnTaken(worlds[|turns|], channel, minimum, turn, w)
    ensures Session(worlds + [w], turns + [turn], channel, minimum)
  {
  }

  /** The outcome of one turn, if it claims anything. */
  function OutcomeOf(t: Table, turn: Turn): Option<Outcome> {
    if Picks(t, turn) then Some(Outcome(turn.pick.value, StateOf(Picked(t, turn), turn.pass))) else None
  }

  function Listed(outcome: Option<Outcome>): seq<Outcome> {
    if outcome.Some? then [outcome.value] else []
  }

  lemma ReportedNext(worlds: seq<World>, turns: seq<Turn>, outcomes: seq<Outcome>, turn: Turn, w: World)
    requires |worlds| == |turns| + 1 && Reported(worlds, turns, outcomes) && |outcomes| == |turns|
    ensures Reported(worlds + [w], turns + [turn], outcomes + Listed(OutcomeOf(worlds[|turns|].table, turn)))
  {
  }

  /** The state of the loop after some passes that did not end it. */
  ghost predicate Underway(worlds: seq<World>, turns: seq<Turn>, outcomes: seq<Outcome>, channel: string,
                           minimum: Option<int>)
  {
    && Session(worlds, turns, channel, minimum) && Reported(worlds, turns, outcomes)
    && |outcomes| == |turns|
    && (turns != [] ==> !LastTurn(worlds[|turns| - 1].table, turns[|turns| - 1]))
  }

  lemma PassDone(worlds: seq<World>, turns: seq<Turn>, outcomes: seq<Outcome>, channel: string, minimum: Option<int>,
                 turn: Turn, w: World, outcome: Option<Outcome>, stop: bool)
    requires Underway(worlds, turns, outcomes, channel, minimum)
    requires TurnTaken(worlds[|turns|], channel, minimum, turn, w)
    requires outcome == OutcomeOf(worlds[|turns|].table, turn) && (stop <==> LastTurn(worlds[|turns|].table, turn))
    ensures Session(worlds + [w], turns + [turn], channel, minimum)
    ensures Reported(worlds + [w], turns + [turn], outcomes + Listed(outcome))
    ensures !stop ==> Underway(worlds + [w], turns + [turn], outcomes + Listed(outcome), channel, minimum)
    ensures stop ==> LastTurn((worlds + [w])[|turns|].table, (turns + [turn])[|turns|])
  {
    SessionNext(worlds, turns, channel, minimum, turn, w);
    ReportedNext(worlds, turns, outcomes, turn, w);
  }

  /** A session is a run of the step machine. */
  lemma {:induction false} SessionIsRun(worlds: seq<World>, turns: seq<Turn>, channel: string, minimum: Option<int>)
    returns (es: seq<Event>)
    requires Session(worlds, turns, channel, minimum)
    ensures Run(worlds[0], es) == worlds[|turns|]
    decreases |turns|
  {
    if turns == [] {
      es := [];
    } else {
      var n := |turns| - 1;
      assert TurnTaken(worlds[n], channel, minimum, turns[n], worlds[n + 1]);
      es := SessionIsRun(worlds[..n + 1], turns[..n], channel, minimum);
      RunAppend(worlds[0], es, TurnEvents(worlds[n].table, channel, turns[n]));
      es := es + TurnEvents(worlds[n].table, channel, turns[n]);
    }
  }

  /**
   `drain`: recover stale rows, then claim and deliver one item at a time. The table it leaves
   is the one a session of the step machine leaves, with no item in hand; the workers of other
   channels keep theirs.
   */
  method Drain(store: DeliveryOutboxStore, stale: seq<string>, channel: string, minimum: Option<int>, cutoff: real,
               recoverAt: real, passes: seq<Pass>, ghost w0: World)
    returns (outcomes: seq<Outcome>, ghost worlds: seq<World>, ghost turns: seq<Turn>)
    requires w0.table == store.items && channel !in w0.held
    requires Chosen(store.items, (item: Item) => Stale(item, channel, cutoff), StalerThan, 100, stale)
    modifies store
    ensures Session(worlds, turns, channel, minimum) && Reported(worlds, turns, outcomes)
    ensures worlds[0] == Step(w0, Event.Recover(stale, channel, cutoff, recoverAt))
    ensures worlds[|turns|].table == store.items && worlds[|turns|].held == w0.held
    ensures |turns| <= |passes| && forall k :: 0 <= k < |turns| ==> turns[k].pass == passes[k]
    ensures |turns| < |passes| ==> turns != [] && LastTurn(worlds[|turns| - 1].table, turns[|turns| - 1])
  {
    var recovered := store.RecoverStaleSending(stale, channel, 100, cutoff, recoverAt);
    outcomes, worlds, turns :=
      Work(store, channel, minimum, passes, Step(w0, Event.Recover(stale, channel, cutoff, recoverAt)));
  }

  /** The loop of `drain`. */
  method Work(store: DeliveryOutboxStore, channel: string, minimum: Option<int>, passes: seq<Pass>, ghost w1: World)
    returns (outcomes: seq<Outcome>, ghost worlds: seq<World>, ghost turns: seq<Turn>)
    requires w1.table == store.items && channel !in w1.held
    modifies store
    ensures Session(worlds, turns, channel, minimum) && Reported(worlds, turns, outcomes)
    ensures worlds[0] == w1 && worlds[|turns|].table == store.items && worlds[|turns|].held == w1.held
    ensures |turns| <= |passes| && forall k :: 0 <= k < |turns| ==> turns[k].pass == passes[k]
    ensures |turns| < |passes| ==> turns != [] && LastTurn(worlds[|turns| - 1].table, turns[|turns| - 1])
  {
    outcomes, worlds, turns := [], [w1], [];
    for n := 0 to |passes|
      invariant |turns| == n && Underway(worlds, turns, outcomes, channel, minimum)
      invariant worlds[0] == w1 && worlds[n].table == store.items && worlds[n].held == w1.held
      invariant forall k :: 0 <= k < n ==> turns[k].pass == passes[k]
    {
      var stop, outcome;
      ghost var turn, w;
      stop, outcome, turn, w := Attempt(store, channel, minimum, passes[n], worlds[n]);
      PassDone(worlds, turns, outcomes, channel, minimum, turn, w, outcome, stop);
      worlds, turns, outcomes := worlds + [w], turns + [turn], outcomes + Listed(outcome);
      if stop { return; }
    }
  }

  /** One pass of the loop of `drain`. */
  method Attempt(store: DeliveryOutboxStore, channel: string, minimum: Option<int>, pass: Pass, ghost w: World)
    returns (stop: bool, outcome: Option<Outcome>, ghost turn: Turn, ghost w': World)
    requires w.table == store.items && channel !in w.held
    modifies store
    ensures turn.pass == pass && TurnTaken(w, channel, minimum, turn, w')
    ensures w'.table == store.items && w'.held == w.held
    ensures stop <==> LastTurn(w.table, turn)
    ensures outcome == OutcomeOf(w.table, turn)
  {
    var pick := store.FirstReady(channel, minimum, pass.claimAt);
    turn := Turn(pick, pass);
    w' := AfterTurn(w, channel, turn);
    PickIsChosen(store.items, channel, minimum, pass.claimAt, pick);
    var claimed := store.ClaimReady(if pick.Some? then [pick.value] else [], channel, 1, minimum, pass.claimAt);
    if claimed == [] {
      assert pick.None? && store.items == w.table;
      stop, outcome := true, None;
      return;
    }
    ghost var claim := Event.Claim(pick.value, channel, pass.claimAt);
    assert store.items == Step(w, claim).table;
    RunTwo(w, claim, Reaction(channel, claimed[0], pass));
    var state;
    stop, state := Handle(store, channel, pick.value, pass, claimed[0], Step(w, claim));
    outcome := Some(Outcome(pick.value, state));
  }

  lemma RunTwo(w: World, a: Event, b: Event)
    ensures Run(w, [a, b]) == Step(Step(w, a), b)
  {
    assert [a, b][..1] == [a];
    assert [a][..0] == [];
    assert Run(w, [a]) == Step(w, a);
  }

  /** What `drain` does with one claimed item. */
  method Handle(store: DeliveryOutboxStore, channel: string, id: string, pass: Pass, item: Item, ghost w: World)
    returns (stop: bool, state: State)
    requires w.table == store.items && channel in w.held && w.held[channel] == id
    requires id in store.items && item == store.items[id]
    modifies store
    ensures stop <==> BacksOff(item, pass)
    ensures state == StateOf(item, pass)
    ensures Step(w, Reaction(channel, item, pass)).table == store.items
    ensures Step(w, Reaction(channel, item, pass)).held == w.held - {channel}
  {
    if Expired(item.content, pass.checkAt) {
      store.MarkFailed(id, pass.checkAt);
      return false, DeadlinePassed;
    }
    match pass.answer
    case Delivered =>
      store.MarkSent(id, pass.doneAt);
      return false, Accepted;
    case Failure(rateLimited, retryable, base) =>
      if retryable && item.attempts < item.content.maxAttempts {
        store.ScheduleRetry(id, RetryDelay(item.attempts, base), pass.doneAt);
        return rateLimited, RetryScheduled;
      }
      store.MarkFailed(id, pass.doneAt);
      return false, GivenUp;
  }
}
