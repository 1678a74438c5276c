/**
 The delivery outbox (`delivery_outbox.py`): the effect of every store operation on the
 table, and the delivery workers as a step machine. Each channel has one worker at a time,
 which may crash between any two steps; workers of different channels run side by side, and
 anyone may enqueue, requeue and mark batches projected.
 */
module Outbox {
  import opened Values

  /** The status column; `Foreign` is the text left by the legacy import. */
  datatype Status = Pending | Sending | Sent | Failed | Foreign(text: string)

  /** The columns fixed when an item is built. `deadline` is zero when there is none. */
  datatype Content = Content(
    batchId: string,
    channel: string,
    peerId: string,
    kind: string,
    payload: Json,
    deadline: real,
    maxAttempts: int,
    priority: int,
    createdAt: real)

  datatype Item = Item(
    content: Content,
    status: Status,
    attempts: int,
    nextAttemptAt: real,
    projectedAt: real,
    updatedAt: real)

  type Table = map<string, Item>

  /** A response already stripped of surrounding whitespace. */
  datatype Envelope = Envelope(
    batchId: string,
    channel: string,
    peerId: string,
    text: string,
    filePath: string,
    deadline: real,
    maxAttempts: int,
    priority: int)

  function AtLeastOne(n: int): (r: int)
    ensures r >= 1 && (n >= 1 ==> r == n)
  {
    if n >= 1 then n else 1
  }

  function NewItem(env: Envelope, kind: string, payload: Json, now: real): Item {
    Item(Content(env.batchId, env.channel, env.peerId, kind, payload, env.deadline, AtLeastOne(env.maxAttempts),
                 env.priority, now),
         Pending, 0, now, 0.0, now)
  }

  /** `DeliveryEnvelope.items`: a text item, a file item, both or none. */
  function Items(env: Envelope, now: real): seq<(string, Item)> {
    (if env.text != ""
     then [(env.batchId + ":text", NewItem(env, "text", Obj(map["text" := Str(env.text)]), now))]
     else [])
    + (if env.filePath != ""
       then [(env.batchId + ":file", NewItem(env, "file", Obj(map["path" := Str(env.filePath)]), now))]
       else [])
  }

  /** The items of one envelope have different keys. */
  lemma ItemKeysDiffer(env: Envelope, now: real)
    ensures var news := Items(env, now);
            forall i, j :: 0 <= i < j < |news| ==> news[i].0 != news[j].0
  {
    assert (env.batchId + ":text")[|env.batchId| + 1] == 't';
    assert (env.batchId + ":file")[|env.batchId| + 1] == 'f';
  }

  /** The columns compared after `INSERT OR IGNORE`. */
  predicate SameRequest(a: Content, b: Content) {
    a.batchId == b.batchId && a.kind == b.kind && a.payload == b.payload
  }

  /** The key is taken by a different request. */
  predicate Clashes(t: Table, row: (string, Item)) {
    row.0 in t && !SameRequest(t[row.0].content, row.1.content)
  }

  predicate Conflicts(t: Table, news: seq<(string, Item)>) {
    exists i :: 0 <= i < |news| && Clashes(t, news[i])
  }

  /** Inserts the items whose keys are new. */
  function InsertAll(t: Table, news: seq<(string, Item)>): Table {
    if news == [] then t
    else
      var before := InsertAll(t, news[..|news| - 1]);
      var (id, item) := news[|news| - 1];
      if id in before then before else before[id := item]
  }

  lemma {:induction false} InsertAllKeeps(t: Table, news: seq<(string, Item)>, id: string)
    requires id in t
    ensures id in InsertAll(t, news) && InsertAll(t, news)[id] == t[id]
  {
    if news != [] {
      InsertAllKeeps(t, news[..|news| - 1], id);
    }
  }

  /** What is stored stays, what is new is one of the requested rows, and every requested key is there. */
  lemma {:induction false} InsertAllHolds(t: Table, news: seq<(string, Item)>)
    ensures forall id :: id in t ==> id in InsertAll(t, news) && InsertAll(t, news)[id] == t[id]
    ensures forall id :: id in InsertAll(t, news) && id !in t ==>
              exists i :: 0 <= i < |news| && news[i] == (id, InsertAll(t, news)[id])
    ensures forall i :: 0 <= i < |news| ==> news[i].0 in InsertAll(t, news)
  {
    if news != [] {
      var init, last := news[..|news| - 1], news[|news| - 1];
      InsertAllHolds(t, init);
      forall id | id in InsertAll(t, news) && id !in t
        ensures exists i :: 0 <= i < |news| && news[i] == (id, InsertAll(t, news)[id])
      {
        if id in InsertAll(t, init) {
          var i :| 0 <= i < |init| && init[i] == (id, InsertAll(t, init)[id]);
          assert news[i] == (id, InsertAll(t, news)[id]);
        } else {
          assert news[|news| - 1] == (id, InsertAll(t, news)[id]);
        }
      }
    }
  }

  /** `enqueue`: a conflicting key raises, and the transaction leaves nothing behind. */
  function Enqueued(t: Table, env: Envelope, now: real): Result<Table> {
    var news := Items(env, now);
    if news == [] then Ok(t)
    else if env.channel == "" || env.peerId == "" then Raised(ValueError)
    else if Conflicts(t, news) then Raised(RuntimeError)
    else Ok(InsertAll(t, news))
  }

  /** A row as `DeliveryEnvelope.items` makes it. */
  predicate Brandnew(item: Item) {
    item.status == Pending && item.attempts == 0 && item.projectedAt == 0.0 && item.content.maxAttempts >= 1
  }

  lemma ItemsBrandnew(env: Envelope, now: real)
    ensures forall i :: 0 <= i < |Items(env, now)| ==> Brandnew(Items(env, now)[i].1)
  {
  }

  predicate CanClaim(item: Item, channel: string, now: real) {
    item.content.channel == channel && item.status == Pending && item.nextAttemptAt <= now
  }

  function Claimed(item: Item, now: real): Item {
    item.(status := Sending, attempts := item.attempts + 1, updatedAt := now)
  }

  predicate Open(status: Status) {
    status == Pending || status == Sending
  }

  function MarkSent(t: Table, id: string, now: real): Table {
    if id in t && Open(t[id].status) then t[id := t[id].(status := Sent, updatedAt := now)] else t
  }

  function ScheduleRetry(t: Table, id: string, delay: real, now: real): Table {
    if id in t && t[id].status == Sending
    then t[id := t[id].(status := Pending, nextAttemptAt := now + Max(0.0, delay), updatedAt := now)]
    else t
  }

  function MarkFailed(t: Table, id: string, now: real): Table {
    if id in t && Open(t[id].status) then t[id := t[id].(status := Failed, updatedAt := now)] else t
  }

  /** `expires_at and expires_at <= now` */
  predicate Expired(content: Content, now: real) {
    content.deadline > 0.0 && content.deadline <= now
  }

  predicate CanRequeue(t: Table, id: string, now: real) {
    id in t && t[id].status == Failed && !Expired(t[id].content, now)
  }

  function Requeue(t: Table, id: string, now: real): Table {
    if CanRequeue(t, id, now)
    then t[id := t[id].(status := Pending, attempts := 0, nextAttemptAt := now, updatedAt := now, projectedAt := 0.0)]
    else t
  }

  predicate Stale(item: Item, channel: string, cutoff: real) {
    item.content.channel == channel && item.status == Sending && item.updatedAt <= cutoff
  }

  function Recovered(item: Item, now: real): Item {
    item.(status := Pending, nextAttemptAt := now, updatedAt := now)
  }

  /** `recover_stale_sending` over the rows its SELECT returned. */
  function RecoverStale(t: Table, ids: seq<string>, channel: string, cutoff: real, now: real): Table {
    map id | id in t ::
      if id in ids && Stale(t[id], channel, cutoff)
      then Recovered(t[id], now)
      else t[id]
  }

  function MarkProjected(t: Table, batchId: string, at: real): Table {
    map id | id in t ::
      if t[id].content.batchId == batchId && t[id].projectedAt == 0.0 then t[id].(projectedAt := at) else t[id]
  }

  function Pow2(n: nat): (r: real)
    ensures r >= 1.0
  {
    if n == 0 then 1.0 else 2.0 * Pow2(n - 1)
  }

  /** `_retry_delay` */
  function RetryDelay(attempts: int, base: real): real {
    Min(3600.0, Max(1.0, base) * Pow2(if attempts >= 1 then attempts - 1 else 0))
  }

  /** A scheduled retry: the attempt that failed and the delay chosen for it. */
  datatype Retry = Retry(attempt: int, base: real)

  /** What happened to an item since it was enqueued or last requeued. */
  datatype Life = Life(recoveries: nat, retries: seq<Retry>)

  /** `held` maps a channel to the item its worker has claimed. */
  datatype World = World(table: Table, held: map<string, string>, lives: map<string, Life>)

  datatype Event =
    | Enqueue(rows: seq<(string, Item)>)
    | RequeueFailed(id: string, now: real)
    | Project(batchId: string, at: real)
    | Recover(ids: seq<string>, channel: string, cutoff: real, now: real)
    | Claim(id: string, channel: string, now: real)
    | Expire(channel: string, now: real)
    | Deliver(channel: string, now: real)
    | Fail(channel: string, retryable: bool, base: real, now: real)
    | Crash(channel: string)

  function LifeOf(w: World, id: string): Life {
    if id in w.lives then w.lives[id] else Life(0, [])
  }

  /** Recoveries counted where they happen. */
  function Recounted(w: World, t: Table): map<string, Life> {
    map id | id in w.table && id in t ::
      if w.table[id].status == Sending && t[id].status == Pending
      then LifeOf(w, id).(recoveries := LifeOf(w, id).recoveries + 1)
      else LifeOf(w, id)
  }

  /** The outcome of a failed delivery, as `drain` decides it from the claimed copy. */
  function AfterFailure(w: World, channel: string, id: string, retryable: bool, base: real, now: real): World
    requires id in w.table
  {
    var held := w.held - {channel};
    var attempts := w.table[id].attempts;
    if retryable && attempts < w.table[id].content.maxAttempts then
      var life := LifeOf(w, id);
      World(ScheduleRetry(w.table, id, RetryDelay(attempts, base), now), held,
            w.lives[id := life.(retries := life.retries + [Retry(attempts, base)])])
    else
      World(MarkFailed(w.table, id, now), held, w.lives)
  }

  /** One event; an event not enabled in the state does nothing. */
  function Step(w: World, e: Event): World {
    match e
    case Enqueue(rows) => if Conflicts(w.table, rows) then w else w.(table := InsertAll(w.table, rows))
    case RequeueFailed(id, now) =>
      if CanRequeue(w.table, id, now)
      then World(Requeue(w.table, id, now), w.held, w.lives[id := Life(0, [])])
      else w
    case Project(batchId, at) => w.(table := MarkProjected(w.table, batchId, at))
    case Recover(ids, channel, cutoff, now) =>
      if channel in w.held then w
      else
        var t := RecoverStale(w.table, ids, channel, cutoff, now);
        World(t, w.held, Recounted(w, t))
    case Claim(id, channel, now) =>
      if channel !in w.held && id in w.table && CanClaim(w.table[id], channel, now)
      then w.(table := w.table[id := Claimed(w.table[id], now)], held := w.held[channel := id])
      else w
    case Expire(channel, now) =>
      if channel in w.held && w.held[channel] in w.table && Expired(w.table[w.held[channel]].content, now)
      then World(MarkFailed(w.table, w.held[channel], now), w.held - {channel}, w.lives)
      else w
    case Deliver(channel, now) =>
      if channel in w.held then World(MarkSent(w.table, w.held[channel], now), w.held - {channel}, w.lives) else w
    case Fail(channel, retryable, base, now) =>
      if channel in w.held && w.held[channel] in w.table
      then AfterFailure(w, channel, w.held[channel], retryable, base, now)
      else w
    case Crash(channel) => w.(held := w.held - {channel})
  }

  function Run(w: World, es: seq<Event>): World {
    if es == [] then w else Step(Run(w, es[..|es| - 1]), es[|es| - 1])
  }

  function Initial(): World {
    World(map[], map[], map[])
  }

  /** `complete_unprojected_batches` would hand the batch out. */
  ghost predicate HandedOut(t: Table, channel: string, batchId: string) {
    && (exists id :: id in t && InBatch(t[id], channel, batchId))
    && (forall id :: id in t && InBatch(t[id], channel, batchId) ==> t[id].status == Sent && t[id].projectedAt <= 0.0)
  }

  predicate InBatch(item: Item, channel: string, batchId: string) {
    item.content.channel == channel && item.content.batchId == batchId
  }
}
