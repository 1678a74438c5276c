/** Attempt and backoff bounds, absorbing states, fixed payloads and single projection of the outbox. */
module OutboxTheorems {
  import opened Values
  import opened Outbox

  /** Retries happen at increasing attempt numbers, each below the maximum. */
  predicate Increasing(retries: seq<Retry>, top: int) {
    && (forall i, j :: 0 <= i < j < |retries| ==> retries[i].attempt < retries[j].attempt)
    && (forall i :: 0 <= i < |retries| ==> 1 <= retries[i].attempt <= top)
  }

  predicate GoodItem(item: Item, life: Life) {
    && item.content.maxAttempts >= 1
    && item.attempts >= 0
    && item.projectedAt >= 0.0
    && !item.status.Foreign?
    && (item.status == Pending ==> item.attempts <= item.content.maxAttempts - 1 + life.recoveries)
    && item.attempts <= item.content.maxAttempts + life.recoveries
    && (item.status == Sending ==> item.attempts >= 1)
    && Increasing(life.retries, item.content.maxAttempts - 1)
    && Increasing(life.retries, if item.status == Sending then item.attempts - 1 else item.attempts)
  }

  /** The item a worker holds is in flight on the worker's own channel. */
  predicate HeldItem(w: World, channel: string)
    requires channel in w.held
  {
    var id := w.held[channel];
    id in w.table && w.table[id].status == Sending && w.table[id].content.channel == channel
  }

  ghost predicate Inv(w: World) {
    && (forall id :: id in w.table ==> Fine(w, id))
    && (forall ch :: ch in w.held ==> HeldItem(w, ch))
    && (forall id :: id in w.lives ==> id in w.table)
  }

  /** Batches are marked projected at positive times, and only brand-new rows are enqueued. */
  predicate ProperEvent(e: Event) {
    && (e.Project? ==> e.at > 0.0)
    && (e.Enqueue? ==> forall i :: 0 <= i < |e.rows| ==> Brandnew(e.rows[i].1))
  }

  predicate Fine(w: World, id: string)
    requires id in w.table
  {
    GoodItem(w.table[id], LifeOf(w, id))
  }

  /** Enqueueing leaves a stored item alone. */
  lemma EnqueueSpares(w: World, rows: seq<(string, Item)>, id: string)
    requires id in w.table
    ensures var w' := Step(w, Enqueue(rows));
            id in w'.table && w'.table[id] == w.table[id] && w'.lives == w.lives && w'.held == w.held
  {
    InsertAllKeeps(w.table, rows, id);
  }

  // One lemma an event: what it makes of one item.

  lemma EnqueueKeepsItem(w: World, rows: seq<(string, Item)>, id: string)
    requires id in Step(w, Enqueue(rows)).table && ProperEvent(Enqueue(rows))
    requires id in w.table ==> Fine(w, id)
    requires id in w.lives ==> id in w.table
    ensures Fine(Step(w, Enqueue(rows)), id)
  {
    if id in w.table {
      EnqueueSpares(w, rows, id);
    } else {
      EnqueuedIsNew(w, rows, id);
    }
  }

  lemma EnqueuedIsNew(w: World, rows: seq<(string, Item)>, id: string)
    requires id in Step(w, Enqueue(rows)).table && ProperEvent(Enqueue(rows)) && id !in w.table && id !in w.lives
    ensures Fine(Step(w, Enqueue(rows)), id)
  {
    InsertAllHolds(w.table, rows);
    var t := Step(w, Enqueue(rows)).table;
    var i :| 0 <= i < |rows| && rows[i] == (id, t[id]);
    assert Brandnew(rows[i].1);
    assert LifeOf(w, id) == Life(0, []);
  }

  lemma RequeueKeepsItem(w: World, id: string, now: real, x: string)
    requires x in w.table && Fine(w, x)
    ensures x in Step(w, RequeueFailed(id, now)).table && Fine(Step(w, RequeueFailed(id, now)), x)
  {
  }

  lemma ProjectKeepsItem(w: World, batchId: string, at: real, x: string)
    requires x in w.table && Fine(w, x) && at > 0.0
    ensures x in Step(w, Project(batchId, at)).table && Fine(Step(w, Project(batchId, at)), x)
  {
  }

  lemma RecoverKeepsItem(w: World, e: Event, x: string)
    requires e.Recover? && x in w.table && Fine(w, x)
    ensures x in Step(w, e).table && Fine(Step(w, e), x)
  {
    assert e.channel !in w.held ==> LifeOf(Step(w, e), x).retries == LifeOf(w, x).retries;
  }

  lemma ClaimKeepsItem(w: World, e: Event, x: string)
    requires e.Claim? && x in w.table && Fine(w, x)
    ensures x in Step(w, e).table && Fine(Step(w, e), x)
  {
  }

  lemma SettleKeepsItem(w: World, e: Event, x: string)
    requires (e.Expire? || e.Deliver?) && x in w.table && Fine(w, x)
    requires e.channel in w.held ==> HeldItem(w, e.channel)
    ensures x in Step(w, e).table && Fine(Step(w, e), x)
  {
  }

  lemma RetryKeepsGood(item: Item, life: Life, base: real, next: real, now: real)
    requires GoodItem(item, life) && item.status == Sending && item.attempts < item.content.maxAttempts
    ensures GoodItem(item.(status := Pending, nextAttemptAt := next, updatedAt := now),
                     life.(retries := life.retries + [Retry(item.attempts, base)]))
  {
  }

  lemma FailKeepsItem(w: World, e: Event, x: string)
    requires e.Fail? && x in w.table && Fine(w, x)
    requires e.channel in w.held ==> HeldItem(w, e.channel)
    ensures x in Step(w, e).table && Fine(Step(w, e), x)
  {
    if e.channel in w.held && w.held[e.channel] == x {
      var item, life := w.table[x], LifeOf(w, x);
      if e.retryable && item.attempts < item.content.maxAttempts {
        RetryKeepsGood(item, life, e.base, e.now + Max(0.0, RetryDelay(item.attempts, e.base)), e.now);
      }
    }
  }

  lemma WorkerKeepsItem(w: World, e: Event, x: string)
    requires (e.Claim? || e.Expire? || e.Deliver? || e.Fail?) && x in w.table && Fine(w, x)
    requires e.channel in w.held ==> HeldItem(w, e.channel)
    ensures x in Step(w, e).table && Fine(Step(w, e), x)
  {
    if e.Claim? {
      ClaimKeepsItem(w, e, x);
    } else if e.Fail? {
      FailKeepsItem(w, e, x);
    } else {
      SettleKeepsItem(w, e, x);
    }
  }

  lemma StoreKeepsItem(w: World, e: Event, x: string)
    requires (e.RequeueFailed? || e.Project? || e.Recover? || e.Crash?) && ProperEvent(e) && x in w.table && Fine(w, x)
    ensures x in Step(w, e).table && Fine(Step(w, e), x)
  {
    if e.RequeueFailed? {
      RequeueKeepsItem(w, e.id, e.now, x);
    } else if e.Project? {
      ProjectKeepsItem(w, e.batchId, e.at, x);
    } else if e.Recover? {
      RecoverKeepsItem(w, e, x);
    }
  }

  /** Only enqueueing adds items. */
  lemma NoNewItems(w: World, e: Event, x: string)
    requires !e.Enqueue? && x in Step(w, e).table && forall ch :: ch in w.held ==> w.held[ch] in w.table
    ensures x in w.table
  {
  }

  lemma StepKeepsItem(w: World, e: Event, x: string)
    requires Inv(w) && ProperEvent(e) && x in Step(w, e).table
    ensures Fine(Step(w, e), x)
  {
    if e.Enqueue? {
      assert x in w.table ==> Fine(w, x);
      EnqueueKeepsItem(w, e.rows, x);
    } else {
      assert forall ch :: ch in w.held ==> HeldItem(w, ch);
      NoNewItems(w, e, x);
      assert Fine(w, x);
      if e.Claim? || e.Expire? || e.Deliver? || e.Fail? {
        WorkerKeepsItem(w, e, x);
      } else {
        StoreKeepsItem(w, e, x);
      }
    }
  }

  /** A worker's item is left alone by everyone but the worker. */
  lemma OthersSpareHeld(w: World, e: Event, channel: string)
    requires channel in w.held && HeldItem(w, channel) && channel in Step(w, e).held
    requires e.Recover? || e.Claim? || e.RequeueFailed? || e.Project? || e.Crash?
    ensures HeldItem(Step(w, e), channel)
  {
  }

  lemma EnqueueSparesHeld(w: World, rows: seq<(string, Item)>, channel: string)
    requires channel in w.held && HeldItem(w, channel)
    ensures channel in Step(w, Enqueue(rows)).held && HeldItem(Step(w, Enqueue(rows)), channel)
  {
    EnqueueSpares(w, rows, w.held[channel]);
  }

  lemma WorkersSpareHeld(w: World, e: Event, channel: string)
    requires channel in w.held && HeldItem(w, channel) && channel in Step(w, e).held
    requires (e.Expire? || e.Deliver? || e.Fail?) && (e.channel in w.held ==> HeldItem(w, e.channel))
    ensures HeldItem(Step(w, e), channel)
  {
    if e.channel in w.held && e.channel != channel {
      assert w.held[e.channel] != w.held[channel];
    }
  }

  lemma StepKeepsHeld(w: World, e: Event, channel: string)
    requires Inv(w) && channel in Step(w, e).held
    ensures HeldItem(Step(w, e), channel)
  {
    if channel in w.held {
      assert HeldItem(w, channel);
      if e.Enqueue? {
        EnqueueSparesHeld(w, e.rows, channel);
      } else if e.Expire? || e.Deliver? || e.Fail? {
        assert e.channel in w.held ==> HeldItem(w, e.channel);
        WorkersSpareHeld(w, e, channel);
      } else {
        OthersSpareHeld(w, e, channel);
      }
    }
  }

  lemma EnqueueKeepsLife(w: World, rows: seq<(string, Item)>, id: string)
    requires id in w.lives && id in w.table
    ensures id in Step(w, Enqueue(rows)).table
  {
    EnqueueSpares(w, rows, id);
  }

  lemma StoreKeepsLife(w: World, e: Event, id: string)
    requires e.RequeueFailed? || e.Project? || e.Recover? || e.Crash?
    requires id in Step(w, e).lives && (id in w.lives ==> id in w.table)
    ensures id in Step(w, e).table
  {
  }

  lemma WorkerKeepsLife(w: World, e: Event, id: string)
    requires e.Claim? || e.Expire? || e.Deliver? || e.Fail?
    requires e.channel in w.held ==> w.held[e.channel] in w.table
    requires id in Step(w, e).lives && (id in w.lives ==> id in w.table)
    ensures id in Step(w, e).table
  {
  }

  lemma StepKeepsLife(w: World, e: Event, id: string)
    requires Inv(w) && id in Step(w, e).lives
    ensures id in Step(w, e).table
  {
    if e.Enqueue? {
      EnqueueKeepsLife(w, e.rows, id);
    } else if e.RequeueFailed? || e.Project? || e.Recover? || e.Crash? {
      StoreKeepsLife(w, e, id);
    } else {
      assert e.channel in w.held ==> HeldItem(w, e.channel);
      WorkerKeepsLife(w, e, id);
    }
  }

  lemma StepKeepsInv(w: World, e: Event)
    requires Inv(w) && ProperEvent(e)
    ensures Inv(Step(w, e))
  {
    forall x | x in Step(w, e).table ensures Fine(Step(w, e), x) { StepKeepsItem(w, e, x); }
    forall ch | ch in Step(w, e).held ensures HeldItem(Step(w, e), ch) { StepKeepsHeld(w, e, ch); }
    forall id | id in Step(w, e).lives ensures id in Step(w, e).table { StepKeepsLife(w, e, id); }
  }

  lemma {:induction false} RunKeepsInv(w: World, es: seq<Event>)
    requires Inv(w) && forall i :: 0 <= i < |es| ==> ProperEvent(es[i])
    ensures Inv(Run(w, es))
  {
    if es != [] {
      RunKeepsInv(w, es[..|es| - 1]);
      StepKeepsInv(Run(w, es[..|es| - 1]), es[|es| - 1]);
    }
  }

  /**
   Attempt bound: with one worker a channel that may crash at any point, an item is never
   attempted more often than its maximum plus the stale recoveries since it was enqueued or requeued.
   */
  lemma AttemptBound(es: seq<Event>, id: string)
    requires forall i :: 0 <= i < |es| ==> ProperEvent(es[i])
    requires id in Run(Initial(), es).table
    ensures var w := Run(Initial(), es);
            0 <= w.table[id].attempts <= w.table[id].content.maxAttempts + LifeOf(w, id).recoveries
    ensures var w := Run(Initial(), es);
            |LifeOf(w, id).retries| <= w.table[id].content.maxAttempts - 1
  {
    RunKeepsInv(Initial(), es);
    var w := Run(Initial(), es);
    assert Fine(w, id);
    var retries := LifeOf(w, id).retries;
    if retries != [] {
      IncreasingLength(retries, |retries| - 1);
    }
  }

  lemma {:induction false} IncreasingLength(retries: seq<Retry>, k: nat)
    requires k < |retries| && exists top :: Increasing(retries, top)
    ensures retries[k].attempt >= k + 1
  {
    if k > 0 {
      IncreasingLength(retries, k - 1);
    }
  }

  // ---- Backoff ----

  function Sum(xs: seq<real>): real {
    if xs == [] then 0.0 else Sum(xs[..|xs| - 1]) + xs[|xs| - 1]
  }

  /** The delays scheduled by a list of retries. */
  function Delays(retries: seq<Retry>): (r: seq<real>)
    ensures |r| == |retries|
  {
    seq(|retries|, i requires 0 <= i < |retries| => DelayOf(retries[i]))
  }

  function DelayOf(retry: Retry): real {
    RetryDelay(retry.attempt, retry.base)
  }

  /** `base * 2^n` by doubling. */
  function Doubled(base: real, n: nat): real {
    if n == 0 then base else 2.0 * Doubled(base, n - 1)
  }

  /** The first `n` terms of the doubling series. */
  function Series(base: real, n: nat): real {
    if n == 0 then 0.0 else Series(base, n - 1) + Doubled(base, n - 1)
  }

  lemma {:induction false} DoubledIsPower(base: real, n: nat)
    ensures Doubled(base, n) == base * Pow2(n)
  {
    if n > 0 {
      DoubledIsPower(base, n - 1);
    }
  }

  lemma {:induction false} SeriesIsClosed(base: real, n: nat)
    ensures Series(base, n) == base * (Pow2(n) - 1.0)
  {
    if n > 0 {
      SeriesIsClosed(base, n - 1);
      DoubledIsPower(base, n - 1);
    }
  }

  lemma {:induction false} DoubledMonotone(a: real, b: real, n: nat)
    requires 1.0 <= a <= b
    ensures 1.0 <= Doubled(a, n) <= Doubled(b, n)
  {
    if n > 0 {
      DoubledMonotone(a, b, n - 1);
    }
  }

  lemma {:induction false} SeriesMonotone(base: real, m: nat, n: nat)
    requires m <= n && base >= 1.0
    ensures 0.0 <= Series(base, m) <= Series(base, n)
    decreases n
  {
    if n > 0 {
      SeriesMonotone(base, if m == n then m - 1 else m, n - 1);
      DoubledMonotone(base, base, n - 1);
    }
  }

  lemma DelayAtMost(retry: Retry, limit: real)
    requires retry.attempt >= 1 && retry.base <= limit && limit >= 1.0
    ensures 1.0 <= DelayOf(retry) <= 3600.0
    ensures DelayOf(retry) <= Doubled(limit, retry.attempt - 1)
  {
    DoubledIsPower(Max(1.0, retry.base), retry.attempt - 1);
    DoubledMonotone(Max(1.0, retry.base), limit, retry.attempt - 1);
  }

  /** Delays bounded by the terms of the series at increasing indices stay below its sum. */
  lemma {:induction false} SeriesBound(attempts: seq<int>, delays: seq<real>, top: nat, limit: real)
    requires |attempts| == |delays| && limit >= 1.0
    requires forall i, j :: 0 <= i < j < |attempts| ==> attempts[i] < attempts[j]
    requires forall i :: 0 <= i < |attempts| ==> 1 <= attempts[i] <= top
    requires forall i :: 0 <= i < |delays| ==> delays[i] <= 3600.0 && delays[i] <= Doubled(limit, attempts[i] - 1)
    ensures Sum(delays) <= Series(limit, top)
    ensures Sum(delays) <= 3600.0 * (top as real)
  {
    if delays == [] {
      SeriesMonotone(limit, 0, top);
    } else {
      var n := |delays| - 1;
      var a := attempts[n];
      SeriesBound(attempts[..n], delays[..n], a - 1, limit);
      SeriesMonotone(limit, a, top);
      assert Series(limit, a) == Series(limit, a - 1) + Doubled(limit, a - 1);
    }
  }

  /** The bound for the retries of one item. */
  lemma DelaysSumToLess(retries: seq<Retry>, top: nat, limit: real)
    requires Increasing(retries, top) && limit >= 1.0 && RetriesAtMost(retries, limit)
    ensures Sum(Delays(retries)) <= Series(limit, top)
    ensures Sum(Delays(retries)) <= 3600.0 * (top as real)
    ensures forall i :: 0 <= i < |retries| ==> 1.0 <= Delays(retries)[i] <= 3600.0
  {
    var attempts := seq(|retries|, i requires 0 <= i < |retries| => retries[i].attempt);
    var delays := Delays(retries);
    forall i | 0 <= i < |retries|
      ensures 1.0 <= delays[i] <= 3600.0 && delays[i] <= Doubled(limit, attempts[i] - 1)
    {
      DelayAtMost(retries[i], limit);
    }
    SeriesBound(attempts, delays, top, limit);
  }

  /** Every base delay used in the run is at most `limit`. */
  predicate BasesAtMost(e: Event, limit: real) {
    e.Fail? ==> e.base <= limit
  }

  predicate RetriesAtMost(retries: seq<Retry>, limit: real) {
    forall i :: 0 <= i < |retries| ==> retries[i].base <= limit
  }

  lemma StepBasesAtMost(w: World, e: Event, limit: real, id: string)
    requires RetriesAtMost(LifeOf(w, id).retries, limit) && BasesAtMost(e, limit)
    ensures RetriesAtMost(LifeOf(Step(w, e), id).retries, limit)
  {
  }

  lemma {:induction false} RetryBasesAtMost(es: seq<Event>, limit: real, id: string)
    requires forall i :: 0 <= i < |es| ==> BasesAtMost(es[i], limit)
    ensures RetriesAtMost(LifeOf(Run(Initial(), es), id).retries, limit)
  {
    if es != [] {
      RetryBasesAtMost(es[..|es| - 1], limit, id);
      StepBasesAtMost(Run(Initial(), es[..|es| - 1]), es[|es| - 1], limit, id);
    }
  }

  lemma LifeInRun(es: seq<Event>, limit: real, id: string) returns (item: Item, life: Life)
    requires id in Run(Initial(), es).table
    requires forall i :: 0 <= i < |es| ==> ProperEvent(es[i]) && BasesAtMost(es[i], limit)
    ensures item == Run(Initial(), es).table[id] && life == LifeOf(Run(Initial(), es), id)
    ensures GoodItem(item, life) && RetriesAtMost(life.retries, limit)
  {
    RunKeepsInv(Initial(), es);
    assert Fine(Run(Initial(), es), id);
    RetryBasesAtMost(es, limit, id);
    item, life := Run(Initial(), es).table[id], LifeOf(Run(Initial(), es), id);
  }

  /** Delays of one second to one hour each, within both bounds on their sum. */
  predicate WithinBackoff(delays: seq<real>, limit: real, retries: nat) {
    && (forall i :: 0 <= i < |delays| ==> 1.0 <= delays[i] <= 3600.0)
    && Sum(delays) <= Series(limit, retries)
    && Sum(delays) <= 3600.0 * (retries as real)
  }

  lemma LifeBound(item: Item, life: Life, limit: real)
    requires GoodItem(item, life) && RetriesAtMost(life.retries, limit) && limit >= 1.0
    ensures WithinBackoff(Delays(life.retries), limit, item.content.maxAttempts - 1)
  {
    DelaysSumToLess(life.retries, item.content.maxAttempts - 1, limit);
  }

  /**
   Backoff bound: the delays scheduled for one item between requeues are each between one
   second and one hour, and sum to at most both `B * (2^(max-1) - 1)` (by `SeriesIsClosed`)
   and `3600 * (max-1)`.
   */
  lemma BackoffBound(es: seq<Event>, limit: real, id: string) returns (item: Item, life: Life)
    requires limit >= 1.0 && id in Run(Initial(), es).table
    requires forall i :: 0 <= i < |es| ==> ProperEvent(es[i]) && BasesAtMost(es[i], limit)
    ensures item == Run(Initial(), es).table[id] && life == LifeOf(Run(Initial(), es), id)
    ensures item.content.maxAttempts >= 1
    ensures WithinBackoff(Delays(life.retries), limit, item.content.maxAttempts - 1)
  {
    item, life := LifeInRun(es, limit, id);
    LifeBound(item, life, limit);
  }

  // ---- Fixed payloads and absorbing states ----

  /** `b` is `a` later on: same content, and sent stays sent, unchanged once projected. */
  predicate Evolves(a: Item, b: Item) {
    && b.content == a.content
    && (a.status == Sent ==> b == a.(projectedAt := b.projectedAt))
    && (a.status == Sent && a.projectedAt > 0.0 ==> b == a)
  }

  lemma WorkerEvolves(w: World, e: Event, id: string)
    requires id in w.table && (e.Expire? || e.Deliver? || e.Fail?)
    requires e.channel in w.held ==> HeldItem(w, e.channel)
    ensures id in Step(w, e).table && Evolves(w.table[id], Step(w, e).table[id])
    ensures w.table[id].status == Failed ==> Step(w, e).table[id].status == Failed
  {
  }

  lemma OthersEvolve(w: World, e: Event, id: string)
    requires id in w.table && w.table[id].projectedAt >= 0.0
    requires e.Recover? || e.Claim? || e.RequeueFailed? || e.Project? || e.Crash?
    ensures id in Step(w, e).table && Evolves(w.table[id], Step(w, e).table[id])
    ensures w.table[id].status == Failed && Step(w, e).table[id].status != Failed
            ==> e.RequeueFailed? && e.id == id && !Expired(w.table[id].content, e.now)
  {
  }

  lemma StepEvolves(w: World, e: Event, id: string)
    requires Inv(w) && id in w.table
    ensures id in Step(w, e).table && Evolves(w.table[id], Step(w, e).table[id])
    ensures w.table[id].status == Failed && Step(w, e).table[id].status != Failed
            ==> e.RequeueFailed? && e.id == id && !Expired(w.table[id].content, e.now)
  {
    assert Fine(w, id);
    if e.Enqueue? {
      EnqueueSpares(w, e.rows, id);
    } else if e.Expire? || e.Deliver? || e.Fail? {
      assert e.channel in w.held ==> HeldItem(w, e.channel);
      WorkerEvolves(w, e, id);
    } else {
      OthersEvolve(w, e, id);
    }
  }

  /** A failed item leaves that state exactly by an explicit requeue before its deadline. */
  lemma FailedLeavesOnlyByRequeue(w: World, e: Event, id: string)
    requires Inv(w) && id in w.table && w.table[id].status == Failed
    ensures id in Step(w, e).table
    ensures Step(w, e).table[id].status != Failed
            <==> e.RequeueFailed? && e.id == id && !Expired(w.table[id].content, e.now)
  {
    StepEvolves(w, e, id);
  }

  lemma PrefixStep(w: World, es: seq<Event>, i: nat)
    requires i < |es|
    ensures Run(w, es[..i + 1]) == Step(Run(w, es[..i]), es[i])
  {
    assert es[..i + 1][..i] == es[..i];
  }

  lemma StaysEvolved(w: World, e: Event, id: string, a: Item)
    requires Inv(w) && id in w.table && Evolves(a, w.table[id])
    ensures id in Step(w, e).table && Evolves(a, Step(w, e).table[id])
  {
    StepEvolves(w, e, id);
  }

  lemma NextEvolves(es: seq<Event>, j: nat, id: string, a: Item)
    requires j < |es| && forall k :: 0 <= k < |es| ==> ProperEvent(es[k])
    requires id in Run(Initial(), es[..j]).table && Evolves(a, Run(Initial(), es[..j]).table[id])
    ensures id in Run(Initial(), es[..j + 1]).table && Evolves(a, Run(Initial(), es[..j + 1]).table[id])
  {
    RunKeepsInv(Initial(), es[..j]);
    StaysEvolved(Run(Initial(), es[..j]), es[j], id, a);
    PrefixStep(Initial(), es, j);
  }

  /**
   Channel, batch, peer, kind, payload, deadline and maximum of a stored item never change;
   a sent item stays sent, and is never written again once projected.
   */
  lemma ContentFixed(es: seq<Event>, i: nat, j: nat, id: string)
    requires i <= j <= |es| && forall k :: 0 <= k < |es| ==> ProperEvent(es[k])
    requires id in Run(Initial(), es[..i]).table
    ensures id in Run(Initial(), es[..j]).table
    ensures Evolves(Run(Initial(), es[..i]).table[id], Run(Initial(), es[..j]).table[id])
  {
    LaterEvolves(es, i, j, id, Run(Initial(), es[..i]).table[id]);
  }

  lemma {:induction false} LaterEvolves(es: seq<Event>, i: nat, j: nat, id: string, a: Item)
    requires i <= j <= |es| && forall k :: 0 <= k < |es| ==> ProperEvent(es[k])
    requires id in Run(Initial(), es[..i]).table && Evolves(a, Run(Initial(), es[..i]).table[id])
    ensures id in Run(Initial(), es[..j]).table && Evolves(a, Run(Initial(), es[..j]).table[id])
    decreases j - i
  {
    if i < j {
      NextEvolves(es, i, id, a);
      LaterEvolves(es, i + 1, j, id, a);
    }
  }

  /** An accepted envelope is one proper step of the machine; a refused one leaves the table as it was. */
  lemma EnqueueIsStep(w: World, env: Envelope, now: real)
    ensures ProperEvent(Enqueue(Items(env, now)))
    ensures Enqueued(w.table, env, now).Ok? ==>
              Step(w, Enqueue(Items(env, now))) == w.(table := Enqueued(w.table, env, now).value)
    ensures Enqueued(w.table, env, now) == Raised(RuntimeError) ==> Step(w, Enqueue(Items(env, now))) == w
  {
    ItemsBrandnew(env, now);
  }

  /**
   Enqueueing rows with different keys raises exactly when a key is already taken by a
   different request; otherwise it leaves every stored item untouched, adds nothing but
   requested rows, and leaves every requested item stored under its key.
   */
  lemma RowsNeverOverwrite(t: Table, news: seq<(string, Item)>)
    requires forall i, j :: 0 <= i < j < |news| ==> news[i].0 != news[j].0
    requires !Conflicts(t, news)
    ensures forall id :: id in t ==> id in InsertAll(t, news) && InsertAll(t, news)[id] == t[id]
    ensures forall i :: 0 <= i < |news| ==>
              news[i].0 in InsertAll(t, news)
              && SameRequest(InsertAll(t, news)[news[i].0].content, news[i].1.content)
    ensures forall id :: id in InsertAll(t, news) && id !in t ==> (id, InsertAll(t, news)[id]) in news
  {
    InsertAllHolds(t, news);
    forall i | 0 <= i < |news|
      ensures SameRequest(InsertAll(t, news)[news[i].0].content, news[i].1.content)
    {
      if news[i].0 in t {
        assert !Clashes(t, news[i]);
      } else {
        var j :| 0 <= j < |news| && news[j] == (news[i].0, InsertAll(t, news)[news[i].0]);
        assert i == j;
      }
    }
  }

  /** The same for the items of an envelope. */
  lemma EnqueueNeverOverwrites(t: Table, env: Envelope, now: real)
    requires env.channel != "" && env.peerId != ""
    ensures Conflicts(t, Items(env, now)) ==> Enqueued(t, env, now) == Raised(RuntimeError)
    ensures !Conflicts(t, Items(env, now)) ==>
              var news := Items(env, now);
              var after := InsertAll(t, news);
              && Enqueued(t, env, now) == Ok(after)
              && (forall id :: id in t ==> id in after && after[id] == t[id])
              && (forall i :: 0 <= i < |news| ==>
                    news[i].0 in after && SameRequest(after[news[i].0].content, news[i].1.content))
              && (forall id :: id in after && id !in t ==> (id, after[id]) in news)
  {
    ItemKeysDiffer(env, now);
    if !Conflicts(t, Items(env, now)) {
      RowsNeverOverwrite(t, Items(env, now));
    }
  }

  // ---- Projection ----

  /** Marking a handed-out batch stamps each of its items, all of them sent. */
  lemma MarkingStamps(t: Table, id: string, batchId: string, at: real)
    requires id in t && t[id].content.batchId == batchId && t[id].projectedAt >= 0.0 && at > 0.0
    ensures id in MarkProjected(t, batchId, at)
    ensures MarkProjected(t, batchId, at)[id].projectedAt > 0.0
    ensures MarkProjected(t, batchId, at)[id].status == t[id].status
    ensures MarkProjected(t, batchId, at)[id].content == t[id].content
  {
  }

  /**
   A batch handed out as complete at `i` and marked projected at `k` is never handed out on
   that channel again, whatever happens in between and afterwards.
   */
  lemma ProjectedOnce(es: seq<Event>, i: nat, k: nat, j: nat, channel: string, batchId: string)
    requires i <= k < j <= |es| && forall n :: 0 <= n < |es| ==> ProperEvent(es[n])
    requires HandedOut(Run(Initial(), es[..i]).table, channel, batchId)
    requires es[k].Project? && es[k].batchId == batchId
    ensures !HandedOut(Run(Initial(), es[..j]).table, channel, batchId)
  {
    var id :| id in Run(Initial(), es[..i]).table && InBatch(Run(Initial(), es[..i]).table[id], channel, batchId);
    ContentFixed(es, i, k, id);
    var before := Run(Initial(), es[..k]);
    assert Fine(before, id) by {
      RunKeepsInv(Initial(), es[..k]);
    }
    MarkingStamps(before.table, id, batchId, es[k].at);
    PrefixStep(Initial(), es, k);
    ContentFixed(es, k + 1, j, id);
  }
}
