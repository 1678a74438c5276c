/**
 At-most-once effects over every interleaving of invocations, with crashes, expired leases and
 the purges of retention.
 */
module EffectTheorems {
  import opened Values
  import opened Effects

  /** The invocation has acquired the reservation and not given it back. */
  predicate Holds(c: Invocation) {
    c.started || !(c.pc.Start? || Ended(c.pc))
  }

  /** A handler outcome can only be known after the handler was called. */
  predicate Consistent(c: Invocation) {
    && ((c.pc.InHandler? || c.pc.HandlerRaised? || c.pc.Finished? || c.pc.AuditFailed? || c.pc.Settled?
         || c.pc.Returned? || c.raised) ==> c.started)
    && ((c.pc in {Start, Reserved, Granted, Abandoning, Prepared} || c.pc.Replayed?) ==> !c.started)
    && (c.pc.HandlerRaised? ==> c.raised)
    && (c.raised ==> !c.pc.InHandler? && !c.pc.Returned?)
  }

  /** Once `fail` has run for a handler that raised, the invocation owns no active row. */
  predicate Disowned(rows: Journal, c: Invocation) {
    c.raised && (c.pc.Finished? || c.pc.AuditFailed? || c.pc.Settled?) ==> !Owns(rows, c.key, c.owner)
  }

  /** The row of the key is there and was inserted by an invocation, which completed it if it is completed. */
  ghost predicate RowOwned(s: System, k: string)
    requires k in s.rows
  {
    exists i :: i in s.calls && s.calls[i].key == k && s.calls[i].owner == s.rows[k].owner
                && s.calls[i].run == s.rows[k].run && s.calls[i].pc != Start
                && (s.rows[k].status == Completed ==> s.calls[i].pc == Returned(s.rows[k].result))
  }

  ghost predicate OwnersDiffer(s: System) {
    forall i, j :: i in s.calls && j in s.calls && s.calls[i].owner == s.calls[j].owner ==> i == j
  }

  ghost predicate Inv(s: System) {
    && OwnersDiffer(s)
    && (forall i :: i in s.calls ==> Consistent(s.calls[i]) && Disowned(s.rows, s.calls[i]))
    && (forall k :: k in s.rows ==> !s.rows[k].status.Foreign? && RowOwned(s, k))
  }

  /** What one action does to the row of any key. */
  lemma RowChanges(rows: Journal, c: Invocation, a: Action, k: string)
    requires k in rows && !rows[k].status.Foreign?
    ensures k !in RowsAfter(rows, c, a) ==> c.key == k && c.pc.Abandoning? && rows[k].owner == c.owner
    ensures k in RowsAfter(rows, c, a) ==>
              RowsAfter(rows, c, a)[k].owner == rows[k].owner && RowsAfter(rows, c, a)[k].run == rows[k].run
    ensures rows[k].status != Active ==> k in RowsAfter(rows, c, a) && RowsAfter(rows, c, a)[k] == rows[k]
  {
  }

  /** Where a row comes from: it was there, was inserted by a reservation, or was just completed. */
  lemma RowOrigin(rows: Journal, c: Invocation, a: Action, k: string)
    requires k in RowsAfter(rows, c, a) && forall x :: x in rows ==> !rows[x].status.Foreign?
    ensures var row := RowsAfter(rows, c, a)[k];
            || (k in rows && row.owner == rows[k].owner && row.run == rows[k].run
                && (row.status == Completed ==> row == rows[k]))
            || (k !in rows && c.key == k && c.pc == Start && a.Reserve? && row.owner == c.owner && row.run == c.run
                && row.status == Active)
            || (k in rows && c.key == k && c.pc.Settled? && a.Complete? && Owns(rows, k, c.owner)
                && row.owner == c.owner && row.run == rows[k].run && row.status == Completed && row.result ==
                    c.pc.result)
    ensures !RowsAfter(rows, c, a)[k].status.Foreign?
  {
  }

  lemma ActKeepsRow(s: System, i: nat, a: Action, k: string)
    requires Inv(s) && i in s.calls && k in Step(s, Act(i, a)).rows
    ensures !Step(s, Act(i, a)).rows[k].status.Foreign? && RowOwned(Step(s, Act(i, a)), k)
  {
    var s', c := Step(s, Act(i, a)), s.calls[i];
    RowOrigin(s.rows, c, a, k);
    if k in s.rows {
      var j :| j in s.calls && s.calls[j].key == k && s.calls[j].owner == s.rows[k].owner
               && s.calls[j].run == s.rows[k].run && s.calls[j].pc != Start
               && (s.rows[k].status == Completed ==> s.calls[j].pc == Returned(s.rows[k].result));
      PcMoves(s.rows, s.calls[j], a);
      assert s'.calls[j].key == k && s'.calls[j].owner == s.rows[k].owner;
      assert s'.calls[j].pc != Start && s'.calls[j].run == s.rows[k].run;
    } else {
      assert s'.calls[i].pc != Start;
    }
  }

  /** A call never returns to its start, and a result stays. */
  lemma PcMoves(rows: Journal, c: Invocation, a: Action)
    ensures c.pc != Start ==> PcAfter(rows, c, a) != Start
    ensures Ended(c.pc) ==> PcAfter(rows, c, a) == c.pc
    ensures CallAfter(rows, c, a).key == c.key && CallAfter(rows, c, a).owner == c.owner && CallAfter(rows, c, a).run
        == c.run
  {
  }

  /** No invocation gains an active row but by its own reservation. */
  lemma OwnsNeedsReservation(rows: Journal, c: Invocation, a: Action, key: string, owner: string)
    requires forall k :: k in rows ==> !rows[k].status.Foreign?
    requires Owns(RowsAfter(rows, c, a), key, owner) && !Owns(rows, key, owner)
    ensures c.owner == owner && c.pc == Start
  {
  }

  lemma ActKeepsCall(s: System, i: nat, a: Action, j: nat)
    requires Inv(s) && i in s.calls && j in s.calls
    ensures var s' := Step(s, Act(i, a));
            j in s'.calls && Consistent(s'.calls[j]) && Disowned(s'.rows, s'.calls[j])
  {
    var c, d := s.calls[i], s.calls[j];
    assert Consistent(d) && Disowned(s.rows, d);
    if i == j {
      OwnDisowned(s.rows, c, a);
    } else if Owns(RowsAfter(s.rows, c, a), d.key, d.owner) && !Owns(s.rows, d.key, d.owner) {
      OwnsNeedsReservation(s.rows, c, a, d.key, d.owner);
    }
  }

  lemma OwnDisowned(rows: Journal, c: Invocation, a: Action)
    requires Consistent(c) && Disowned(rows, c) && forall k :: k in rows ==> !rows[k].status.Foreign?
    ensures Consistent(CallAfter(rows, c, a)) && Disowned(RowsAfter(rows, c, a), CallAfter(rows, c, a))
  {
  }

  lemma ActKeepsInv(s: System, i: nat, a: Action)
    requires Inv(s) && i in s.calls
    ensures Inv(Step(s, Act(i, a)))
  {
    var s' := Step(s, Act(i, a));
    forall k | k in s'.rows ensures !s'.rows[k].status.Foreign? && RowOwned(s', k) { ActKeepsRow(s, i, a, k); }
    forall j | j in s'.calls ensures Consistent(s'.calls[j]) && Disowned(s'.rows, s'.calls[j]) {
      ActKeepsCall(s, i, a, j);
    }
  }

  lemma StepKeepsInv(s: System, e: Event)
    requires Inv(s)
    ensures Inv(Step(s, e))
  {
    if e.Act? && e.i in s.calls {
      ActKeepsInv(s, e.i, e.action);
    } else if !e.Act? {
      var s' := Step(s, e);
      forall k | k in s'.rows ensures RowOwned(s', k) { OtherKeepsRow(s, e, k); }
      forall i | i in s'.calls ensures Consistent(s'.calls[i]) && Disowned(s'.rows, s'.calls[i]) {
        assert i in s.calls ==> Consistent(s.calls[i]) && Disowned(s.rows, s.calls[i]);
      }
    }
  }

  lemma OtherKeepsRow(s: System, e: Event, k: string)
    requires !e.Act? && k in s.rows && RowOwned(s, k) && k in Step(s, e).rows
    ensures RowOwned(Step(s, e), k)
  {
    var j :| j in s.calls && s.calls[j].key == k && s.calls[j].owner == s.rows[k].owner
             && s.calls[j].run == s.rows[k].run && s.calls[j].pc != Start
             && (s.rows[k].status == Completed ==> s.calls[j].pc == Returned(s.rows[k].result));
    assert Step(s, e).calls[j] == s.calls[j];
  }

  lemma {:induction false} RunKeepsInv(es: seq<Event>)
    ensures Inv(Run(Initial(), es))
  {
    if es != [] {
      RunKeepsInv(es[..|es| - 1]);
      StepKeepsInv(Run(Initial(), es[..|es| - 1]), es[|es| - 1]);
    }
  }

  /** The state before event `i` of a run from the empty journal. */
  ghost function At(es: seq<Event>, i: nat): System
    requires i <= |es|
  {
    Run(Initial(), es[..i])
  }

  lemma AtNext(es: seq<Event>, i: nat)
    requires i < |es|
    ensures At(es, i + 1) == Step(At(es, i), es[i])
    ensures Inv(At(es, i))
  {
    assert es[..i + 1][..i] == es[..i];
    RunKeepsInv(es[..i]);
  }

  lemma AtEnd(es: seq<Event>)
    ensures At(es, |es|) == Run(Initial(), es) && Inv(Run(Initial(), es))
  {
    assert es[..|es|] == es;
    RunKeepsInv(es);
  }

  lemma {:induction false} CallStays(es: seq<Event>, i: nat, j: nat, c: nat)
    requires i <= j <= |es| && c in At(es, i).calls
    ensures c in At(es, j).calls && At(es, j).calls[c].key == At(es, i).calls[c].key
    ensures At(es, j).calls[c].owner == At(es, i).calls[c].owner
    ensures At(es, i).calls[c].pc != Start ==> At(es, j).calls[c].pc != Start
    ensures At(es, i).calls[c].started ==> At(es, j).calls[c].started
    decreases j - i
  {
    if i < j {
      AtNext(es, i);
      if es[i].Act? && es[i].i == c { PcMoves(At(es, i).rows, At(es, i).calls[c], es[i].action); }
      CallStays(es, i + 1, j, c);
    }
  }

  // ---- Purges ----

  /** Retention deletes the row of the key. */
  predicate Purges(s: System, e: Event, key: string) {
    e.Purge? && key in s.rows && s.rows[key].run == e.run
  }

  /** Some event from `i` up to `j` deletes the row of the key. */
  ghost predicate PurgedIn(es: seq<Event>, i: nat, j: nat, key: string)
    requires j <= |es|
    decreases j - i
  {
    i < j && (Purges(At(es, i), es[i], key) || PurgedIn(es, i + 1, j, key))
  }

  lemma {:induction false} PurgedWider(es: seq<Event>, i: nat, m: nat, n: nat, j: nat, key: string)
    requires i <= m <= n <= j <= |es| && PurgedIn(es, m, n, key)
    ensures PurgedIn(es, i, j, key)
    decreases j - i
  {
    if i < m {
      PurgedWider(es, i + 1, m, n, j, key);
    } else if !Purges(At(es, m), es[m], key) {
      PurgedWider(es, i + 1, m + 1, n, j, key);
    }
  }

  /** A purged key is free again: the next reservation of it is acquired. */
  lemma PurgeFrees(s: System, run: string, key: string, now: real)
    requires Purges(s, Purge(run), key)
    ensures ReserveOutcome(Step(s, Purge(run)).rows, key, now) == Acquired
  {
  }

  // ---- Settled rows ----

  predicate Settled(rows: Journal, k: string) {
    k in rows && rows[k].status in {Completed, Uncertain}
  }

  lemma StepOnSettled(s: System, e: Event, k: string)
    requires Inv(s) && Settled(s.rows, k)
    ensures Purges(s, e, k) ==> Gone(Step(s, e), k, s.rows[k].owner)
    ensures !Purges(s, e, k) ==> k in Step(s, e).rows && Step(s, e).rows[k] == s.rows[k]
  {
    if e.Act? && e.i in s.calls {
      RowChanges(s.rows, s.calls[e.i], e.action, k);
    } else if Purges(s, e, k) {
      assert RowOwned(s, k);
    }
  }

  /** The owner of a deleted row: its reservation is behind it, so it never owns a row of the key again. */
  ghost predicate Gone(s: System, k: string, owner: string) {
    && (exists i :: i in s.calls && s.calls[i].owner == owner && s.calls[i].pc != Start)
    && (k in s.rows ==> s.rows[k].owner != owner)
  }

  lemma StaysGone(s: System, e: Event, k: string, owner: string)
    requires Inv(s) && Gone(s, k, owner)
    ensures Gone(Step(s, e), k, owner)
  {
    var i :| i in s.calls && s.calls[i].owner == owner && s.calls[i].pc != Start;
    if e.Act? && e.i in s.calls {
      PcMoves(s.rows, s.calls[i], e.action);
      if k in RowsAfter(s.rows, s.calls[e.i], e.action) {
        RowOrigin(s.rows, s.calls[e.i], e.action, k);
      }
    }
    assert i in Step(s, e).calls && Step(s, e).calls[i].owner == owner && Step(s, e).calls[i].pc != Start;
  }

  lemma {:induction false} GoneForever(es: seq<Event>, i: nat, j: nat, k: string, owner: string)
    requires i <= j <= |es| && Gone(At(es, i), k, owner)
    ensures Gone(At(es, j), k, owner)
    decreases j - i
  {
    if i < j {
      AtNext(es, i);
      StaysGone(At(es, i), es[i], k, owner);
      GoneForever(es, i + 1, j, k, owner);
    }
  }

  /** A completed or uncertain row is still there, unchanged, if and only if retention has not deleted it. */
  lemma {:induction false} SettledUnlessPurged(es: seq<Event>, i: nat, j: nat, k: string)
    requires i <= j <= |es| && Settled(At(es, i).rows, k)
    ensures k in At(es, j).rows && At(es, j).rows[k] == At(es, i).rows[k] <==> !PurgedIn(es, i, j, k)
    decreases j - i
  {
    if i < j {
      AtNext(es, i);
      StepOnSettled(At(es, i), es[i], k);
      if Purges(At(es, i), es[i], k) {
        GoneForever(es, i + 1, j, k, At(es, i).rows[k].owner);
      } else {
        SettledUnlessPurged(es, i + 1, j, k);
      }
    }
  }

  /** Until then every later reservation of a completed key replays exactly the stored result. */
  lemma CompletedReplays(es: seq<Event>, i: nat, j: nat, call: nat, key: string, lease: real, now: real)
    requires i <= j <= |es| && call in At(es, j).calls
    requires At(es, j).calls[call].pc == Start && At(es, j).calls[call].key == key
    requires key in At(es, i).rows && At(es, i).rows[key].status == Completed && !PurgedIn(es, i, j, key)
    ensures Step(At(es, j), Act(call, Reserve(lease, now))).calls[call].pc == Replayed(At(es, i).rows[key].result)
  {
    SettledUnlessPurged(es, i, j, key);
  }

  // ---- At most once ----

  /** Event `m` is the reservation by which invocation `c` acquires the key. */
  ghost predicate AcquiresAt(es: seq<Event>, m: nat, c: nat, key: string) {
    && m < |es|
    && es[m].Act? && es[m].i == c && es[m].action.Reserve?
    && var s := At(es, m);
       c in s.calls && s.calls[c].key == key && s.calls[c].pc == Start
       && ReserveOutcome(s.rows, key, es[m].action.now) == Acquired
  }

  /** The row of the invocation's key is the one it inserted. */
  predicate Attached(s: System, c: nat) {
    c in s.calls && s.calls[c].key in s.rows && s.rows[s.calls[c].key].owner == s.calls[c].owner
  }

  lemma StepKeepsAttached(s: System, e: Event, c: nat)
    requires Inv(s) && Attached(s, c) && c in Step(s, e).calls && Holds(s.calls[c]) && Holds(Step(s, e).calls[c])
    ensures Purges(s, e, s.calls[c].key) || Attached(Step(s, e), c)
  {
    if e.Act? && e.i in s.calls {
      RowChanges(s.rows, s.calls[e.i], e.action, s.calls[c].key);
    }
  }

  lemma HeldBefore(s: System, e: Event, c: nat)
    requires c in s.calls && s.calls[c].pc != Start && c in Step(s, e).calls && Holds(Step(s, e).calls[c])
    ensures Holds(s.calls[c])
  {
  }

  lemma {:induction false} HeldEarlier(es: seq<Event>, i: nat, j: nat, c: nat)
    requires i <= j <= |es| && c in At(es, i).calls && At(es, i).calls[c].pc != Start
    requires c in At(es, j).calls && Holds(At(es, j).calls[c])
    ensures Holds(At(es, i).calls[c])
    decreases j - i
  {
    if i < j {
      CallStays(es, i, i + 1, c);
      HeldEarlier(es, i + 1, j, c);
      AtNext(es, i);
      HeldBefore(At(es, i), es[i], c);
    }
  }

  /** An invocation that still holds at `j` has its row there, unless the row was purged. */
  lemma {:induction false} AttachedFate(es: seq<Event>, i: nat, j: nat, c: nat, key: string)
    requires i <= j <= |es| && Attached(At(es, i), c) && At(es, i).calls[c].key == key && At(es, i).calls[c].pc != Start
    requires c in At(es, j).calls && Holds(At(es, j).calls[c])
    ensures PurgedIn(es, i, j, key) || Attached(At(es, j), c)
    decreases j - i
  {
    if i < j && !Purges(At(es, i), es[i], key) {
      HeldEarlier(es, i, j, c);
      CallStays(es, i, i + 1, c);
      HeldEarlier(es, i + 1, j, c);
      AtNext(es, i);
      StepKeepsAttached(At(es, i), es[i], c);
      AttachedFate(es, i + 1, j, c, key);
    }
  }

  lemma AcquiredRow(es: seq<Event>, m: nat, c: nat, key: string)
    requires AcquiresAt(es, m, c, key)
    ensures key !in At(es, m).rows
    ensures Attached(At(es, m + 1), c) && At(es, m + 1).calls[c].key == key && At(es, m + 1).calls[c].pc != Start
  {
    AtNext(es, m);
  }

  /**
   If an invocation acquires a key and holds it or has started its handler later on, a second
   acquisition in between is preceded by a purge of the key.
   */
  lemma ReservationsNeedPurge(es: seq<Event>, m: nat, n: nat, t: nat, c: nat, d: nat, key: string)
    requires m < n <= t <= |es| && AcquiresAt(es, m, c, key) && AcquiresAt(es, n, d, key)
    requires c in At(es, t).calls && Holds(At(es, t).calls[c])
    ensures PurgedIn(es, m + 1, n, key)
  {
    AcquiredRow(es, m, c, key);
    AcquiredRow(es, n, d, key);
    CallStays(es, m + 1, n, c);
    HeldEarlier(es, n, t, c);
    AttachedFate(es, m + 1, n, c, key);
  }

  /** Whoever holds a key acquired it. */
  lemma {:induction false} ReservationOf(es: seq<Event>, j: nat, c: nat) returns (m: nat)
    requires j <= |es| && c in At(es, j).calls && Holds(At(es, j).calls[c])
    ensures m < j && AcquiresAt(es, m, c, At(es, j).calls[c].key)
    decreases j
  {
    assert j > 0;
    AtNext(es, j - 1);
    var s := At(es, j - 1);
    if c in s.calls && s.calls[c].pc != Start {
      HeldBefore(s, es[j - 1], c);
      m := ReservationOf(es, j - 1, c);
      CallStays(es, j - 1, j, c);
    } else {
      NewHolder(s, es[j - 1], c);
      m := j - 1;
    }
  }

  lemma NewHolder(s: System, e: Event, c: nat)
    requires Inv(s) && c in Step(s, e).calls && Holds(Step(s, e).calls[c])
    requires c in s.calls ==> s.calls[c].pc == Start
    ensures e.Act? && e.i == c && c in s.calls && e.action.Reserve?
    ensures ReserveOutcome(s.rows, s.calls[c].key, e.action.now) == Acquired
    ensures Step(s, e).calls[c].key == s.calls[c].key
  {
    if c in s.calls {
      assert Consistent(s.calls[c]);
    }
  }

  /** A handler of the key is called at event `k`. */
  ghost predicate StartsAt(es: seq<Event>, k: nat, key: string) {
    && k < |es|
    && es[k].Act? && es[k].action == CallHandler
    && var s := At(es, k);
       es[k].i in s.calls && s.calls[es[k].i].key == key && s.calls[es[k].i].pc == Prepared
  }

  lemma StartedAfter(es: seq<Event>, k: nat, j: nat, key: string)
    requires k < j <= |es| && StartsAt(es, k, key)
    ensures var c := es[k].i; c in At(es, j).calls && At(es, j).calls[c].started && At(es, j).calls[c].key == key
  {
    AtNext(es, k);
    CallStays(es, k + 1, j, es[k].i);
  }

  /** The callers of two handler starts of one key differ. */
  lemma StartersDiffer(es: seq<Event>, i: nat, j: nat, key: string)
    requires i < j && StartsAt(es, i, key) && StartsAt(es, j, key)
    ensures es[i].i != es[j].i
  {
    StartedAfter(es, i, j, key);
    AtNext(es, j);
    assert Consistent(At(es, j).calls[es[j].i]);
  }

  /**
   Over any run, with crashes and expired leases: if the handler of a key is called twice, the
   two callers acquired the key at two events between which retention deleted its row.
   */
  lemma StartsNeedPurge(es: seq<Event>, i: nat, j: nat, key: string) returns (m: nat, n: nat)
    requires i < j && StartsAt(es, i, key) && StartsAt(es, j, key)
    ensures m < n < j && PurgedIn(es, m + 1, n, key)
    ensures (AcquiresAt(es, m, es[i].i, key) && AcquiresAt(es, n, es[j].i, key))
            || (AcquiresAt(es, m, es[j].i, key) && AcquiresAt(es, n, es[i].i, key))
  {
    var c, d := es[i].i, es[j].i;
    StartersDiffer(es, i, j, key);
    var first := ReservationOf(es, i, c);
    var second := ReservationOf(es, j, d);
    StartedAfter(es, i, j + 1, key);
    StartedAfter(es, j, j + 1, key);
    if first < second {
      m, n := first, second;
      ReservationsNeedPurge(es, m, n, j + 1, c, d, key);
    } else {
      m, n := second, first;
      ReservationsNeedPurge(es, m, n, j + 1, d, c, key);
    }
  }

  /** So without a purge of the key its handler is called at most once, whoever the callers are. */
  lemma HandlerStartsOnce(es: seq<Event>, i: nat, j: nat, key: string)
    requires StartsAt(es, i, key) && StartsAt(es, j, key) && !PurgedIn(es, 0, |es|, key)
    ensures i == j
  {
    if i != j {
      var m, n := StartsNeedPurge(es, if i < j then i else j, if i < j then j else i, key);
      PurgedWider(es, 0, m + 1, n, |es|, key);
    }
  }

  /** Any two invocations of an unpurged key whose handler was ever started are the same invocation. */
  lemma AtMostOnce(es: seq<Event>, i: nat, j: nat, key: string)
    requires var calls := Run(Initial(), es).calls;
      && i in calls && j in calls && calls[i].key == key && calls[j].key == key
      && calls[i].started && calls[j].started
    requires !PurgedIn(es, 0, |es|, key)
    ensures i == j
  {
    AtEnd(es);
    var m := ReservationOf(es, |es|, i);
    var n := ReservationOf(es, |es|, j);
    if m < n {
      ReservationsNeedPurge(es, m, n, |es|, i, j, key);
      PurgedWider(es, 0, m + 1, n, |es|, key);
    } else if n < m {
      ReservationsNeedPurge(es, n, m, |es|, j, i, key);
      PurgedWider(es, 0, n + 1, m, |es|, key);
    }
  }

  /** The branch of `reserve` that re-acquires an existing row is unreachable: acquiring means inserting. */
  lemma AcquireOnlyInserts(es: seq<Event>, key: string, now: real)
    requires ReserveOutcome(Run(Initial(), es).rows, key, now) == Acquired
    ensures key !in Run(Initial(), es).rows
  {
    RunKeepsInv(es);
  }

  /** While an invocation holds an unpurged key, the reservation of any other invocation ends it. */
  lemma HolderExcludesOthers(es: seq<Event>, i: nat, j: nat, key: string, lease: real, now: real)
    requires var calls := Run(Initial(), es).calls;
      && i in calls && j in calls && i != j && calls[i].key == key && calls[j].key == key
      && Holds(calls[i]) && calls[j].pc == Start
    requires !PurgedIn(es, 0, |es|, key)
    ensures Ended(Step(Run(Initial(), es), Act(j, Reserve(lease, now))).calls[j].pc)
  {
    AtEnd(es);
    var m := ReservationOf(es, |es|, i);
    AcquiredRow(es, m, i, key);
    AttachedFate(es, m + 1, |es|, i, key);
    if PurgedIn(es, m + 1, |es|, key) {
      PurgedWider(es, 0, m + 1, |es|, |es|, key);
    }
  }

  // ---- Results ----

  /** An invocation that returned a result returned the stored one. */
  predicate AgreesWithRow(rows: Journal, c: Invocation) {
    c.pc.Returned? || c.pc.Replayed? ==>
      c.key in rows && rows[c.key].status == Completed && rows[c.key].result == c.pc.result
  }

  ghost predicate KeyAgrees(s: System, key: string) {
    forall i :: i in s.calls && s.calls[i].key == key ==> AgreesWithRow(s.rows, s.calls[i])
  }

  lemma ActKeepsAgreement(rows: Journal, c: Invocation, a: Action, d: Invocation)
    requires AgreesWithRow(rows, d) && forall k :: k in rows ==> !rows[k].status.Foreign?
    ensures AgreesWithRow(RowsAfter(rows, c, a), d)
    ensures d == c ==> AgreesWithRow(RowsAfter(rows, c, a), CallAfter(rows, c, a))
  {
    if d.key in rows {
      RowChanges(rows, c, a, d.key);
    }
  }

  lemma StepKeepsAgreement(s: System, e: Event, key: string)
    requires Inv(s) && KeyAgrees(s, key) && !Purges(s, e, key)
    ensures KeyAgrees(Step(s, e), key)
  {
    var s' := Step(s, e);
    forall i | i in s'.calls && s'.calls[i].key == key ensures AgreesWithRow(s'.rows, s'.calls[i]) {
      if e.Act? && e.i in s.calls {
        assert AgreesWithRow(s.rows, s.calls[i]);
        ActKeepsAgreement(s.rows, s.calls[e.i], e.action, s.calls[i]);
      }
    }
  }

  lemma {:induction false} AgreesLater(es: seq<Event>, i: nat, j: nat, key: string)
    requires i <= j <= |es| && KeyAgrees(At(es, i), key) && !PurgedIn(es, i, j, key)
    ensures KeyAgrees(At(es, j), key)
    decreases j - i
  {
    if i < j {
      AtNext(es, i);
      StepKeepsAgreement(At(es, i), es[i], key);
      AgreesLater(es, i + 1, j, key);
    }
  }

  /** Every result handed out for an unpurged key, by the call that ran the effect or by a replay, is the same. */
  lemma ResultsAgree(es: seq<Event>, i: nat, j: nat, key: string) returns (runner: nat)
    requires var calls := Run(Initial(), es).calls;
      && i in calls && j in calls && calls[i].key == key && calls[j].key == key
      && (calls[i].pc.Returned? || calls[i].pc.Replayed?) && (calls[j].pc.Returned? || calls[j].pc.Replayed?)
    requires !PurgedIn(es, 0, |es|, key)
    ensures var calls := Run(Initial(), es).calls;
      && calls[i].pc.result == calls[j].pc.result
      && runner in calls && calls[runner].key == key && calls[runner].started
      && calls[runner].pc == Returned(calls[i].pc.result)
  {
    AtEnd(es);
    assert KeyAgrees(At(es, 0), key);
    AgreesLater(es, 0, |es|, key);
    var s := Run(Initial(), es);
    assert AgreesWithRow(s.rows, s.calls[i]) && AgreesWithRow(s.rows, s.calls[j]);
    assert RowOwned(s, key);
    runner :| runner in s.calls && s.calls[runner].key == key && s.calls[runner].pc == Returned(s.rows[key].result);
    assert Consistent(s.calls[runner]);
  }

  /**
   In every interleaving an invocation whose handler raised never returns a result, nor is any row
   completed under its name.
   */
  lemma RaisedNeverCompletes(es: seq<Event>, i: nat)
    requires i in Run(Initial(), es).calls && Run(Initial(), es).calls[i].raised
    ensures !Run(Initial(), es).calls[i].pc.Returned?
    ensures var s := Run(Initial(), es);
      forall k :: k in s.rows && s.rows[k].owner == s.calls[i].owner ==> s.rows[k].status != Completed
  {
    RunKeepsInv(es);
    var s := Run(Initial(), es);
    assert Consistent(s.calls[i]);
    forall k | k in s.rows && s.rows[k].owner == s.calls[i].owner ensures s.rows[k].status != Completed {
      assert RowOwned(s, k);
    }
  }
}
