/**
 When a lease renewal holds. A renewal does not bump the version of the row, so a transition
 that read the row before it still lands and writes the expiry it read back.
 */
module LoopRunRenewals {
  import opened Values
  import opened LoopContracts
  import opened LoopRuns
  import opened LoopRunTheorems

  /** A renewal of `id` that takes effect. */
  predicate Renews(s: System, e: Event, id: RunId) {
    e.Do? && e.op.Renew? && e.op.id == id && id in s.tables.runs && CanRenew(s.tables.runs[id], e.op.owner, e.op.now)
  }

  /** The event neither stops the run nor is a release, claim or renewal that changes its lease. */
  ghost predicate Quiet(s: System, e: Event, id: RunId) {
    && id in s.tables.runs && id in Step(s, e).tables.runs
    && var r, r' := s.tables.runs[id], Step(s, e).tables.runs[id];
       && r.stop == Running && r'.stop == Running
       && (e.Do? ==> r'.leaseOwner == r.leaseOwner && r'.leaseExpiresAt == r.leaseExpiresAt)
  }

  /** Every event from `i` up to `j` is quiet. */
  ghost predicate QuietBetween(s: System, es: seq<Event>, i: nat, j: nat, id: RunId)
    requires j <= |es|
    decreases j - i
  {
    i >= j || (Quiet(Run(s, es[..i]), es[i], id) && QuietBetween(s, es, i + 1, j, id))
  }

  /** The expiry that a driver's transition read. */
  function SeenExpiry(s: System, e: Event): real
    requires e.Commit? && e.pid in s.pending
  {
    s.pending[e.pid].seen.leaseExpiresAt
  }

  /**
   A landing commit leaves a running run to its owner and moves the expiry exactly if it is a
   transition that read another one.
   */
  lemma CommitMovesExpiryIff(s: System, e: Event, id: RunId)
    requires Inv(s) && e.Commit? && Quiet(s, e, id)
    ensures var r, r' := s.tables.runs[id], Step(s, e).tables.runs[id];
            && r'.leaseOwner == r.leaseOwner
            && (r'.leaseExpiresAt != r.leaseExpiresAt
                <==> Works(s, e, id) && SeenExpiry(s, e) != r.leaseExpiresAt)
            && (Works(s, e, id) ==> r'.leaseExpiresAt == SeenExpiry(s, e) && r'.version == r.version + 1)
            && (!Works(s, e, id) ==> r' == r)
  {
    if e.pid in s.pending && Lands(s.tables, s.pending[e.pid]) {
      assert GoodPending(s.tables, s.pending[e.pid]);
    }
  }

  /**
   Nothing has touched the renewed expiry `x`: who could still land and read another one was
   pending at the renewal.
   */
  ghost predicate Standing(before: System, s: System, id: RunId, x: real) {
    && id in s.tables.runs && s.tables.runs[id].leaseExpiresAt == x
    && forall pid :: pid in s.pending && Current(s, pid, id) && s.pending[pid].seen.leaseExpiresAt != x
                     ==> pid in before.pending && before.pending[pid] == s.pending[pid]
  }

  /** The renewed expiry was overwritten by `y`, and whoever could still land read `y`. */
  ghost predicate Overwritten(s: System, id: RunId, y: real) {
    && id in s.tables.runs && s.tables.runs[id].leaseExpiresAt == y
    && forall pid :: pid in s.pending && Current(s, pid, id) ==> s.pending[pid].seen.leaseExpiresAt == y
  }

  /** The pending driver read the present version of `id`. */
  ghost predicate Current(s: System, pid: nat, id: RunId)
    requires pid in s.pending && id in s.tables.runs
  {
    s.pending[pid].id == id && s.pending[pid].seen.version == s.tables.runs[id].version
  }

  /** A transition that was pending at the renewal lands although it read another expiry. */
  ghost predicate Stale(before: System, s: System, e: Event, id: RunId, x: real) {
    && Works(s, e, id)
    && e.pid in before.pending && before.pending[e.pid] == s.pending[e.pid]
    && SeenExpiry(s, e) != x
  }

  /**
   Who is still pending after a quiet step at the present version was pending at it before, or has
   just read the row.
   */
  lemma PendingAfter(s: System, e: Event, id: RunId, pid: nat)
    requires Inv(s) && Quiet(s, e, id) && pid in Step(s, e).pending && Current(Step(s, e), pid, id)
    ensures var p, r := Step(s, e).pending[pid], s.tables.runs[id];
            || (pid in s.pending && s.pending[pid] == p && Current(s, pid, id)
                && Step(s, e).tables.runs[id].version == r.version)
            || (e.Begin? && p.seen == r)
  {
    StepKeepsRow(s, e, id);
    if pid in s.pending && s.pending[pid] == Step(s, e).pending[pid] {
      assert GoodPending(s.tables, s.pending[pid]);
    }
  }

  lemma StepStanding(before: System, s: System, e: Event, id: RunId, x: real)
    requires Inv(s) && Quiet(s, e, id) && Standing(before, s, id, x)
    ensures Stale(before, s, e, id, x) ==> Overwritten(Step(s, e), id, SeenExpiry(s, e))
    ensures !Stale(before, s, e, id, x) ==> Standing(before, Step(s, e), id, x)
  {
    if e.Commit? {
      CommitMovesExpiryIff(s, e, id);
    }
    forall pid | pid in Step(s, e).pending && Current(Step(s, e), pid, id)
      ensures Stale(before, s, e, id, x) ==> Step(s, e).pending[pid].seen.leaseExpiresAt == SeenExpiry(s, e)
      ensures !Stale(before, s, e, id, x) && Step(s, e).pending[pid].seen.leaseExpiresAt != x
              ==> pid in before.pending && before.pending[pid] == Step(s, e).pending[pid]
    {
      PendingAfter(s, e, id, pid);
    }
  }

  lemma StepOverwritten(s: System, e: Event, id: RunId, y: real)
    requires Inv(s) && Quiet(s, e, id) && Overwritten(s, id, y)
    ensures Overwritten(Step(s, e), id, y)
  {
    if e.Commit? {
      CommitMovesExpiryIff(s, e, id);
    }
    forall pid | pid in Step(s, e).pending && Current(Step(s, e), pid, id)
      ensures Step(s, e).pending[pid].seen.leaseExpiresAt == y
    {
      PendingAfter(s, e, id, pid);
    }
  }

  /** What became of the renewed expiry: still standing, or overwritten by the one a stale transition read. */
  datatype Fate = Stands | Lost(expiry: real)

  ghost predicate Holds(before: System, s: System, id: RunId, x: real, fate: Fate) {
    match fate
    case Stands => Standing(before, s, id, x)
    case Lost(y) => y != x && Overwritten(s, id, y)
  }

  /** A quiet step after a renewal. */
  lemma QuietStep(before: System, s: System, e: Event, id: RunId, x: real, fate: Fate) returns (fate': Fate)
    requires Inv(s) && Quiet(s, e, id) && Holds(before, s, id, x, fate)
    ensures Holds(before, Step(s, e), id, x, fate')
    ensures fate' == if Stale(before, s, e, id, x) then Lost(SeenExpiry(s, e)) else fate
    ensures fate.Lost? ==> fate' == fate
    ensures Step(s, e).tables.runs[id].leaseOwner == s.tables.runs[id].leaseOwner
  {
    if e.Commit? {
      CommitMovesExpiryIff(s, e, id);
    }
    match fate
    case Stands =>
      StepStanding(before, s, e, id, x);
      fate' := if Stale(before, s, e, id, x) then Lost(SeenExpiry(s, e)) else Stands;
    case Lost(y) =>
      StepOverwritten(s, e, id, y);
      if Stale(before, s, e, id, x) {
        assert Current(s, e.pid, id);
      }
      fate' := fate;
  }

  /** The expiries read by the stale transitions that landed between the renewal at `i` and `j`. */
  ghost function StaleReads(s: System, es: seq<Event>, i: nat, j: nat, id: RunId, x: real): seq<real>
    requires i < j <= |es|
  {
    if j == i + 1 then []
    else
      var now := Run(s, es[..j - 1]);
      StaleReads(s, es, i, j - 1, id, x)
      + if Stale(Run(s, es[..i]), now, es[j - 1], id, x) then [SeenExpiry(now, es[j - 1])] else []
  }

  /** Nothing was read where the renewal stands, and only the present expiry where it is lost. */
  predicate Explains(seen: seq<real>, fate: Fate) {
    match fate
    case Stands => seen == []
    case Lost(y) => seen != [] && forall k :: 0 <= k < |seen| ==> seen[k] == y
  }

  lemma ExplainsNext(seen: seq<real>, fate: Fate, read: real)
    requires Explains(seen, fate) && (fate.Lost? ==> fate.expiry == read)
    ensures Explains(seen + [read], Lost(read))
  {
  }

  /** The run is still leased to the owner that renewed. */
  ghost predicate StillHeld(s: System, id: RunId, owner: string) {
    id in s.tables.runs && s.tables.runs[id].stop == Running && s.tables.runs[id].leaseOwner == owner
  }

  lemma RenewalFate(s: System, es: seq<Event>, i: nat, j: nat, id: RunId) returns (fate: Fate)
    requires Inv(s) && i < j <= |es| && Renews(Run(s, es[..i]), es[i], id) && QuietBetween(s, es, i + 1, j, id)
    ensures Holds(Run(s, es[..i]), Run(s, es[..j]), id, RenewedUntil(es[i]), fate)
    ensures Explains(StaleReads(s, es, i, j, id, RenewedUntil(es[i])), fate)
    ensures StillHeld(Run(s, es[..j]), id, es[i].op.owner)
  {
    fate := FirstFate(s, es, i, id);
    fate := LaterFate(s, es, i, i + 1, j, id, fate);
  }

  lemma {:induction false} LaterFate(s: System, es: seq<Event>, i: nat, j: nat, m: nat, id: RunId, fate: Fate)
    returns (fate': Fate)
    requires Inv(s) && i < j <= m <= |es| && es[i].Do? && es[i].op.Renew? && QuietBetween(s, es, j, m, id)
    requires Holds(Run(s, es[..i]), Run(s, es[..j]), id, RenewedUntil(es[i]), fate)
    requires Explains(StaleReads(s, es, i, j, id, RenewedUntil(es[i])), fate)
    requires StillHeld(Run(s, es[..j]), id, es[i].op.owner)
    ensures Holds(Run(s, es[..i]), Run(s, es[..m]), id, RenewedUntil(es[i]), fate')
    ensures Explains(StaleReads(s, es, i, m, id, RenewedUntil(es[i])), fate')
    ensures StillHeld(Run(s, es[..m]), id, es[i].op.owner)
    decreases m - j
  {
    fate' := fate;
    if j < m {
      fate' := NextFate(s, es, i, j, id, fate);
      fate' := LaterFate(s, es, i, j + 1, m, id, fate');
    }
  }

  lemma RenewalTakesEffect(s: System, e: Event, id: RunId)
    requires Renews(s, e, id)
    ensures Standing(s, Step(s, e), id, RenewedUntil(e)) && StillHeld(Step(s, e), id, e.op.owner)
  {
  }

  lemma FirstFate(s: System, es: seq<Event>, i: nat, id: RunId) returns (fate: Fate)
    requires i < |es| && Renews(Run(s, es[..i]), es[i], id)
    ensures Holds(Run(s, es[..i]), Run(s, es[..i + 1]), id, RenewedUntil(es[i]), fate)
    ensures Explains(StaleReads(s, es, i, i + 1, id, RenewedUntil(es[i])), fate)
    ensures StillHeld(Run(s, es[..i + 1]), id, es[i].op.owner)
  {
    PrefixStep(s, es, i);
    RenewalTakesEffect(Run(s, es[..i]), es[i], id);
    fate := Stands;
  }

  lemma NextFate(s: System, es: seq<Event>, i: nat, j: nat, id: RunId, fate: Fate) returns (fate': Fate)
    requires Inv(s) && i < j < |es| && es[i].Do? && es[i].op.Renew? && Quiet(Run(s, es[..j]), es[j], id)
    requires Holds(Run(s, es[..i]), Run(s, es[..j]), id, RenewedUntil(es[i]), fate)
    requires Explains(StaleReads(s, es, i, j, id, RenewedUntil(es[i])), fate)
    requires StillHeld(Run(s, es[..j]), id, es[i].op.owner)
    ensures Holds(Run(s, es[..i]), Run(s, es[..j + 1]), id, RenewedUntil(es[i]), fate')
    ensures Explains(StaleReads(s, es, i, j + 1, id, RenewedUntil(es[i])), fate')
    ensures StillHeld(Run(s, es[..j + 1]), id, es[i].op.owner)
  {
    var now, x := Run(s, es[..j]), RenewedUntil(es[i]);
    RunKeepsInv(s, es[..j]);
    PrefixStep(s, es, j);
    fate' := QuietStep(Run(s, es[..i]), now, es[j], id, x, fate);
    if Stale(Run(s, es[..i]), now, es[j], id, x) {
      ExplainsNext(StaleReads(s, es, i, j, id, x), fate, SeenExpiry(now, es[j]));
    }
  }

  /** The expiry a renewal writes. */
  function RenewedUntil(e: Event): real
    requires e.Do? && e.op.Renew?
  {
    e.op.now + Max(1.0, e.op.lease)
  }

  /**
   After a renewal at `i`, and as long as nothing stops the run or changes its lease on
   purpose, the run stays with its owner, and the renewed expiry stands at `j` if and only if
   no transition that was pending at the renewal, with another expiry read, has landed since.
   */
  lemma RenewalStandsIff(s: System, es: seq<Event>, i: nat, j: nat, id: RunId)
    requires Inv(s) && i < j <= |es| && Renews(Run(s, es[..i]), es[i], id) && QuietBetween(s, es, i + 1, j, id)
    ensures StillHeld(Run(s, es[..j]), id, es[i].op.owner)
    ensures Run(s, es[..j]).tables.runs[id].leaseExpiresAt == RenewedUntil(es[i])
            <==> StaleReads(s, es, i, j, id, RenewedUntil(es[i])) == []
  {
    var fate := RenewalFate(s, es, i, j, id);
  }

  /** One of the expiries read has passed. */
  predicate SomePassed(seen: seq<real>, now: real) {
    exists k :: 0 <= k < |seen| && seen[k] <= now
  }

  /**
   What a renewal is for: before the renewed expiry another owner can take the run if and
   only if such a transition has landed and the expiry it read has passed.
   */
  lemma TakenEarlyIff(s: System, es: seq<Event>, i: nat, j: nat, id: RunId, other: string, allowPaused: bool, now: real)
    requires Inv(s) && i < j <= |es| && Renews(Run(s, es[..i]), es[i], id) && QuietBetween(s, es, i + 1, j, id)
    requires other != es[i].op.owner && es[i].op.owner != "" && now < RenewedUntil(es[i])
    ensures StillHeld(Run(s, es[..j]), id, es[i].op.owner)
    ensures CanClaim(Run(s, es[..j]).tables.runs[id], other, allowPaused, now)
            <==> SomePassed(StaleReads(s, es, i, j, id, RenewedUntil(es[i])), now)
  {
    var fate := RenewalFate(s, es, i, j, id);
    var seen := StaleReads(s, es, i, j, id, RenewedUntil(es[i]));
    EarlyClaim(Run(s, es[..i]), Run(s, es[..j]), id, RenewedUntil(es[i]), es[i].op.owner, fate, seen, other,
               allowPaused, now);
  }

  lemma EarlyClaim(before: System, s: System, id: RunId, x: real, owner: string, fate: Fate, seen: seq<real>,
                   other: string, allowPaused: bool, now: real)
    requires Holds(before, s, id, x, fate) && Explains(seen, fate) && StillHeld(s, id, owner)
    requires other != owner && owner != "" && now < x
    ensures CanClaim(s.tables.runs[id], other, allowPaused, now) <==> SomePassed(seen, now)
  {
    EarlyRead(seen, fate, now);
    ClaimNeedsExpiry(s.tables.runs[id], other, allowPaused, now);
  }

  lemma EarlyRead(seen: seq<real>, fate: Fate, now: real)
    requires Explains(seen, fate)
    ensures SomePassed(seen, now) <==> fate.Lost? && fate.expiry <= now
  {
    if fate.Lost? {
      assert seen[0] == fate.expiry;
    }
  }

  lemma ClaimNeedsExpiry(r: LoopRunState, other: string, allowPaused: bool, now: real)
    requires r.stop == Running && r.leaseOwner != "" && r.leaseOwner != other
    ensures CanClaim(r, other, allowPaused, now) <==> r.leaseExpiresAt <= now
  {
  }

  // ---- A run on which a renewal is lost ----

  const GRAPH := [Edge(Plan, ToNode(Execute), "plan_ready")]

  const ADVANCE := Advance(Execute, "c", None, "plan_ready", map[], "a")

  /** A row of the run below. */
  function Row(node: Node, checkpointId: string, at: real, version: int, owner: string, expiry: real): LoopRunState {
    LoopRunState("g", "s", node, Running, checkpointId, 1, "", [], [], map[], at, version, owner, expiry)
  }

  function Store(row: LoopRunState): Tables {
    Tables(map["r" := row], map["s" := GRAPH], map["c" := "r"])
  }

  /** Owner `a` holds the run until 12, and its transition has read the row. */
  function Reading(): System {
    var row := Row(Plan, "", 2.0, 1, "a", 12.0);
    System(Store(row), map[0 := Pending("r", ADVANCE, row, 3.0, Facts(Some(GRAPH), true))])
  }

  lemma RunNext(es: seq<Event>, e: Event)
    ensures Run(Empty(), es + [e]) == Step(Run(Empty(), es), e)
  {
    assert (es + [e])[..|es|] == es;
  }

  /** The run is reached from the empty store. */
  lemma ReadingIsReached() returns (es: seq<Event>)
    ensures Run(Empty(), es) == Reading()
  {
    var create := CreateRun("r", "s", GRAPH, "g", "", Plan, None, map[], 1.0);
    var checkpoint := WriteCheckpoint("c", "r");
    var claim := Claim("r", "a", 10.0, false, 2.0);
    es := [];
    RunNext(es, Do(create));
    es := es + [Do(create)];
    assert Run(Empty(), es).tables
        == Tables(map["r" := Row(Plan, "", 1.0, 0, "", 0.0)], map["s" := GRAPH], map[]);
    RunNext(es, Do(checkpoint));
    es := es + [Do(checkpoint)];
    assert Run(Empty(), es).tables == Store(Row(Plan, "", 1.0, 0, "", 0.0));
    RunNext(es, Do(claim));
    es := es + [Do(claim)];
    assert Run(Empty(), es).tables == Store(Row(Plan, "", 2.0, 1, "a", 12.0));
    assert Run(Empty(), es).pending == map[];
    RunNext(es, Begin(0, "r", ADVANCE, 3.0));
    BeginIsAccepted();
    es := es + [Begin(0, "r", ADVANCE, 3.0)];
  }

  lemma BeginIsAccepted()
    ensures Examine(ADVANCE, Row(Plan, "", 2.0, 1, "a", 12.0), 3.0, Facts(Some(GRAPH), true)) == Write
  {
    assert Licenses(GRAPH[0], Plan, ToNode(Execute), "plan_ready");
    assert Allowed(GRAPH, Plan, ToNode(Execute), "plan_ready");
    assert "c"[0] == 'c';
    assert !Blank("c");
  }

  /**
   From there owner `a` renews until 104 and its own transition lands, after which owner `b`
   takes the run at 13.
   */
  lemma RenewalCanBeLost() returns (es: seq<Event>, id: RunId)
    ensures var s := Run(Empty(), es);
            var renewed := Step(s, Do(Renew(id, "a", 100.0, 4.0)));
            var committed := Step(renewed, Commit(0, 5.0));
            var taken := Step(committed, Do(Claim(id, "b", 10.0, false, 13.0)));
            && id in renewed.tables.runs && renewed.tables.runs[id].leaseOwner == "a"
            && renewed.tables.runs[id].leaseExpiresAt == 104.0
            && id in committed.tables.runs && committed.tables.runs[id].node == Execute
            && id in taken.tables.runs && taken.tables.runs[id].leaseOwner == "b"
  {
    es := ReadingIsReached();
    id := "r";
    var renewed := Step(Reading(), Do(Renew(id, "a", 100.0, 4.0)));
    assert renewed.tables.runs[id] == Row(Plan, "", 4.0, 1, "a", 104.0);
    var committed := Step(renewed, Commit(0, 5.0));
    assert committed.tables.runs[id] == Row(Execute, "c", 5.0, 2, "a", 12.0);
  }
}
