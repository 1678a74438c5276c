/**
 What every interleaving of the loop run operations keeps: optimistic versioning,
 lease exclusivity, finality, and bounded work per attempt.
 */
module LoopRunTheorems {
  import opened Values
  import opened LoopContracts
  import opened LoopRuns

  /** Equal in every column except `lease_expires_at` and `updated_at`. */
  predicate SameCore(a: LoopRunState, b: LoopRunState) {
    a == b.(updatedAt := a.updatedAt, leaseExpiresAt := a.leaseExpiresAt)
  }

  /** `b` is `a` or a later state of the same row. */
  predicate Later(a: LoopRunState, b: LoopRunState) {
    b.version >= a.version && (b.version == a.version ==> SameCore(a, b))
  }

  /** Final rows and rows waiting for approval hold no lease. */
  predicate Parked(r: LoopRunState) {
    Final(r.stop) || r.stop == Stopped(WaitingApproval) ==> r.leaseOwner == "" && r.leaseExpiresAt == 0.0
  }

  ghost predicate GoodPending(t: Tables, p: Pending) {
    && p.id in t.runs
    && Parked(p.seen)
    && Examine(p.request, p.seen, p.at, p.facts) == Write
    && Later(p.seen, t.runs[p.id])
  }

  ghost predicate Inv(s: System) {
    && (forall id :: id in s.tables.runs ==> Parked(s.tables.runs[id]))
    && (forall pid :: pid in s.pending ==> GoodPending(s.tables, s.pending[pid]))
  }

  lemma OpKeepsRow(t: Tables, op: Op, id: RunId)
    requires id in t.runs
    ensures id in ApplyOp(t, op).runs
    ensures Later(t.runs[id], ApplyOp(t, op).runs[id])
    ensures Parked(t.runs[id]) ==> Parked(ApplyOp(t, op).runs[id])
  {
  }

  lemma CommitRowGood(request: Request, seen: LoopRunState, at: real, facts: Facts, r: LoopRunState, now: real)
    requires Parked(seen) && Parked(r) && Examine(request, seen, at, facts) == Write
    requires SameCore(seen, r) && VersionMatches(request, seen, at, r)
    ensures CommitRow(request, seen, at, r, now).version == r.version + 1
    ensures Parked(CommitRow(request, seen, at, r, now))
  {
  }

  lemma CommitKeepsRow(t: Tables, p: Pending, now: real, id: RunId)
    requires id in t.runs && GoodPending(t, p)
    requires forall i :: i in t.runs ==> Parked(t.runs[i])
    ensures id in CommitTables(t, p, now).runs
    ensures Later(t.runs[id], CommitTables(t, p, now).runs[id])
    ensures Parked(CommitTables(t, p, now).runs[id])
  {
    if p.id == id && Lands(t, p) {
      CommitRowGood(p.request, p.seen, p.at, p.facts, t.runs[id], now);
    }
  }

  lemma StepKeepsRow(s: System, e: Event, id: RunId)
    requires Inv(s) && id in s.tables.runs
    ensures id in Step(s, e).tables.runs
    ensures Later(s.tables.runs[id], Step(s, e).tables.runs[id])
    ensures Parked(Step(s, e).tables.runs[id])
  {
    match e
    case Do(op) => OpKeepsRow(s.tables, op, id);
    case Begin(_, _, _, _) =>
    case Commit(pid, now) =>
      if pid in s.pending {
        CommitKeepsRow(s.tables, s.pending[pid], now, id);
      }
  }

  lemma StepKeepsInv(s: System, e: Event)
    requires Inv(s)
    ensures Inv(Step(s, e))
  {
    var s' := Step(s, e);
    forall id | id in s'.tables.runs
      ensures Parked(s'.tables.runs[id])
    {
      if id in s.tables.runs {
        StepKeepsRow(s, e, id);
      }
    }
    forall pid | pid in s'.pending
      ensures GoodPending(s'.tables, s'.pending[pid])
    {
      var p := s'.pending[pid];
      if pid in s.pending && p == s.pending[pid] {
        StepKeepsRow(s, e, p.id);
      }
    }
  }

  lemma {:induction false} RunKeepsInv(s: System, es: seq<Event>)
    requires Inv(s)
    ensures Inv(Run(s, es))
  {
    if es != [] {
      RunKeepsInv(s, es[..|es| - 1]);
      StepKeepsInv(Run(s, es[..|es| - 1]), es[|es| - 1]);
    }
  }

  lemma PrefixStep(s: System, es: seq<Event>, i: nat)
    requires i < |es|
    ensures Run(s, es[..i + 1]) == Step(Run(s, es[..i]), es[i])
  {
    assert es[..i + 1][..i] == es[..i];
  }

  lemma StepStaysLater(s: System, e: Event, id: RunId, a: LoopRunState)
    requires Inv(s) && id in s.tables.runs && Later(a, s.tables.runs[id])
    ensures id in Step(s, e).tables.runs && Later(a, Step(s, e).tables.runs[id])
  {
    StepKeepsRow(s, e, id);
  }

  /**
   Two snapshots of one run taken anywhere in any interleaving: the row never disappears,
   versions never go down, and equal versions mean equal rows up to lease expiry and
   `updated_at`.
   */
  lemma {:induction false} SameVersionSameRow(s: System, es: seq<Event>, i: nat, j: nat, id: RunId)
    requires Inv(s) && i <= j <= |es|
    requires id in Run(s, es[..i]).tables.runs
    ensures id in Run(s, es[..j]).tables.runs
    ensures Later(Run(s, es[..i]).tables.runs[id], Run(s, es[..j]).tables.runs[id])
    decreases j
  {
    if i < j {
      SameVersionSameRow(s, es, i, j - 1, id);
      RunKeepsInv(s, es[..j - 1]);
      StepStaysLater(Run(s, es[..j - 1]), es[j - 1], id, Run(s, es[..i]).tables.runs[id]);
      PrefixStep(s, es, j - 1);
    }
  }

  // ---- Read-then-commit refines atomic operations ----

  /**
   The same operations with every request executed in one step on the current row.
   `facts` and `expiry` are the only things a request may take from an earlier moment.
   */
  datatype AtomicEvent =
    | Plain(op: Op)
    | Whole(id: RunId, request: Request, at: real, facts: Facts, expiry: real, now: real)

  ghost function AtomicStep(t: Tables, a: AtomicEvent): Tables {
    match a
    case Plain(op) => ApplyOp(t, op)
    case Whole(id, request, at, facts, expiry, now) =>
      if id !in t.runs then t
      else
        var r := t.runs[id].(leaseExpiresAt := expiry);
        if Examine(request, r, at, facts) == Write && VersionMatches(request, r, at, t.runs[id])
        then t.(runs := t.runs[id := CommitRow(request, r, at, t.runs[id], now)])
        else t
  }

  ghost function AtomicRun(t: Tables, steps: seq<AtomicEvent>): Tables {
    if steps == [] then t else AtomicStep(AtomicRun(t, steps[..|steps| - 1]), steps[|steps| - 1])
  }

  /** The atomic step an event amounts to, if any: a commit takes effect where it lands. */
  ghost function Linear1(s: System, e: Event): seq<AtomicEvent> {
    match e
    case Do(op) => [Plain(op)]
    case Begin(_, _, _, _) => []
    case Commit(pid, now) =>
      if pid in s.pending && Lands(s.tables, s.pending[pid]) then
        var p := s.pending[pid];
        [Whole(p.id, p.request, p.at, p.facts, p.seen.leaseExpiresAt, now)]
      else []
  }

  ghost function Linear(s: System, es: seq<Event>): seq<AtomicEvent> {
    if es == [] then []
    else Linear(s, es[..|es| - 1]) + Linear1(Run(s, es[..|es| - 1]), es[|es| - 1])
  }

  /** No check and no written column depends on the `updated_at` that was read. */
  lemma UpdatedAtIrrelevant(request: Request, seen: LoopRunState, x: real, at: real, facts: Facts)
    ensures Examine(request, seen.(updatedAt := x), at, facts) == Examine(request, seen, at, facts)
    ensures forall r, now ::
              CommitRow(request, seen.(updatedAt := x), at, r, now) == CommitRow(request, seen, at, r, now)
  {
    assert ReopenNode(seen.(updatedAt := x), request) == ReopenNode(seen, request);
  }

  lemma LandingRefines(t: Tables, p: Pending, now: real)
    requires GoodPending(t, p) && Lands(t, p)
    ensures CommitTables(t, p, now)
            == AtomicStep(t, Whole(p.id, p.request, p.at, p.facts, p.seen.leaseExpiresAt, now))
  {
    var r := t.runs[p.id];
    assert r.(leaseExpiresAt := p.seen.leaseExpiresAt) == p.seen.(updatedAt := r.updatedAt);
    UpdatedAtIrrelevant(p.request, p.seen, r.updatedAt, p.at, p.facts);
  }

  lemma StepRefines(s: System, e: Event)
    requires Inv(s)
    ensures |Linear1(s, e)| == 0 ==> Step(s, e).tables == s.tables
    ensures |Linear1(s, e)| == 1 ==> Step(s, e).tables == AtomicStep(s.tables, Linear1(s, e)[0])
    ensures |Linear1(s, e)| <= 1
  {
    if e.Commit? && e.pid in s.pending && Lands(s.tables, s.pending[e.pid]) {
      LandingRefines(s.tables, s.pending[e.pid], e.now);
    }
  }

  /**
   Every interleaving of reads and commits leaves the tables exactly as some sequence of
   atomic operations does, one per landed commit, each passing its own checks on the row as
   it is at the commit. The stale values it may use are the graph and checkpoint facts and,
   for a transition that does not stop, the lease expiry.
   */
  lemma {:induction false} ReadCommitRefinesAtomic(s: System, es: seq<Event>)
    requires Inv(s)
    ensures AtomicRun(s.tables, Linear(s, es)) == Run(s, es).tables
  {
    if es != [] {
      var prefix, last := es[..|es| - 1], es[|es| - 1];
      ReadCommitRefinesAtomic(s, prefix);
      RunKeepsInv(s, prefix);
      StepRefines(Run(s, prefix), last);
      var atoms := Linear1(Run(s, prefix), last);
      if atoms == [] {
        assert Linear(s, es) == Linear(s, prefix);
      } else {
        assert Linear(s, es)[..|Linear(s, es)| - 1] == Linear(s, prefix);
      }
    }
  }

  /** Event `k` is a commit that lands on run `id`, by a driver that read version `v`. */
  ghost predicate CommitsAt(s: System, es: seq<Event>, k: nat, id: RunId, v: int) {
    && k < |es|
    && es[k].Commit?
    && var before := Run(s, es[..k]);
       && es[k].pid in before.pending
       && before.pending[es[k].pid].id == id
       && before.pending[es[k].pid].seen.version == v
       && Lands(before.tables, before.pending[es[k].pid])
  }

  lemma LandingBumps(s: System, es: seq<Event>, k: nat, id: RunId, v: int)
    requires Inv(s) && CommitsAt(s, es, k, id, v)
    ensures id in Run(s, es[..k]).tables.runs && Run(s, es[..k]).tables.runs[id].version == v
    ensures id in Run(s, es[..k + 1]).tables.runs && Run(s, es[..k + 1]).tables.runs[id].version == v + 1
  {
    PrefixStep(s, es, k);
    RunKeepsInv(s, es[..k]);
  }

  /** Of all the drivers that read one version of a run, at most one commit ever lands. */
  lemma OneCommitPerVersion(s: System, es: seq<Event>, i: nat, j: nat, id: RunId, v: int)
    requires Inv(s) && CommitsAt(s, es, i, id, v) && CommitsAt(s, es, j, id, v)
    ensures i == j
  {
    LandingBumps(s, es, i, id, v);
    LandingBumps(s, es, j, id, v);
    if i < j {
      SameVersionSameRow(s, es, i + 1, j, id);
    } else if j < i {
      SameVersionSameRow(s, es, j + 1, i, id);
    }
  }

  // ---- Exclusive execution ----

  /** A landing transition that names an owner finds the row still leased to that owner. */
  lemma OwnerHoldsLeaseAtCommit(s: System, es: seq<Event>, k: nat, id: RunId, v: int)
    requires Inv(s) && CommitsAt(s, es, k, id, v)
    ensures var before := Run(s, es[..k]);
            var request := before.pending[es[k].pid].request;
            && id in before.tables.runs
            && (request.Advance? && request.owner != "" ==> before.tables.runs[id].leaseOwner == request.owner)
            && (request.FailActive? ==> before.tables.runs[id].leaseOwner == request.owner != "")
  {
    RunKeepsInv(s, es[..k]);
  }

  /** The event hands a live lease back: by a release naming the owner, by expiry, or by stopping the run. */
  ghost predicate Relinquishes(s: System, e: Event, id: RunId)
    requires id in s.tables.runs
  {
    var r := s.tables.runs[id];
    || (e.Do? && e.op.Release? && e.op.id == id && e.op.owner == r.leaseOwner)
    || (e.Do? && e.op.ReleaseForOwners? && id in e.op.ids && r.leaseOwner in e.op.owners)
    || (e.Do? && (e.op.Claim? || e.op.ClaimActive? || e.op.ReleaseExpired?) && r.leaseExpiresAt <= e.op.now)
    || (id in Step(s, e).tables.runs && Step(s, e).tables.runs[id].stop.Stopped?)
  }

  lemma OwnerLeavesByRelinquishing(s: System, e: Event, id: RunId)
    requires Inv(s) && id in s.tables.runs && s.tables.runs[id].leaseOwner != ""
    ensures id in Step(s, e).tables.runs
    ensures Step(s, e).tables.runs[id].leaseOwner != s.tables.runs[id].leaseOwner ==> Relinquishes(s, e, id)
  {
    StepKeepsRow(s, e, id);
    if e.Commit? && e.pid in s.pending {
      CommitKeepsOwner(s.tables, s.pending[e.pid], e.now, id);
    } else if e.Do? {
      OpKeepsOwner(s.tables, e.op, id);
    }
  }

  /** An operation takes a lease away only by a release, an expired claim, or by failing an orphan. */
  lemma OpKeepsOwner(t: Tables, op: Op, id: RunId)
    requires id in t.runs && t.runs[id].leaseOwner != ""
    ensures id in ApplyOp(t, op).runs
    ensures var r, r' := t.runs[id], ApplyOp(t, op).runs[id];
            r'.leaseOwner == r.leaseOwner || r'.stop.Stopped?
            || (op.Release? && op.id == id && op.owner == r.leaseOwner)
            || (op.ReleaseForOwners? && id in op.ids && r.leaseOwner in op.owners)
            || ((op.Claim? || op.ClaimActive? || op.ReleaseExpired?) && r.leaseExpiresAt <= op.now)
  {
  }

  /** A landing commit keeps the owner or stops the run. */
  lemma CommitKeepsOwner(t: Tables, p: Pending, now: real, id: RunId)
    requires GoodPending(t, p) && id in t.runs
    ensures id in CommitTables(t, p, now).runs
    ensures var r := CommitTables(t, p, now).runs[id];
            r.leaseOwner == t.runs[id].leaseOwner || r.stop.Stopped?
  {
  }

  /**
   If one owner holds a run at `i` and another at `j`, the lease was given up in between:
   it expired, it was explicitly released, or the run stopped.
   */
  lemma {:induction false} HandoverNeedsRelinquish(s: System, es: seq<Event>, i: nat, j: nat, id: RunId)
      returns (k: nat)
    requires Inv(s) && i <= j <= |es|
    requires id in Run(s, es[..i]).tables.runs && id in Run(s, es[..j]).tables.runs
    requires Run(s, es[..i]).tables.runs[id].leaseOwner != ""
    requires Run(s, es[..j]).tables.runs[id].leaseOwner != Run(s, es[..i]).tables.runs[id].leaseOwner
    ensures i <= k < j && id in Run(s, es[..k]).tables.runs
    ensures Run(s, es[..k]).tables.runs[id].leaseOwner == Run(s, es[..i]).tables.runs[id].leaseOwner
    ensures Relinquishes(Run(s, es[..k]), es[k], id)
    decreases j - i
  {
    RunKeepsInv(s, es[..i]);
    PrefixStep(s, es, i);
    OwnerLeavesByRelinquishing(Run(s, es[..i]), es[i], id);
    if Run(s, es[..i + 1]).tables.runs[id].leaseOwner == Run(s, es[..i]).tables.runs[id].leaseOwner {
      k := HandoverNeedsRelinquish(s, es, i + 1, j, id);
    } else {
      k := i;
    }
  }

  /** So two owners whose transitions land on one run are separated by such an event. */
  lemma ExclusiveExecution(s: System, es: seq<Event>, i: nat, j: nat, id: RunId, v: int, w: int) returns (k: nat)
    requires Inv(s) && i < j && CommitsAt(s, es, i, id, v) && CommitsAt(s, es, j, id, w)
    requires var a := Run(s, es[..i]).pending[es[i].pid].request;
             var b := Run(s, es[..j]).pending[es[j].pid].request;
             a.Advance? && b.Advance? && a.owner != "" && b.owner != "" && a.owner != b.owner
    ensures i <= k < j && id in Run(s, es[..k]).tables.runs
    ensures Run(s, es[..k]).tables.runs[id].leaseOwner == Run(s, es[..i]).pending[es[i].pid].request.owner
    ensures Relinquishes(Run(s, es[..k]), es[k], id)
  {
    OwnerHoldsLeaseAtCommit(s, es, i, id, v);
    OwnerHoldsLeaseAtCommit(s, es, j, id, w);
    k := HandoverNeedsRelinquish(s, es, i, j, id);
  }

  // ---- Finality ----

  predicate Retains(e: Event, id: RunId) {
    e.Do? && e.op.Retain? && e.op.id == id
  }

  /**
   The two writers of final rows: retention, and `release_execution_lease` called with an
   empty owner name, whose WHERE clause has no terminal-state guard.
   */
  predicate Rewrites(e: Event, id: RunId) {
    Retains(e, id) || (e.Do? && e.op.Release? && e.op.id == id && e.op.owner == "")
  }

  /** Equal in goal, spec, node, stop state, attempt, parent and lease. */
  predicate Frozen(a: LoopRunState, b: LoopRunState) {
    b == a.(checkpointId := b.checkpointId, childRunIds := b.childRunIds, lockedResources := b.lockedResources,
            evidence := b.evidence, updatedAt := b.updatedAt, version := b.version)
  }

  lemma CommitSparesFinal(t: Tables, p: Pending, now: real, id: RunId)
    requires GoodPending(t, p) && id in t.runs && Final(t.runs[id].stop)
    ensures CommitTables(t, p, now) == t || p.id != id
  {
  }

  lemma OpOnFinal(t: Tables, op: Op, id: RunId)
    requires id in t.runs && Final(t.runs[id].stop) && Parked(t.runs[id])
    ensures id in ApplyOp(t, op).runs
    ensures var r, r' := t.runs[id], ApplyOp(t, op).runs[id];
            && Frozen(r, r')
            && (r' != r <==> Rewrites(Do(op), id))
            && (Rewrites(Do(op), id) ==> r'.version > r.version)
            && (!Retains(Do(op), id) ==> SameEvidence(r, r'))
  {
  }

  /** A step changes a final row if and only if it is one of those two, and then bumps its version. */
  lemma FinalRowWrittenIff(s: System, e: Event, id: RunId)
    requires Inv(s) && id in s.tables.runs && Final(s.tables.runs[id].stop)
    ensures id in Step(s, e).tables.runs && Frozen(s.tables.runs[id], Step(s, e).tables.runs[id])
    ensures Step(s, e).tables.runs[id] != s.tables.runs[id] <==> Rewrites(e, id)
    ensures Rewrites(e, id) ==> Step(s, e).tables.runs[id].version > s.tables.runs[id].version
    ensures !Retains(e, id) ==> SameEvidence(s.tables.runs[id], Step(s, e).tables.runs[id])
  {
    match e
    case Do(op) => OpOnFinal(s.tables, op, id);
    case Begin(_, _, _, _) =>
    case Commit(pid, now) =>
      if pid in s.pending {
        CommitSparesFinal(s.tables, s.pending[pid], now, id);
      }
  }

  /** Equal in all but the version and `updated_at`. */
  predicate SameEvidence(a: LoopRunState, b: LoopRunState) {
    b == a.(updatedAt := b.updatedAt, version := b.version)
  }

  /**
   Once final, a run keeps its stop state, node, attempt, parent and (empty) lease under all
   operations, stale committers and orphan recovery included; checkpoint, children, locks and
   evidence change only by retention; and the whole row is untouched if and only if neither
   writer of final rows came by.
   */
  lemma {:induction false} FinalForever(s: System, es: seq<Event>, i: nat, j: nat, id: RunId)
    requires Inv(s) && i <= j <= |es|
    requires id in Run(s, es[..i]).tables.runs && Final(Run(s, es[..i]).tables.runs[id].stop)
    ensures id in Run(s, es[..j]).tables.runs
    ensures Kept(Run(s, es[..i]).tables.runs[id], Run(s, es[..j]).tables.runs[id],
                 Rewritten(es, i, j, id), Retained(es, i, j, id))
    decreases j
  {
    if i < j {
      FinalForever(s, es, i, j - 1, id);
      NextKept(s, es, i, j - 1, id, Run(s, es[..i]).tables.runs[id]);
    }
  }

  ghost predicate Rewritten(es: seq<Event>, i: nat, j: nat, id: RunId)
    requires j <= |es|
  {
    exists k :: i <= k < j && Rewrites(es[k], id)
  }

  ghost predicate Retained(es: seq<Event>, i: nat, j: nat, id: RunId)
    requires j <= |es|
  {
    exists k :: i <= k < j && Retains(es[k], id)
  }

  /** A final row `a` and a later state `b` of it. */
  predicate Kept(a: LoopRunState, b: LoopRunState, rewritten: bool, retained: bool) {
    && Frozen(a, b)
    && (b != a <==> rewritten)
    && (rewritten ==> b.version > a.version)
    && (!retained ==> SameEvidence(a, b))
  }

  lemma NextKept(s: System, es: seq<Event>, i: nat, j: nat, id: RunId, a: LoopRunState)
    requires Inv(s) && i <= j < |es| && Final(a.stop)
    requires id in Run(s, es[..j]).tables.runs
    requires Kept(a, Run(s, es[..j]).tables.runs[id], Rewritten(es, i, j, id), Retained(es, i, j, id))
    ensures id in Run(s, es[..j + 1]).tables.runs
    ensures Kept(a, Run(s, es[..j + 1]).tables.runs[id], Rewritten(es, i, j + 1, id), Retained(es, i, j + 1, id))
  {
    RunKeepsInv(s, es[..j]);
    PrefixStep(s, es, j);
    WrittenNext(es, i, j, id);
    KeptStep(a, Run(s, es[..j]), es[j], id, Rewritten(es, i, j, id), Retained(es, i, j, id));
  }

  lemma WrittenNext(es: seq<Event>, i: nat, j: nat, id: RunId)
    requires i <= j < |es|
    ensures Rewritten(es, i, j + 1, id) <==> Rewritten(es, i, j, id) || Rewrites(es[j], id)
    ensures Retained(es, i, j + 1, id) <==> Retained(es, i, j, id) || Retains(es[j], id)
  {
  }

  lemma KeptStep(a: LoopRunState, s: System, e: Event, id: RunId, rewritten: bool, retained: bool)
    requires Inv(s) && id in s.tables.runs && Final(a.stop) && Kept(a, s.tables.runs[id], rewritten, retained)
    ensures id in Step(s, e).tables.runs
    ensures Kept(a, Step(s, e).tables.runs[id], rewritten || Rewrites(e, id), retained || Retains(e, id))
  {
    FinalRowWrittenIff(s, e, id);
  }

  // ---- Lease shape ----

  /** An empty owner coincides with a zero expiry. */
  predicate LeaseShaped(r: LoopRunState) {
    r.leaseOwner == "" <==> r.leaseExpiresAt == 0.0
  }

  ghost predicate LeaseInv(s: System) {
    && Inv(s)
    && (forall id :: id in s.tables.runs ==> LeaseShaped(s.tables.runs[id]))
    && (forall pid :: pid in s.pending ==> LeaseShaped(s.pending[pid].seen))
  }

  /** Claims are made with a nonempty owner name and lease operations at a positive time. */
  predicate ProperEvent(e: Event) {
    e.Do? ==>
      && ((e.op.Claim? || e.op.ClaimActive?) ==> e.op.owner != "" && e.op.now > 0.0)
      && (e.op.Renew? ==> e.op.now > 0.0)
  }

  lemma OpKeepsLeaseShape(t: Tables, op: Op, id: RunId)
    requires id in ApplyOp(t, op).runs && ProperEvent(Do(op))
    requires id in t.runs ==> LeaseShaped(t.runs[id])
    ensures LeaseShaped(ApplyOp(t, op).runs[id])
  {
  }

  lemma CommitKeepsLeaseShape(t: Tables, p: Pending, now: real, id: RunId)
    requires id in t.runs && LeaseShaped(t.runs[id]) && LeaseShaped(p.seen)
    ensures id in CommitTables(t, p, now).runs && LeaseShaped(CommitTables(t, p, now).runs[id])
  {
  }

  lemma StepKeepsLeaseShape(s: System, e: Event, id: RunId)
    requires LeaseInv(s) && ProperEvent(e) && id in Step(s, e).tables.runs
    ensures LeaseShaped(Step(s, e).tables.runs[id])
  {
    match e
    case Do(op) => OpKeepsLeaseShape(s.tables, op, id);
    case Begin(_, _, _, _) =>
    case Commit(pid, now) =>
      if pid in s.pending {
        CommitKeepsLeaseShape(s.tables, s.pending[pid], now, id);
      }
  }

  lemma StepKeepsLeaseInv(s: System, e: Event)
    requires LeaseInv(s) && ProperEvent(e)
    ensures LeaseInv(Step(s, e))
  {
    StepKeepsInv(s, e);
    forall id | id in Step(s, e).tables.runs
      ensures LeaseShaped(Step(s, e).tables.runs[id])
    {
      StepKeepsLeaseShape(s, e, id);
    }
  }

  /** Over every run of proper events from the empty store: unleased means expiry zero, and parked rows are unleased. */
  lemma {:induction false} LeaseShapeOverRuns(es: seq<Event>)
    requires forall i :: 0 <= i < |es| ==> ProperEvent(es[i])
    ensures LeaseInv(Run(Empty(), es))
  {
    if es != [] {
      LeaseShapeOverRuns(es[..|es| - 1]);
      StepKeepsLeaseInv(Run(Empty(), es[..|es| - 1]), es[|es| - 1]);
    }
  }

  // ---- Bounded work ----

  /** A landed transition of `id` that does not stop the run. */
  ghost predicate Works(s: System, e: Event, id: RunId) {
    && e.Commit? && e.pid in s.pending && Lands(s.tables, s.pending[e.pid])
    && var p := s.pending[e.pid];
       p.id == id && p.request.Advance? && p.request.terminal.None?
  }

  /** A landed reopening of `id`. */
  ghost predicate Resumes(s: System, e: Event, id: RunId) {
    && e.Commit? && e.pid in s.pending && Lands(s.tables, s.pending[e.pid])
    && var p := s.pending[e.pid];
       p.id == id && (p.request.Resume? || p.request.ResumeResourcePause? || p.request.ResumeRetryPause?)
  }

  ghost function WorkCount(s: System, es: seq<Event>, id: RunId): nat {
    if es == [] then 0
    else
      WorkCount(s, es[..|es| - 1], id)
      + if Works(Run(s, es[..|es| - 1]), es[|es| - 1], id) then 1 else 0
  }

  ghost function ResumeCount(s: System, es: seq<Event>, id: RunId): nat {
    if es == [] then 0
    else
      ResumeCount(s, es[..|es| - 1], id)
      + if Resumes(Run(s, es[..|es| - 1]), es[|es| - 1], id) then 1 else 0
  }

  /** Transitions a running row can still make before it must consume an attempt. */
  function Potential(r: LoopRunState): nat {
    if r.stop == Running then Rank(r.node) else 0
  }

  /** The run's spec, stored or read by a pending transition of the run, is the default graph. */
  ghost predicate DefaultSpec(s: System, id: RunId)
    requires id in s.tables.runs
  {
    var specId := s.tables.runs[id].specId;
    && (specId in s.tables.specs ==> s.tables.specs[specId] == DefaultStateGraph())
    && (forall pid :: pid in s.pending && s.pending[pid].id == id && s.pending[pid].facts.graph.Some?
                      ==> s.pending[pid].facts.graph.value == DefaultStateGraph())
  }

  /** Whoever saves that spec saves the default graph. */
  predicate SavesDefaultGraph(e: Event, specId: string) {
    e.Do? && (e.op.SaveSpec? || e.op.CreateRun?) && e.op.specId == specId ==> e.op.graph == DefaultStateGraph()
  }

  lemma OpKeepsPotential(t: Tables, op: Op, id: RunId)
    requires id in t.runs
    ensures id in ApplyOp(t, op).runs
    ensures ApplyOp(t, op).runs[id].attempt == t.runs[id].attempt
    ensures ApplyOp(t, op).runs[id].specId == t.runs[id].specId
    ensures Potential(ApplyOp(t, op).runs[id]) <= Potential(t.runs[id])
  {
  }

  lemma CommitPays(t: Tables, p: Pending, now: real)
    requires GoodPending(t, p) && Lands(t, p)
    requires p.facts.graph.Some? ==> p.facts.graph.value == DefaultStateGraph()
    ensures p.id in CommitTables(t, p, now).runs
    ensures CommitTables(t, p, now).runs[p.id].specId == t.runs[p.id].specId
    ensures var r, r' := t.runs[p.id], CommitTables(t, p, now).runs[p.id];
            (if p.request.Advance? && p.request.terminal.None? then 1 else 0) + Potential(r')
            <= Potential(r) + 4 * (r'.attempt - r.attempt)
               + 4 * (if p.request.Resume? || p.request.ResumeResourcePause? || p.request.ResumeRetryPause?
                      then 1 else 0)
  {
    if p.request.Advance? && p.request.terminal.None? {
      DefaultEdgePays(p.seen.node, p.request.node, p.request.condition);
    }
  }

  lemma CommitEventPays(s: System, pid: nat, now: real, id: RunId)
    requires Inv(s) && id in s.tables.runs && DefaultSpec(s, id)
    ensures id in Step(s, Commit(pid, now)).tables.runs
    ensures var r, r' := s.tables.runs[id], Step(s, Commit(pid, now)).tables.runs[id];
            r'.specId == r.specId
            && (if Works(s, Commit(pid, now), id) then 1 else 0) + Potential(r')
               <= Potential(r) + 4 * (r'.attempt - r.attempt) + 4 * (if Resumes(s, Commit(pid, now), id) then 1 else 0)
  {
    if pid in s.pending && Lands(s.tables, s.pending[pid]) {
      var p := s.pending[pid];
      assert GoodPending(s.tables, p);
      if p.id == id {
        CommitPays(s.tables, p, now);
      } else {
        assert Step(s, Commit(pid, now)).tables.runs[id] == s.tables.runs[id];
      }
    }
  }

  lemma StepKeepsSpec(s: System, e: Event, id: RunId)
    requires id in s.tables.runs && id in Step(s, e).tables.runs
    requires Step(s, e).tables.runs[id].specId == s.tables.runs[id].specId
    requires DefaultSpec(s, id) && SavesDefaultGraph(e, s.tables.runs[id].specId)
    ensures DefaultSpec(Step(s, e), id)
  {
  }

  lemma StepPays(s: System, e: Event, id: RunId)
    requires Inv(s) && id in s.tables.runs && DefaultSpec(s, id) && SavesDefaultGraph(e, s.tables.runs[id].specId)
    ensures id in Step(s, e).tables.runs && DefaultSpec(Step(s, e), id)
    ensures var r, r' := s.tables.runs[id], Step(s, e).tables.runs[id];
            r'.specId == r.specId
            && (if Works(s, e, id) then 1 else 0) + Potential(r')
               <= Potential(r) + 4 * (r'.attempt - r.attempt) + 4 * (if Resumes(s, e, id) then 1 else 0)
  {
    match e
    case Do(op) =>
      OpKeepsPotential(s.tables, op, id);
      StepKeepsSpec(s, e, id);
    case Begin(_, _, _, _) =>
      StepKeepsSpec(s, e, id);
    case Commit(pid, now) =>
      CommitEventPays(s, pid, now, id);
      StepKeepsSpec(s, e, id);
  }

  /**
   Bounded work under the default graph: in any interleaving the number of transitions that
   do not stop a run is at most the potential spent, plus four per attempt consumed, plus
   four per reopening. Without reopenings and between running states this is
   `n <= rank(start) - rank(end) + 4 * attempts`. Other runs may have any graph.
   */
  lemma {:induction false} BoundedWork(s: System, es: seq<Event>, id: RunId)
    requires Inv(s) && id in s.tables.runs && DefaultSpec(s, id)
    requires forall i :: 0 <= i < |es| ==> SavesDefaultGraph(es[i], s.tables.runs[id].specId)
    ensures id in Run(s, es).tables.runs && DefaultSpec(Run(s, es), id)
    ensures var r, r' := s.tables.runs[id], Run(s, es).tables.runs[id];
            r'.specId == r.specId
            && WorkCount(s, es, id)
               <= Potential(r) - Potential(r') + 4 * (r'.attempt - r.attempt) + 4 * ResumeCount(s, es, id)
  {
    if es != [] {
      BoundedWork(s, es[..|es| - 1], id);
      RunKeepsInv(s, es[..|es| - 1]);
      StepPays(Run(s, es[..|es| - 1]), es[|es| - 1], id);
    }
  }
}
