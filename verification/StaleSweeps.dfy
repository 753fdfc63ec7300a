// The sweeper selects leases and expires what it selected without looking
// again. This module says exactly when that expires a row that is no expired
// lease any more.

module StaleSweeps {
  import opened Common
  import opened Hashes
  import opened TimeText
  import opened Scheduler
  import opened Integrity
  import opened Leases
  import EventSourcing
  import opened Fencing
  import opened FirstLease
  import opened StaleReads
  import Sweeping

  /////// The last event of an assignment says its status

  predicate SetsStatus(ev: Event, a: Id) {
    || (ev.AssignmentCreated? && ev.assignment == a) || (ev.AssignmentAccepted? && ev.assignment == a)
    || (ev.AssignmentProgress? && ev.assignment == a) || EndsLease(ev, a)
  }

  /** The events after which an assignment is neither accepted nor running. */
  predicate EndsLease(ev: Event, a: Id) {
    || (ev.AssignmentRejected? && ev.assignment == a) || (ev.AssignmentExpired? && ev.assignment == a)
    || (ev.AssignmentCompleted? && ev.assignment == a) || (ev.ResultQuarantinedLate? && ev.assignment == a)
  }

  predicate IsLease(status: AssignmentStatus) { status == AsgAccepted || status == AsgRunning }

  ghost predicate LastOf(log: seq<Event>, a: Id, k: int) {
    0 <= k < |log| && SetsStatus(log[k], a) && forall j :: k < j < |log| ==> !SetsStatus(log[j], a)
  }

  lemma {:induction false} LastSetsStatus(log: seq<Event>, a: Id, k: int)
    requires LastOf(log, a, k)
    ensures a in EventSourcing.Replay(log).assignments
    ensures EndsLease(log[k], a) || log[k].AssignmentCreated? <==> !IsLease(EventSourcing.Replay(log).assignments[a])
  {
    var init := log[..|log| - 1];
    if k < |init| {
      assert LastOf(init, a, k);
      LastSetsStatus(init, a, k);
      assert !SetsStatus(log[|log| - 1], a);
    }
  }

  lemma {:induction false} HasLast(log: seq<Event>, a: Id)
    requires a in EventSourcing.Replay(log).assignments
    ensures exists k :: LastOf(log, a, k)
  {
    var last := |log| - 1;
    if SetsStatus(log[last], a) {
      assert LastOf(log, a, last);
    } else {
      HasLast(log[..last], a);
      var k :| LastOf(log[..last], a, k);
      assert LastOf(log, a, k);
    }
  }

  /////// What every interleaving leaves of a row

  /** The log grows, rows stay, no row is created twice, and an expiry moves only with a lease commit. */
  ghost predicate Continues(before: Db, after: Db) {
    && before.log <= after.log
    && (forall a :: a in before.assignments ==> a in after.assignments)
    && (forall k :: |before.log| <= k < |after.log| && after.log[k].AssignmentCreated? ==>
          after.log[k].assignment !in before.assignments)
    && (forall a :: a in before.assignments ==> ExpiryMoves(before, after, a))
  }

  ghost predicate RenewedSince(log: seq<Event>, from: nat, a: Id) {
    exists k :: from <= k < |log| && IsLeaseCommit(log[k], a)
  }

  ghost predicate ExpiryMoves(before: Db, after: Db, a: Id)
    requires a in before.assignments && a in after.assignments
  {
    after.assignments[a].expiresAt == before.assignments[a].expiresAt || RenewedSince(after.log, |before.log|, a)
  }

  lemma ContinuesTransitive(x: Db, y: Db, z: Db)
    requires Continues(x, y) && Continues(y, z)
    ensures Continues(x, z)
  {
    assert forall k :: 0 <= k < |y.log| ==> z.log[k] == y.log[k];
    forall a | a in x.assignments ensures ExpiryMoves(x, z, a) {
      assert ExpiryMoves(x, y, a) && ExpiryMoves(y, z, a);
      if RenewedSince(y.log, |x.log|, a) {
        var k :| |x.log| <= k < |y.log| && IsLeaseCommit(y.log[k], a);
        assert IsLeaseCommit(z.log[k], a);
      }
    }
  }

  lemma ExpireAllContinues(db: Db, order: seq<Id>)
    requires forall a :: a in order ==> a in db.assignments
    ensures Continues(db, ExpireAll(db, order))
  {
    ExpireAllQuiet(db, order);
    Sweeping.ExpireAllRows(db, order);
  }

  lemma AcceptContinues(db: Db, a: Id, stale: Assignment, worker: Id, expected: int, token: LeaseToken,
                        expiresAt: string)
    ensures var out := AcceptCommit(db, a, stale, worker, expected, token, expiresAt);
            out.Committed? ==> Continues(db, out.db)
  {
    var out := AcceptCommit(db, a, stale, worker, expected, token, expiresAt);
    if out.Committed? { assert IsLeaseCommit(out.db.log[|db.log| + 1], a); }
  }

  lemma ProgressContinues(db: Db, a: Id, stale: Assignment, worker: Id, expected: int, expiresAt: string)
    ensures var out := ProgressCommit(db, a, stale, worker, expected, expiresAt);
            out.Committed? ==> Continues(db, out.db)
  {
    var out := ProgressCommit(db, a, stale, worker, expected, expiresAt);
    if out.Committed? { assert IsLeaseCommit(out.db.log[|db.log|], a); }
  }

  lemma StoreContinues(db: Db, a: Id, result: ResultRow, late: bool)
    requires a in db.assignments
    ensures var out := StoreOutcome(db, a, db.assignments[a], result, late);
            out.Committed? ==> Continues(db, out.db)
  {
  }

  lemma StepContinues(db: Db, step: Step)
    ensures Continues(db, Next(db, step))
  {
    match step
    case DoAccept(a, worker, expected, token, expiresAt) =>
      if AcceptRead(db, a, worker).Row? {
        AcceptContinues(db, a, db.assignments[a], worker, expected, token, expiresAt);
      }
    case DoProgress(a, worker, token, expected, expiresAt) =>
      if ProgressRead(db, a, worker, token).Row? {
        ProgressContinues(db, a, db.assignments[a], worker, expected, expiresAt);
      }
    case DoSubmit(a, worker, cred, output, envelope, freshId) =>
      if SubmitRead(db, a, worker, cred).Row? {
        var late := Late(db, db.assignments[a].attempt);
        StoreContinues(db, a, BuildResultRow(a, db.assignments[a], output, envelope, freshId, late), late);
      }
    case DoSweep(now, order) => if Lists(order, db, now) { ExpireAllContinues(db, order); }
    case _ =>
  }

  lemma CommitContinues(s: State, split: Split, at: nat)
    requires CommitsAt(s, split, at)
    ensures var out := Committing(s, split, at); out.Committed? ==> Continues(s.db, out.db)
  {
    var r := s.requests[at];
    match split
    case CommitAccept(_, expected, token, expiresAt) =>
      AcceptContinues(s.db, r.a, r.stale, r.worker, expected, token, expiresAt);
    case CommitProgress(_, expected, expiresAt) =>
      ProgressContinues(s.db, r.a, r.stale, r.worker, expected, expiresAt);
    case CommitSubmit(_) => if r.a in s.db.assignments { StoreContinues(s.db, r.a, r.result, r.late); }
    case CommitCreate(_, att) =>
    case CommitSweep(_) => if SweepCommit(s.db, r.order).Committed? { ExpireAllContinues(s.db, r.order); }
  }

  lemma {:induction false} RunContinues(s: State, splits: seq<Split>)
    ensures Continues(s.db, RunSplit(s, splits).db)
    decreases |splits|
  {
    if splits != [] {
      var split, next := splits[0], NextSplit(s, splits[0]);
      if split.Whole? {
        StepContinues(s.db, split.step);
      } else if CommitsAt(s, split, At(split)) {
        CommitContinues(s, split, At(split));
      }
      assert Continues(s.db, next.db);
      RunContinues(next, splits[1..]);
      ContinuesTransitive(s.db, next.db, RunSplit(s, splits).db);
    }
  }

  /////// When a selected lease is one no longer

  /** The last event of the assignment is one that ends its lease, and came since. */
  ghost predicate EndedSince(log: seq<Event>, from: nat, a: Id) {
    exists k :: from <= k && LastOf(log, a, k) && EndsLease(log[k], a)
  }

  /** The state a sweep commits in: it selected, then anything happened. */
  ghost function SweepState(before: seq<Split>, now: string, order: seq<Id>, between: seq<Split>): State {
    RunSplit(NextSplit(RunSplit(START, before), ReadSweep(now, order)), between)
  }

  /** Main result. Whatever comes between selection and commit, a selected assignment is neither
      accepted nor running any more if and only if the last event it had since then is a reject,
      an expiry, a completion or a quarantine; and it is no expired lease any more if and only if
      that is so or a lease commit since then moved its expiry to `now` or later. The commit
      expires it all the same. */
  lemma StaleSweepExactly(before: seq<Split>, now: string, order: seq<Id>, between: seq<Split>, a: Id)
    requires Lists(order, RunSplit(START, before).db, now) && a in order
    ensures var log := RunSplit(START, before).db.log;
            var s := SweepState(before, now, order, between);
            && a in s.db.assignments
            && (!IsLease(s.db.assignments[a].status) <==> EndedSince(s.db.log, |log|, a))
            && (!Expired(s.db, now, a) <==>
                  || EndedSince(s.db.log, |log|, a)
                  || (RenewedSince(s.db.log, |log|, a) && !ExpiresBefore(s.db, a, now)))
            && ExpiredAllTheSame(s.db, order, a)
  {
    var read := RunSplit(START, before);
    var open, s := NextSplit(read, ReadSweep(now, order)), SweepState(before, now, order, between);
    StartInv();
    RunSplitInv(START, before);
    SplitInv(read, ReadSweep(now, order));
    RunSplitInv(open, between);
    RunContinues(open, between);
    assert open.db == read.db && Expired(read.db, now, a);
    EndsExactly(read.db, s.db, a);
    assert ExpiryMoves(read.db, s.db, a);
    assert RowSound(s.db, s.db.assignments[a]);
    SweepCommits(read.db, s.db, now, order, a);
  }

  /** The commit expires the row whatever its status, and keeps its other columns. */
  ghost predicate ExpiredAllTheSame(db: Db, order: seq<Id>, a: Id) {
    && a in db.assignments && SweepCommit(db, order).Committed?
    && var after := SweepCommit(db, order).db;
       a in after.assignments && after.assignments[a] == db.assignments[a].(status := AsgExpired)
  }

  lemma SweepCommits(before: Db, after: Db, now: string, order: seq<Id>, a: Id)
    requires Lists(order, before, now) && Continues(before, after) && a in order
    ensures ExpiredAllTheSame(after, order, a)
  {
    forall b | b in order ensures b in after.assignments { assert Expired(before, now, b); }
    Sweeping.ExpireAllRows(after, order);
  }

  ghost predicate ExpiresBefore(db: Db, a: Id, now: string) {
    a in db.assignments && db.assignments[a].expiresAt.Some? && TextLess(db.assignments[a].expiresAt.value, now)
  }

  /** A lease has ended exactly when its last event since says so. */
  lemma EndsExactly(before: Db, after: Db, a: Id)
    requires EventSourcing.Faithful(before) && EventSourcing.Faithful(after) && Continues(before, after)
    requires a in before.assignments && IsLease(before.assignments[a].status)
    ensures !IsLease(after.assignments[a].status) <==> EndedSince(after.log, |before.log|, a)
  {
    assert a in EventSourcing.StatusColumns(after).assignments;
    HasLast(after.log, a);
    var k :| LastOf(after.log, a, k);
    LastSetsStatus(after.log, a, k);
    if k < |before.log| {
      assert before.log[k] == after.log[k];
      LastInPrefix(before.log, after.log, a, k);
      assert a in EventSourcing.StatusColumns(before).assignments;
      LastSetsStatus(before.log, a, k);
    } else {
      assert !after.log[k].AssignmentCreated?;
    }
  }

  lemma LastInPrefix(prefix: seq<Event>, log: seq<Event>, a: Id, k: int)
    requires prefix <= log && LastOf(log, a, k) && k < |prefix|
    ensures LastOf(prefix, a, k)
  {
    assert forall j :: 0 <= j < |prefix| ==> prefix[j] == log[j];
  }

  /////// It does happen: runs from the empty database

  function Submitting(c: Cast, token: LeaseToken, output: Json, freshId: Id): Step {
    DoSubmit(c.a, c.worker, ByToken(Some(token)), output, None, freshId)
  }

  /** The sweeper selects the lease, then another operation runs. */
  function SweptThen(c: Cast, token: LeaseToken, now: string, step: Step): seq<Split> {
    Leasing(c, token) + [ReadSweep(now, [c.a])] + [Whole(step)]
  }

  lemma SweptState(c: Cast, token: LeaseToken, now: string, step: Step)
    requires TextLess("", now)
    ensures RunSplit(START, SweptThen(c, token, now, step)) ==
            State(Next(LeasedDb(c, token, ""), step), [SweepRequest(now, [c.a])])
  {
    LeasingState(c, token);
    SplitThen(START, Leasing(c, token), ReadSweep(now, [c.a]));
    assert Lists([c.a], LeasedDb(c, token, ""), now);
    SplitThen(START, Leasing(c, token) + [ReadSweep(now, [c.a])], Whole(step));
  }

  /** A sweep that selected a lease before its result was submitted expires it all the same. */
  lemma CompletedLeaseExpires(c: Cast, token: LeaseToken, now: string, output: Json, freshId: Id)
    requires TextLess("", now)
    ensures var begun := SweptThen(c, token, now, Submitting(c, token, output, freshId));
            var before, end := RunSplit(START, begun).db, RunSplit(START, begun + [CommitSweep(0)]).db;
            && c.a in before.assignments && before.assignments[c.a].status == AsgCompleted
            && c.a in end.assignments && end.assignments[c.a].status == AsgExpired
            && before.workUnits == end.workUnits == map[c.wu := WuSucceeded]
  {
    var step := Submitting(c, token, output, freshId);
    SweptState(c, token, now, step);
    SubmitCompletes(c, token, output, freshId);
    SplitThen(START, SweptThen(c, token, now, step), CommitSweep(0));
    OneExpires(Next(LeasedDb(c, token, ""), step), c.a);
  }

  /** So does one that selected a lease before a progress call renewed it past `now`. */
  lemma RenewedLeaseExpires(c: Cast, token: LeaseToken, now: string, later: string)
    requires TextLess("", now)
    ensures var begun := SweptThen(c, token, now, DoProgress(c.a, c.worker, token, 1, later));
            var before, end := RunSplit(START, begun).db, RunSplit(START, begun + [CommitSweep(0)]).db;
            && c.a in before.assignments && before.assignments[c.a].status == AsgRunning
            && before.assignments[c.a].expiresAt == Some(later)
            && c.a in end.assignments && end.assignments[c.a].status == AsgExpired
  {
    var step := DoProgress(c.a, c.worker, token, 1, later);
    SweptState(c, token, now, step);
    SplitThen(START, SweptThen(c, token, now, step), CommitSweep(0));
    OneExpires(Next(LeasedDb(c, token, ""), step), c.a);
  }

  lemma SubmitCompletes(c: Cast, token: LeaseToken, output: Json, freshId: Id)
    ensures var done := Next(LeasedDb(c, token, ""), Submitting(c, token, output, freshId));
            c.a in done.assignments && done.assignments[c.a].status == AsgCompleted
              && done.workUnits == map[c.wu := WuSucceeded]
  {
    FirstIsCurrent(c, token);
  }

  lemma OneExpires(db: Db, a: Id)
    requires a in db.assignments
    ensures SweepCommit(db, [a]) == Committed(ExpireOne(db, a))
  {
    assert [a][1..] == [];
    assert ExpireAll(ExpireOne(db, a), []) == ExpireOne(db, a);
  }
}
