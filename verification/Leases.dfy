// Lease bookkeeping over atomic runs: the log holds the exact history of every
// lease, and every use of a lease follows its one accept.

module Leases {
  import opened Common
  import opened Hashes
  import opened Scheduler
  import opened Integrity

  /////// Versions in the log

  predicate IsLeaseCommit(ev: Event, a: Id) {
    (ev.AssignmentAccepted? || ev.AssignmentProgress?) && ev.assignment == a
  }

  /** The lease versions the log reports for an assignment, in log order. */
  function LeaseVersions(log: seq<Event>, a: Id): seq<nat> {
    if log == [] then []
    else
      var last := log[|log| - 1];
      LeaseVersions(log[..|log| - 1], a) + if IsLeaseCommit(last, a) then [last.version] else []
  }

  function Upto(n: nat): seq<nat> { seq(n, i requires 0 <= i => i + 1) }

  ghost function CurrentVersion(db: Db, a: Id): nat {
    if a in db.assignments then db.assignments[a].leaseVersion else 0
  }

  /** The versions committed are exactly 1, 2, ..., lease_version, in that order. */
  ghost predicate VersionsBooked(db: Db) {
    forall a :: LeaseVersions(db.log, a) == Upto(CurrentVersion(db, a))
  }

  lemma VersionsAppend(log: seq<Event>, ev: Event, a: Id)
    ensures LeaseVersions(log + [ev], a) == LeaseVersions(log, a) + if IsLeaseCommit(ev, a) then [ev.version] else []
  {
    assert (log + [ev])[..|log|] == log;
  }

  /** One event appended; either it is the next lease commit of `a`, or no version moved. */
  lemma AppendBooked(db: Db, after: Db, ev: Event)
    requires VersionsBooked(db) && after.log == db.log + [ev]
    requires forall a :: CurrentVersion(after, a) == CurrentVersion(db, a) + if IsLeaseCommit(ev, a) then 1 else 0
    requires ev.AssignmentAccepted? || ev.AssignmentProgress? ==> ev.version == CurrentVersion(after, ev.assignment)
    ensures VersionsBooked(after)
  {
    forall a ensures LeaseVersions(after.log, a) == Upto(CurrentVersion(after, a)) {
      assert LeaseVersions(db.log, a) == Upto(CurrentVersion(db, a));
      VersionsAppend(db.log, ev, a);
      if IsLeaseCommit(ev, a) {
        assert Upto(CurrentVersion(after, a)) == Upto(CurrentVersion(db, a)) + [CurrentVersion(after, a)];
      }
    }
  }

  lemma AcceptCommitBooked(db: Db, a: Id, stale: Assignment, worker: Id, expected: int, token: LeaseToken,
                           expiresAt: string)
    requires VersionsBooked(db)
    ensures var out := AcceptCommit(db, a, stale, worker, expected, token, expiresAt);
            out.Committed? ==> VersionsBooked(out.db)
  {
    var out := AcceptCommit(db, a, stale, worker, expected, token, expiresAt);
    if out.Committed? {
      var mid := SetWorkUnit(db, stale.workUnit, WuRunning);
      AppendBooked(db, mid, WorkUnitStatusSet(stale.workUnit, WuRunning));
      AppendBooked(mid, out.db,
                   AssignmentAccepted(stale.workUnit, stale.attempt, a, worker, db.assignments[a].leaseVersion + 1));
    }
  }

  lemma ProgressCommitBooked(db: Db, a: Id, stale: Assignment, worker: Id, expected: int, expiresAt: string)
    requires VersionsBooked(db)
    ensures var out := ProgressCommit(db, a, stale, worker, expected, expiresAt);
            out.Committed? ==> VersionsBooked(out.db)
  {
    var out := ProgressCommit(db, a, stale, worker, expected, expiresAt);
    if out.Committed? {
      AppendBooked(db, out.db,
                   AssignmentProgress(stale.workUnit, stale.attempt, a, worker, db.assignments[a].leaseVersion + 1));
    }
  }

  lemma SubmitBooked(db: Db, a: Id, worker: Id, cred: Credential, output: Json, envelope: Option<Envelope>, freshId: Id)
    requires VersionsBooked(db)
    ensures var out := Submit(db, a, worker, cred, output, envelope, freshId); out.Committed? ==> VersionsBooked(out.db)
  {
    if Submit(db, a, worker, cred, output, envelope, freshId).Committed? {
      var row := db.assignments[a];
      var late := Late(db, row.attempt);
      StoreBooked(db, a, BuildResultRow(a, row, output, envelope, freshId, late), late);
    }
  }

  lemma StoreBooked(db: Db, a: Id, result: ResultRow, late: bool)
    requires VersionsBooked(db) && a in db.assignments
    ensures var out := StoreOutcome(db, a, db.assignments[a], result, late); out.Committed? ==> VersionsBooked(out.db)
  {
    var row := db.assignments[a];
    var out := StoreOutcome(db, a, row, result, late);
    if out.Committed? && late {
      AppendBooked(db, out.db, ResultQuarantinedLate(row.workUnit, row.attempt, a, result.id));
    } else if out.Committed? {
      var d2 := SetWorkUnit(AddResult(db, result, false), row.workUnit, WuSucceeded);
      AppendBooked(db, d2, WorkUnitStatusSet(row.workUnit, WuSucceeded));
      var ev := AssignmentCompleted(row.workUnit, row.attempt, a);
      var d3 := Transition(d2, a, row.(status := AsgCompleted), Some(AttSucceeded), ev);
      AppendBooked(d2, d3, ev);
      AppendBooked(d3, out.db, ResultSubmitted(row.workUnit, row.attempt, a, result.id));
    }
  }

  lemma InsertBooked(db: Db, att: Id, wu: Id, number: nat, origin: Origin)
    requires VersionsBooked(db)
    ensures var out := InsertAttempt(db, att, wu, number, origin); out.Committed? ==> VersionsBooked(out.db)
  {
    var out := InsertAttempt(db, att, wu, number, origin);
    if out.Committed? { AppendBooked(db, out.db, AttemptCreated(wu, att, number, origin)); }
  }

  lemma {:induction false} ExpireAllBooked(db: Db, order: seq<Id>)
    requires VersionsBooked(db) && forall a :: a in order ==> a in db.assignments
    ensures VersionsBooked(ExpireAll(db, order))
    decreases |order|
  {
    if order != [] {
      var row := db.assignments[order[0]];
      AppendBooked(db, ExpireOne(db, order[0]), AssignmentExpired(row.workUnit, row.attempt, order[0]));
      ExpireAllBooked(ExpireOne(db, order[0]), order[1..]);
    }
  }

  lemma CreateBooked(db: Db, step: Step)
    requires VersionsBooked(db)
    requires step.DoCreateWorkUnit? || step.DoCreateAttempt? || step.DoReschedule?
    ensures VersionsBooked(Next(db, step))
  {
    var after := Next(db, step);
    if Apply(db, step).Committed? {
      if step.DoCreateWorkUnit? {
        AppendBooked(db, Note(db, RunCreated), RunCreated);
        AppendBooked(Note(db, RunCreated), after, WorkUnitCreated(step.wu));
      } else {
        AppendBooked(db, after, after.log[|db.log|]);
      }
    }
  }

  lemma CreateAssignmentBooked(db: Db, a: Id, att: Id, worker: Id, backend: Id)
    requires VersionsBooked(db)
    ensures var out := CreateAssignment(db, a, att, worker, backend); out.Committed? ==> VersionsBooked(out.db)
  {
    var out := CreateAssignment(db, a, att, worker, backend);
    if out.Committed? {
      var wu := db.attempts[att].workUnit;
      AppendBooked(db, SetWorkUnit(db, wu, WuAssigned), WorkUnitStatusSet(wu, WuAssigned));
      AppendBooked(SetWorkUnit(db, wu, WuAssigned), out.db, AssignmentCreated(wu, att, a));
    }
  }

  lemma StepBooked(db: Db, step: Step)
    requires VersionsBooked(db)
    ensures VersionsBooked(Next(db, step))
  {
    match step
    case DoCreateWorkUnit(wu) => CreateBooked(db, step);
    case DoCreateAttempt(att, wu) => CreateBooked(db, step);
    case DoReschedule(att, previous, origin) => CreateBooked(db, step);
    case DoCreateAssignment(a, att, worker, backend) => CreateAssignmentBooked(db, a, att, worker, backend);
    case DoAccept(a, worker, expected, token, expiresAt) =>
      if AcceptRead(db, a, worker).Row? {
        AcceptCommitBooked(db, a, db.assignments[a], worker, expected, token, expiresAt);
      }
    case DoReject(a, worker) =>
      if AssignmentForWorker(db, a, worker).Row? {
        AppendBooked(db, Next(db, step), AssignmentRejected(db.assignments[a].workUnit, db.assignments[a].attempt, a));
      }
    case DoProgress(a, worker, token, expected, expiresAt) =>
      if ProgressRead(db, a, worker, token).Row? {
        ProgressCommitBooked(db, a, db.assignments[a], worker, expected, expiresAt);
      }
    case DoSubmit(a, worker, cred, output, envelope, freshId) =>
      SubmitBooked(db, a, worker, cred, output, envelope, freshId);
    case DoSweep(now, order) => if Lists(order, db, now) { ExpireAllBooked(db, order); }
    case DoNote(topic) => AppendBooked(db, Note(db, OtherEvent(topic)), OtherEvent(topic));
  }

  /////// The one accept of an assignment

  ghost predicate AcceptAt(log: seq<Event>, a: Id, i: int) {
    0 <= i < |log| && log[i].AssignmentAccepted? && log[i].assignment == a
  }

  /** Events that can only come from holding the lease. */
  predicate UsesLease(ev: Event) {
    ev.AssignmentProgress? || ev.AssignmentCompleted? || ev.ResultSubmitted? || ev.ResultQuarantinedLate?
  }

  ghost predicate AcceptsBooked(db: Db) {
    && (forall a, i, j :: AcceptAt(db.log, a, i) && AcceptAt(db.log, a, j) ==> i == j)
    && (forall a, i :: AcceptAt(db.log, a, i) ==>
          a in db.assignments && db.assignments[a].tokenHash.Some? && db.log[i].worker == db.assignments[a].worker)
    && (forall a :: a in db.assignments && db.assignments[a].tokenHash.Some? ==> exists i :: AcceptAt(db.log, a, i))
    && (forall k :: 0 <= k < |db.log| && UsesLease(db.log[k]) ==>
          exists i :: i < k && AcceptAt(db.log, db.log[k].assignment, i))
  }

  lemma AcceptAtAppend(log: seq<Event>, ev: Event)
    ensures forall a, i :: AcceptAt(log + [ev], a, i) <==>
              AcceptAt(log, a, i) || (i == |log| && ev.AssignmentAccepted? && ev.assignment == a)
  {
  }

  /** One event appended. An accept needs a row with no token yet and gives it one;
      a lease use needs a row with a token; nothing else touches a token. */
  lemma AppendAccepts(db: Db, after: Db, ev: Event)
    requires AcceptsBooked(db) && after.log == db.log + [ev]
    requires forall a :: a in db.assignments ==>
               a in after.assignments && after.assignments[a].worker == db.assignments[a].worker
    requires forall a :: a in db.assignments && !(ev.AssignmentAccepted? && ev.assignment == a) ==>
                         after.assignments[a].tokenHash == db.assignments[a].tokenHash
    requires forall a :: a in after.assignments && a !in db.assignments ==> after.assignments[a].tokenHash.None?
    requires ev.AssignmentAccepted? ==>
               && ev.assignment in db.assignments && db.assignments[ev.assignment].tokenHash.None?
               && after.assignments[ev.assignment].tokenHash.Some? && ev.worker == db.assignments[ev.assignment].worker
    requires UsesLease(ev) ==> ev.assignment in db.assignments && db.assignments[ev.assignment].tokenHash.Some?
    ensures AcceptsBooked(after)
  {
    AcceptAtAppend(db.log, ev);
    forall a | a in after.assignments && after.assignments[a].tokenHash.Some?
      ensures exists i :: AcceptAt(after.log, a, i)
    {
      if ev.AssignmentAccepted? && ev.assignment == a {
        assert AcceptAt(after.log, a, |db.log|);
      } else {
        var i :| AcceptAt(db.log, a, i);
        assert AcceptAt(after.log, a, i);
      }
    }
    forall k | 0 <= k < |after.log| && UsesLease(after.log[k])
      ensures exists i :: i < k && AcceptAt(after.log, after.log[k].assignment, i)
    {
      if k < |db.log| {
        assert after.log[k] == db.log[k];
        var i :| i < k && AcceptAt(db.log, db.log[k].assignment, i);
        assert AcceptAt(after.log, after.log[k].assignment, i);
      } else {
        var i :| AcceptAt(db.log, ev.assignment, i);
        assert AcceptAt(after.log, after.log[k].assignment, i);
      }
    }
  }

  lemma AcceptAccepts(db: Db, a: Id, worker: Id, expected: int, token: LeaseToken, expiresAt: string)
    requires AcceptsBooked(db) && Sound(db)
    ensures var out := Accept(db, a, worker, expected, token, expiresAt); out.Committed? ==> AcceptsBooked(out.db)
  {
    var out := Accept(db, a, worker, expected, token, expiresAt);
    if out.Committed? {
      var row := db.assignments[a];
      assert RowSound(db, row);
      var mid := SetWorkUnit(db, row.workUnit, WuRunning);
      AppendAccepts(db, mid, WorkUnitStatusSet(row.workUnit, WuRunning));
      AppendAccepts(mid, out.db, AssignmentAccepted(row.workUnit, row.attempt, a, worker, row.leaseVersion + 1));
    }
  }

  lemma SubmitAccepts(db: Db, a: Id, worker: Id, cred: Credential, output: Json, envelope: Option<Envelope>,
                      freshId: Id)
    requires AcceptsBooked(db)
    ensures var out := Submit(db, a, worker, cred, output, envelope, freshId); out.Committed? ==> AcceptsBooked(out.db)
  {
    if Submit(db, a, worker, cred, output, envelope, freshId).Committed? {
      var row := db.assignments[a];
      var late := Late(db, row.attempt);
      StoreAccepts(db, a, BuildResultRow(a, row, output, envelope, freshId, late), late);
    }
  }

  lemma StoreAccepts(db: Db, a: Id, result: ResultRow, late: bool)
    requires AcceptsBooked(db) && a in db.assignments && db.assignments[a].tokenHash.Some?
    ensures var out := StoreOutcome(db, a, db.assignments[a], result, late); out.Committed? ==> AcceptsBooked(out.db)
  {
    var row := db.assignments[a];
    var out := StoreOutcome(db, a, row, result, late);
    if out.Committed? && late {
      AppendAccepts(db, out.db, ResultQuarantinedLate(row.workUnit, row.attempt, a, result.id));
    } else if out.Committed? {
      var d2 := SetWorkUnit(AddResult(db, result, false), row.workUnit, WuSucceeded);
      AppendAccepts(db, d2, WorkUnitStatusSet(row.workUnit, WuSucceeded));
      var ev := AssignmentCompleted(row.workUnit, row.attempt, a);
      var d3 := Transition(d2, a, row.(status := AsgCompleted), Some(AttSucceeded), ev);
      AppendAccepts(d2, d3, ev);
      AppendAccepts(d3, out.db, ResultSubmitted(row.workUnit, row.attempt, a, result.id));
    }
  }

  lemma {:induction false} ExpireAllAccepts(db: Db, order: seq<Id>)
    requires AcceptsBooked(db) && forall a :: a in order ==> a in db.assignments
    ensures AcceptsBooked(ExpireAll(db, order))
    decreases |order|
  {
    if order != [] {
      var row := db.assignments[order[0]];
      AppendAccepts(db, ExpireOne(db, order[0]), AssignmentExpired(row.workUnit, row.attempt, order[0]));
      ExpireAllAccepts(ExpireOne(db, order[0]), order[1..]);
    }
  }

  lemma CreateAccepts(db: Db, step: Step)
    requires AcceptsBooked(db)
    requires step.DoCreateWorkUnit? || step.DoCreateAttempt? || step.DoReschedule?
    ensures AcceptsBooked(Next(db, step))
  {
    var after := Next(db, step);
    if Apply(db, step).Committed? {
      if step.DoCreateWorkUnit? {
        AppendAccepts(db, Note(db, RunCreated), RunCreated);
        AppendAccepts(Note(db, RunCreated), after, WorkUnitCreated(step.wu));
      } else {
        AppendAccepts(db, after, after.log[|db.log|]);
      }
    }
  }

  lemma CreateAssignmentAccepts(db: Db, a: Id, att: Id, worker: Id, backend: Id)
    requires AcceptsBooked(db)
    ensures var out := CreateAssignment(db, a, att, worker, backend); out.Committed? ==> AcceptsBooked(out.db)
  {
    var out := CreateAssignment(db, a, att, worker, backend);
    if out.Committed? {
      var wu := db.attempts[att].workUnit;
      AppendAccepts(db, SetWorkUnit(db, wu, WuAssigned), WorkUnitStatusSet(wu, WuAssigned));
      AppendAccepts(SetWorkUnit(db, wu, WuAssigned), out.db, AssignmentCreated(wu, att, a));
    }
  }

  lemma RejectProgressAccepts(db: Db, a: Id, worker: Id, token: LeaseToken, expected: int, expiresAt: string)
    requires AcceptsBooked(db)
    ensures var out := Reject(db, a, worker); out.Committed? ==> AcceptsBooked(out.db)
    ensures var out := Progress(db, a, worker, token, expected, expiresAt); out.Committed? ==> AcceptsBooked(out.db)
  {
    var out := Reject(db, a, worker);
    if out.Committed? {
      AppendAccepts(db, out.db, AssignmentRejected(db.assignments[a].workUnit, db.assignments[a].attempt, a));
    }
    out := Progress(db, a, worker, token, expected, expiresAt);
    if out.Committed? {
      var row := db.assignments[a];
      AppendAccepts(db, out.db, AssignmentProgress(row.workUnit, row.attempt, a, worker, row.leaseVersion + 1));
    }
  }

  lemma StepAccepts(db: Db, step: Step)
    requires AcceptsBooked(db) && Sound(db)
    ensures AcceptsBooked(Next(db, step))
  {
    match step
    case DoCreateWorkUnit(wu) => CreateAccepts(db, step);
    case DoCreateAttempt(att, wu) => CreateAccepts(db, step);
    case DoReschedule(att, previous, origin) => CreateAccepts(db, step);
    case DoCreateAssignment(a, att, worker, backend) => CreateAssignmentAccepts(db, a, att, worker, backend);
    case DoAccept(a, worker, expected, token, expiresAt) => AcceptAccepts(db, a, worker, expected, token, expiresAt);
    case DoReject(a, worker) => RejectProgressAccepts(db, a, worker, LeaseToken(0), 0, "");
    case DoProgress(a, worker, token, expected, expiresAt) =>
      RejectProgressAccepts(db, a, worker, token, expected, expiresAt);
    case DoSubmit(a, worker, cred, output, envelope, freshId) =>
      SubmitAccepts(db, a, worker, cred, output, envelope, freshId);
    case DoSweep(now, order) => if Lists(order, db, now) { ExpireAllAccepts(db, order); }
    case DoNote(topic) => AppendAccepts(db, Note(db, OtherEvent(topic)), OtherEvent(topic));
  }

  lemma {:induction false} RunBooked(db: Db, steps: seq<Step>)
    requires Sound(db) && VersionsBooked(db) && AcceptsBooked(db)
    ensures var end := Run(db, steps); Sound(end) && VersionsBooked(end) && AcceptsBooked(end)
    decreases |steps|
  {
    if steps != [] {
      StepKeeps(db, steps[0]);
      StepBooked(db, steps[0]);
      StepAccepts(db, steps[0]);
      RunBooked(Next(db, steps[0]), steps[1..]);
    }
  }

  lemma {:induction false} VersionCount(log: seq<Event>, a: Id)
    ensures |LeaseVersions(log, a)| == |set k | 0 <= k < |log| && IsLeaseCommit(log[k], a)|
  {
    var all := set k | 0 <= k < |log| && IsLeaseCommit(log[k], a);
    if log != [] {
      var init := log[..|log| - 1];
      VersionCount(init, a);
      var before := set k | 0 <= k < |init| && IsLeaseCommit(init[k], a);
      assert before == set k | 0 <= k < |init| && IsLeaseCommit(log[k], a);
      assert all == before + if IsLeaseCommit(log[|log| - 1], a) then {|log| - 1} else {};
    }
  }

  /** Main result: in every reachable state, for every assignment, lease_version is the
      number of accepted plus progress events; version 0, no token and no expiry are the
      same thing; an assignment still `created` has never been leased; its accept is unique
      and by its own worker; and every lease use in the log comes after it. */
  lemma LeaseHistory(steps: seq<Step>, a: Id)
    requires a in Run(EMPTY_DB, steps).assignments
    ensures var db := Run(EMPTY_DB, steps);
            var row := db.assignments[a];
            && LeaseVersions(db.log, a) == Upto(row.leaseVersion)
            && row.leaseVersion == |set k | 0 <= k < |db.log| && IsLeaseCommit(db.log[k], a)|
            && (row.leaseVersion == 0 <==> row.tokenHash.None?)
            && (row.tokenHash.None? <==> row.expiresAt.None?)
            && (row.status == AsgCreated ==> row.leaseVersion == 0)
            && (row.tokenHash.Some? <==> exists i :: AcceptAt(db.log, a, i))
            && (forall i, j :: AcceptAt(db.log, a, i) && AcceptAt(db.log, a, j) ==> i == j)
            && (forall i :: AcceptAt(db.log, a, i) ==> db.log[i].worker == row.worker)
            && (forall k :: 0 <= k < |db.log| && UsesLease(db.log[k]) && db.log[k].assignment == a ==>
                  exists i :: i < k && AcceptAt(db.log, a, i))
  {
    RunBooked(EMPTY_DB, steps);
    var db := Run(EMPTY_DB, steps);
    assert RowSound(db, db.assignments[a]);
    assert LeaseVersions(db.log, a) == Upto(CurrentVersion(db, a));
    VersionCount(db.log, a);
  }
}
