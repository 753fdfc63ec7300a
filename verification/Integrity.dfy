// What every scheduler operation keeps about single rows, and what it may
// change: the two facts the run-level theorems are built on.

module Integrity {
  import opened Common
  import opened Hashes
  import opened Scheduler

  /** References resolve, and the lease columns of a row agree with each other. */
  ghost predicate RowSound(db: Db, row: Assignment) {
    && row.attempt in db.attempts
    && db.attempts[row.attempt].workUnit == row.workUnit
    && (row.leaseVersion == 0 <==> row.tokenHash.None?)
    && (row.leaseVersion == 0 <==> row.expiresAt.None?)
    && (row.status == AsgCreated ==> row.leaseVersion == 0)
    && (row.status == AsgAccepted || row.status == AsgRunning ==> row.leaseVersion > 0)
  }

  ghost predicate Sound(db: Db) {
    && (forall att :: att in db.attempts ==> db.attempts[att].workUnit in db.workUnits)
    && (forall a :: a in db.assignments ==> RowSound(db, db.assignments[a]))
  }

  /** Whose row it is, and the token once issued, never change; versions only grow;
      `created` is never re-entered. */
  ghost predicate RowGrows(old_: Assignment, new_: Assignment) {
    && new_.attempt == old_.attempt && new_.workUnit == old_.workUnit
    && new_.worker == old_.worker && new_.backend == old_.backend
    && (old_.tokenHash.Some? ==> new_.tokenHash == old_.tokenHash)
    && old_.leaseVersion <= new_.leaseVersion
    && (new_.status == AsgCreated ==> old_.status == AsgCreated)
  }

  ghost predicate AttemptsGrow(before: map<Id, Attempt>, after: map<Id, Attempt>) {
    forall att :: att in before ==>
      att in after && after[att].workUnit == before[att].workUnit && after[att].number == before[att].number
  }

  ghost predicate ResultsGrow(before: Db, after: Db) {
    && before.results <= after.results
    && (forall k :: 0 <= k < |before.results| ==>
          (before.results[k].id in after.quarantine <==> before.results[k].id in before.quarantine))
  }

  ghost predicate Grows(before: Db, after: Db) {
    && (forall wu :: wu in before.workUnits ==> wu in after.workUnits)
    && AttemptsGrow(before.attempts, after.attempts)
    && (forall a :: a in before.assignments ==>
          a in after.assignments && RowGrows(before.assignments[a], after.assignments[a]))
    && ResultsGrow(before, after)
    && before.log <= after.log
  }

  lemma GrowsTransitive(a: Db, b: Db, c: Db)
    requires Grows(a, b) && Grows(b, c)
    ensures Grows(a, c)
  {
    forall k | 0 <= k < |a.results|
      ensures a.results[k].id in c.quarantine <==> a.results[k].id in a.quarantine
    {
      assert a.results[k] == b.results[k];
    }
  }

  /////// One write at a time

  lemma TransitionSound(db: Db, a: Id, row: Assignment, attStatus: Option<AttemptStatus>, ev: Event)
    requires Sound(db) && RowSound(db, row)
    ensures Sound(Transition(db, a, row, attStatus, ev))
  {
    var after := Transition(db, a, row, attStatus, ev);
    assert AttemptsGrow(db.attempts, after.attempts);
    forall b | b in after.assignments ensures RowSound(after, after.assignments[b]) {
      if b != a { assert RowSound(db, db.assignments[b]); }
    }
  }

  lemma TransitionKeeps(db: Db, a: Id, row: Assignment, attStatus: Option<AttemptStatus>, ev: Event)
    requires Sound(db) && RowSound(db, row)
    requires a in db.assignments ==> RowGrows(db.assignments[a], row)
    ensures Sound(Transition(db, a, row, attStatus, ev)) && Grows(db, Transition(db, a, row, attStatus, ev))
  {
    TransitionSound(db, a, row, attStatus, ev);
    assert AttemptsGrow(db.attempts, Transition(db, a, row, attStatus, ev).attempts);
  }

  lemma SetWorkUnitKeeps(db: Db, wu: Id, status: WorkUnitStatus)
    requires Sound(db)
    ensures Sound(SetWorkUnit(db, wu, status)) && Grows(db, SetWorkUnit(db, wu, status))
  {
    var after := SetWorkUnit(db, wu, status);
    forall a | a in after.assignments ensures RowSound(after, after.assignments[a]) {
      assert RowSound(db, db.assignments[a]);
    }
  }

  lemma AddResultKeeps(db: Db, row: ResultRow, late: bool)
    requires Sound(db) && !ResultExists(db, row.id)
    ensures Sound(AddResult(db, row, late)) && Grows(db, AddResult(db, row, late))
  {
    var after := AddResult(db, row, late);
    forall a | a in after.assignments ensures RowSound(after, after.assignments[a]) {
      assert RowSound(db, db.assignments[a]);
    }
  }

  lemma NoteKeeps(db: Db, ev: Event)
    requires Sound(db)
    ensures Sound(Note(db, ev)) && Grows(db, Note(db, ev))
  {
    forall a | a in db.assignments ensures RowSound(Note(db, ev), db.assignments[a]) {
      assert RowSound(db, db.assignments[a]);
    }
  }

  /////// Operation by operation

  ghost predicate Keeps(before: Db, out: Outcome) {
    out.Committed? ==> Sound(out.db) && Grows(before, out.db)
  }

  lemma CreateKeeps(db: Db, id: Id, wu: Id, origin: Origin)
    requires Sound(db)
    ensures Keeps(db, CreateWorkUnit(db, wu)) && Keeps(db, CreateAttempt(db, id, wu, origin))
  {
    var w := CreateWorkUnit(db, wu);
    if w.Committed? {
      forall a | a in db.assignments ensures RowSound(w.db, db.assignments[a]) {
        assert RowSound(db, db.assignments[a]);
      }
    }
    InsertKeeps(db, id, wu, NextAttemptNumber(db.attempts, wu), origin);
  }

  /** Whatever number it carries, a new attempt disturbs nothing. */
  lemma InsertKeeps(db: Db, att: Id, wu: Id, number: nat, origin: Origin)
    requires Sound(db)
    ensures Keeps(db, InsertAttempt(db, att, wu, number, origin))
  {
    var t := InsertAttempt(db, att, wu, number, origin);
    if t.Committed? {
      assert AttemptsGrow(db.attempts, t.db.attempts);
      forall a | a in db.assignments ensures RowSound(t.db, db.assignments[a]) {
        assert RowSound(db, db.assignments[a]);
      }
    }
  }

  lemma CreateAssignmentKeeps(db: Db, a: Id, att: Id, worker: Id, backend: Id)
    requires Sound(db)
    ensures Keeps(db, CreateAssignment(db, a, att, worker, backend))
  {
    if CreateAssignment(db, a, att, worker, backend).Committed? {
      var wu := db.attempts[att].workUnit;
      var mid := SetWorkUnit(db, wu, WuAssigned);
      SetWorkUnitKeeps(db, wu, WuAssigned);
      var row := Assignment(att, wu, worker, backend, AsgCreated, 0, None, None);
      var ev := AssignmentCreated(wu, att, a);
      TransitionKeeps(mid, a, row, Some(AttAssigned), ev);
      GrowsTransitive(db, mid, Transition(mid, a, row, Some(AttAssigned), ev));
    }
  }

  /** Committing an accept always keeps the rows sound. */
  lemma AcceptCommitSound(db: Db, a: Id, stale: Assignment, worker: Id, expected: int, token: LeaseToken,
                          expiresAt: string)
    requires Sound(db)
    ensures var out := AcceptCommit(db, a, stale, worker, expected, token, expiresAt); out.Committed? ==> Sound(out.db)
  {
    var out := AcceptCommit(db, a, stale, worker, expected, token, expiresAt);
    if out.Committed? {
      assert RowSound(db, db.assignments[a]);
      SetWorkUnitKeeps(db, stale.workUnit, WuRunning);
      var row := out.db.assignments[a];
      TransitionSound(SetWorkUnit(db, stale.workUnit, WuRunning), a, row, Some(AttRunning),
                      AssignmentAccepted(stale.workUnit, stale.attempt, a, worker, row.leaseVersion));
    }
  }

  /** It keeps the row's token only if none was issued before. */
  lemma AcceptCommitKeeps(db: Db, a: Id, stale: Assignment, worker: Id, expected: int, token: LeaseToken,
                          expiresAt: string)
    requires Sound(db)
    requires a in db.assignments ==> db.assignments[a].tokenHash.None?
    ensures Keeps(db, AcceptCommit(db, a, stale, worker, expected, token, expiresAt))
  {
    if AcceptCommit(db, a, stale, worker, expected, token, expiresAt).Committed? {
      var current := db.assignments[a];
      assert RowSound(db, current);
      var version := current.leaseVersion + 1;
      var row := current.(status := AsgAccepted, leaseVersion := version,
                          tokenHash := Some(TokenHash(token)), expiresAt := Some(expiresAt));
      var mid := SetWorkUnit(db, stale.workUnit, WuRunning);
      SetWorkUnitKeeps(db, stale.workUnit, WuRunning);
      var ev := AssignmentAccepted(stale.workUnit, stale.attempt, a, worker, version);
      TransitionKeeps(mid, a, row, Some(AttRunning), ev);
      GrowsTransitive(db, mid, Transition(mid, a, row, Some(AttRunning), ev));
    }
  }

  lemma ProgressCommitKeeps(db: Db, a: Id, stale: Assignment, worker: Id, expected: int, expiresAt: string)
    requires Sound(db)
    requires a in db.assignments ==> db.assignments[a].tokenHash.Some?
    ensures Keeps(db, ProgressCommit(db, a, stale, worker, expected, expiresAt))
  {
    if ProgressCommit(db, a, stale, worker, expected, expiresAt).Committed? {
      var current := db.assignments[a];
      assert RowSound(db, current);
      var row := current.(status := AsgRunning, leaseVersion := current.leaseVersion + 1, expiresAt := Some(expiresAt));
      TransitionKeeps(db, a, row, None,
        AssignmentProgress(stale.workUnit, stale.attempt, a, worker, current.leaseVersion + 1));
    }
  }

  /** Reject, expire and both submit branches only change the status of the row. */
  lemma StatusChangeKeeps(db: Db, a: Id, status: AssignmentStatus, attStatus: Option<AttemptStatus>, ev: Event)
    requires Sound(db) && a in db.assignments
    requires status != AsgCreated && status != AsgAccepted && status != AsgRunning
    ensures var after := Transition(db, a, db.assignments[a].(status := status), attStatus, ev);
            Sound(after) && Grows(db, after)
  {
    assert RowSound(db, db.assignments[a]);
    TransitionKeeps(db, a, db.assignments[a].(status := status), attStatus, ev);
  }

  lemma SubmitKeeps(db: Db, a: Id, worker: Id, cred: Credential, output: Json, envelope: Option<Envelope>, freshId: Id)
    requires Sound(db)
    ensures Keeps(db, Submit(db, a, worker, cred, output, envelope, freshId))
  {
    if Submit(db, a, worker, cred, output, envelope, freshId).Committed? {
      var row := db.assignments[a];
      var late := Late(db, row.attempt);
      StoreKeeps(db, a, BuildResultRow(a, row, output, envelope, freshId, late), late);
    }
  }

  /** The transaction of a submit, whether or not its lateness is still true. */
  lemma StoreKeeps(db: Db, a: Id, result: ResultRow, late: bool)
    requires Sound(db) && a in db.assignments
    ensures Keeps(db, StoreOutcome(db, a, db.assignments[a], result, late))
  {
    var row := db.assignments[a];
    var out := StoreOutcome(db, a, row, result, late);
    if out.Committed? {
      var d1 := AddResult(db, result, late);
      AddResultKeeps(db, result, late);
      if late {
        StatusChangeKeeps(d1, a, AsgQuarantined, Some(AttQuarantined),
                          ResultQuarantinedLate(row.workUnit, row.attempt, a, result.id));
        GrowsTransitive(db, d1, out.db);
      } else {
        var d2 := SetWorkUnit(d1, row.workUnit, WuSucceeded);
        SetWorkUnitKeeps(d1, row.workUnit, WuSucceeded);
        GrowsTransitive(db, d1, d2);
        var ev := AssignmentCompleted(row.workUnit, row.attempt, a);
        var d3 := Transition(d2, a, row.(status := AsgCompleted), Some(AttSucceeded), ev);
        StatusChangeKeeps(d2, a, AsgCompleted, Some(AttSucceeded), ev);
        GrowsTransitive(db, d2, d3);
        NoteKeeps(d3, ResultSubmitted(row.workUnit, row.attempt, a, result.id));
        GrowsTransitive(db, d3, out.db);
      }
    }
  }

  lemma {:induction false} ExpireAllKeeps(db: Db, order: seq<Id>)
    requires Sound(db) && forall a :: a in order ==> a in db.assignments
    ensures Sound(ExpireAll(db, order)) && Grows(db, ExpireAll(db, order))
    decreases |order|
  {
    if order != [] {
      var a := order[0];
      StatusChangeKeeps(db, a, AsgExpired, None,
                        AssignmentExpired(db.assignments[a].workUnit, db.assignments[a].attempt, a));
      ExpireAllKeeps(ExpireOne(db, a), order[1..]);
      GrowsTransitive(db, ExpireOne(db, a), ExpireAll(db, order));
    }
  }

  lemma LeaseKeeps(db: Db, step: Step)
    requires Sound(db) && (step.DoAccept? || step.DoReject? || step.DoProgress?)
    ensures Keeps(db, Apply(db, step))
  {
    match step
    case DoAccept(a, worker, expected, token, expiresAt) =>
      if AcceptRead(db, a, worker).Row? {
        assert RowSound(db, db.assignments[a]);
        AcceptCommitKeeps(db, a, db.assignments[a], worker, expected, token, expiresAt);
      }
    case DoReject(a, worker) =>
      if AssignmentForWorker(db, a, worker).Row? {
        StatusChangeKeeps(db, a, AsgRejected, Some(AttFailed),
                          AssignmentRejected(db.assignments[a].workUnit, db.assignments[a].attempt, a));
      }
    case DoProgress(a, worker, token, expected, expiresAt) =>
      if ProgressRead(db, a, worker, token).Row? {
        ProgressCommitKeeps(db, a, db.assignments[a], worker, expected, expiresAt);
      }
  }

  /////// Every step, every run

  lemma StepKeeps(db: Db, step: Step)
    requires Sound(db)
    ensures Sound(Next(db, step)) && Grows(db, Next(db, step))
  {
    match step
    case DoCreateWorkUnit(wu) => CreateKeeps(db, wu, wu, FirstTry);
    case DoCreateAttempt(att, wu) => CreateKeeps(db, att, wu, FirstTry);
    case DoReschedule(att, previous, origin) =>
      if previous in db.attempts { CreateKeeps(db, att, db.attempts[previous].workUnit, origin); }
    case DoCreateAssignment(a, att, worker, backend) => CreateAssignmentKeeps(db, a, att, worker, backend);
    case DoAccept(a, worker, expected, token, expiresAt) => LeaseKeeps(db, step);
    case DoReject(a, worker) => LeaseKeeps(db, step);
    case DoProgress(a, worker, token, expected, expiresAt) => LeaseKeeps(db, step);
    case DoSubmit(a, worker, cred, output, envelope, freshId) =>
      SubmitKeeps(db, a, worker, cred, output, envelope, freshId);
    case DoSweep(now, order) =>
      if Lists(order, db, now) { ExpireAllKeeps(db, order); }
    case DoNote(topic) => NoteKeeps(db, OtherEvent(topic));
  }

  lemma {:induction false} RunKeeps(db: Db, steps: seq<Step>)
    requires Sound(db)
    ensures Sound(Run(db, steps)) && Grows(db, Run(db, steps))
    decreases |steps|
  {
    if steps != [] {
      StepKeeps(db, steps[0]);
      RunKeeps(Next(db, steps[0]), steps[1..]);
      GrowsTransitive(db, Next(db, steps[0]), Run(db, steps));
    }
  }

  lemma {:induction false} RunThen(db: Db, steps: seq<Step>, step: Step)
    ensures Run(db, steps + [step]) == Next(Run(db, steps), step)
    decreases |steps|
  {
    if steps == [] {
      assert Run(Next(db, step), []) == Next(db, step);
    } else {
      assert (steps + [step])[1..] == steps[1..] + [step];
      RunThen(Next(db, steps[0]), steps[1..], step);
    }
  }

  /////// Reachable databases

  /** Some run of whole operations leads here. */
  ghost predicate Reachable(db: Db) { exists steps :: db == Run(EMPTY_DB, steps) }

  lemma ReachableSound(db: Db)
    requires Reachable(db)
    ensures Sound(db)
  {
    var steps :| db == Run(EMPTY_DB, steps);
    RunKeeps(EMPTY_DB, steps);
  }

  lemma CommitReachable(db: Db, step: Step, out: Outcome)
    requires Reachable(db) && Apply(db, step) == out && out.Committed?
    ensures Reachable(out.db) && Grows(db, out.db)
  {
    NextReachable(db, step);
  }

  lemma NextReachable(db: Db, step: Step)
    requires Reachable(db)
    ensures Reachable(Next(db, step)) && Grows(db, Next(db, step))
  {
    var steps :| db == Run(EMPTY_DB, steps);
    RunThen(EMPTY_DB, steps, step);
    ReachableSound(db);
    StepKeeps(db, step);
  }
}
