// The event log alone determines every status in the database: replaying it in
// sequence order, by event type, rebuilds the status columns exactly.

module EventSourcing {
  import opened Common
  import opened Hashes
  import opened Scheduler
  import opened Integrity

  datatype Statuses = Statuses(
    workUnits: map<Id, WorkUnitStatus>,
    attempts: map<Id, AttemptStatus>,
    assignments: map<Id, AssignmentStatus>)

  /** What one event says happened. */
  function Effect(s: Statuses, ev: Event): Statuses {
    match ev
    case WorkUnitCreated(wu) => s.(workUnits := s.workUnits[wu := WuSubmitted])
    case WorkUnitStatusSet(wu, status) => s.(workUnits := s.workUnits[wu := status])
    case AttemptCreated(_, att, _, origin) => s.(attempts := s.attempts[att := OriginStatus(origin)])
    case AssignmentCreated(_, att, a) =>
      s.(attempts := s.attempts[att := AttAssigned], assignments := s.assignments[a := AsgCreated])
    case AssignmentAccepted(_, att, a, _, _) =>
      s.(attempts := s.attempts[att := AttRunning], assignments := s.assignments[a := AsgAccepted])
    case AssignmentProgress(_, _, a, _, _) => s.(assignments := s.assignments[a := AsgRunning])
    case AssignmentRejected(_, att, a) =>
      s.(attempts := s.attempts[att := AttFailed], assignments := s.assignments[a := AsgRejected])
    case AssignmentExpired(_, _, a) => s.(assignments := s.assignments[a := AsgExpired])
    case AssignmentCompleted(_, att, a) =>
      s.(attempts := s.attempts[att := AttSucceeded], assignments := s.assignments[a := AsgCompleted])
    case ResultQuarantinedLate(_, att, a, _) =>
      s.(attempts := s.attempts[att := AttQuarantined], assignments := s.assignments[a := AsgQuarantined])
    case RunCreated => s
    case ResultSubmitted(_, _, _, _) => s
    case OtherEvent(_) => s
  }

  function Replay(log: seq<Event>): Statuses {
    if log == [] then Statuses(map[], map[], map[])
    else Effect(Replay(log[..|log| - 1]), log[|log| - 1])
  }

  /** The status columns of the tables. */
  function StatusColumns(db: Db): Statuses {
    Statuses(db.workUnits,
             map att | att in db.attempts :: db.attempts[att].status,
             map a | a in db.assignments :: db.assignments[a].status)
  }

  ghost predicate Faithful(db: Db) { Replay(db.log) == StatusColumns(db) }

  lemma ReplayAppend(log: seq<Event>, ev: Event)
    ensures Replay(log + [ev]) == Effect(Replay(log), ev)
  {
    assert (log + [ev])[..|log|] == log;
  }

  /////// One write, one event

  lemma SetWorkUnitFaithful(db: Db, wu: Id, status: WorkUnitStatus)
    requires Faithful(db)
    ensures Faithful(SetWorkUnit(db, wu, status))
  {
    ReplayAppend(db.log, WorkUnitStatusSet(wu, status));
  }

  lemma NoteFaithful(db: Db, ev: Event)
    requires Faithful(db) && (ev.RunCreated? || ev.ResultSubmitted? || ev.OtherEvent?)
    ensures Faithful(Note(db, ev))
  {
    ReplayAppend(db.log, ev);
  }

  /** Writing a row and the event that announces its statuses. */
  lemma TransitionFaithful(db: Db, a: Id, row: Assignment, attStatus: Option<AttemptStatus>, ev: Event)
    requires Faithful(db) && row.attempt in db.attempts
    requires Effect(StatusColumns(db), ev) == WithRow(StatusColumns(db), a, row, attStatus)
    ensures Faithful(Transition(db, a, row, attStatus, ev))
  {
    ReplayAppend(db.log, ev);
    TransitionColumns(db, a, row, attStatus, ev);
  }

  ghost function WithRow(s: Statuses, a: Id, row: Assignment, attStatus: Option<AttemptStatus>): Statuses {
    s.(attempts := if attStatus.Some? then s.attempts[row.attempt := attStatus.value] else s.attempts,
       assignments := s.assignments[a := row.status])
  }

  lemma TransitionColumns(db: Db, a: Id, row: Assignment, attStatus: Option<AttemptStatus>, ev: Event)
    requires row.attempt in db.attempts
    ensures StatusColumns(Transition(db, a, row, attStatus, ev)) == WithRow(StatusColumns(db), a, row, attStatus)
  {
    var after := Transition(db, a, row, attStatus, ev);
    var s := StatusColumns(db);
    assert StatusColumns(after).assignments == s.assignments[a := row.status];
    assert StatusColumns(after).attempts == WithRow(s, a, row, attStatus).attempts;
  }

  lemma AddResultFaithful(db: Db, row: ResultRow, late: bool)
    requires Faithful(db)
    ensures Faithful(AddResult(db, row, late))
  {
  }

  /////// Operation by operation

  lemma CreateFaithful(db: Db, id: Id, wu: Id, origin: Origin)
    requires Faithful(db)
    ensures CreateWorkUnit(db, wu).Committed? ==> Faithful(CreateWorkUnit(db, wu).db)
    ensures CreateAttempt(db, id, wu, origin).Committed? ==> Faithful(CreateAttempt(db, id, wu, origin).db)
  {
    ReplayAppend(db.log, RunCreated);
    ReplayAppend(db.log + [RunCreated], WorkUnitCreated(wu));
    InsertFaithful(db, id, wu, NextAttemptNumber(db.attempts, wu), origin);
  }

  lemma InsertFaithful(db: Db, att: Id, wu: Id, number: nat, origin: Origin)
    requires Faithful(db)
    ensures var out := InsertAttempt(db, att, wu, number, origin); out.Committed? ==> Faithful(out.db)
  {
    var out := InsertAttempt(db, att, wu, number, origin);
    if out.Committed? {
      ReplayAppend(db.log, AttemptCreated(wu, att, number, origin));
      assert StatusColumns(out.db).attempts == StatusColumns(db).attempts[att := OriginStatus(origin)];
    }
  }

  lemma AcceptCommitFaithful(db: Db, a: Id, stale: Assignment, worker: Id, expected: int, token: LeaseToken,
                             expiresAt: string)
    requires Faithful(db) && Sound(db)
    requires a in db.assignments ==> db.assignments[a].attempt == stale.attempt
    ensures var out := AcceptCommit(db, a, stale, worker, expected, token, expiresAt);
            out.Committed? ==> Faithful(out.db)
  {
    if AcceptCommit(db, a, stale, worker, expected, token, expiresAt).Committed? {
      var current := db.assignments[a];
      assert RowSound(db, current);
      var version := current.leaseVersion + 1;
      var row := current.(status := AsgAccepted, leaseVersion := version,
                          tokenHash := Some(TokenHash(token)), expiresAt := Some(expiresAt));
      SetWorkUnitFaithful(db, stale.workUnit, WuRunning);
      AcceptedFaithful(SetWorkUnit(db, stale.workUnit, WuRunning), a, row, stale.workUnit, worker);
    }
  }

  lemma AcceptedFaithful(db: Db, a: Id, row: Assignment, wu: Id, worker: Id)
    requires Faithful(db) && row.attempt in db.attempts && row.status == AsgAccepted
    ensures Faithful(Transition(db, a, row, Some(AttRunning),
                                AssignmentAccepted(wu, row.attempt, a, worker, row.leaseVersion)))
  {
    TransitionFaithful(db, a, row, Some(AttRunning),
                       AssignmentAccepted(wu, row.attempt, a, worker, row.leaseVersion));
  }

  lemma ProgressCommitFaithful(db: Db, a: Id, stale: Assignment, worker: Id, expected: int, expiresAt: string)
    requires Faithful(db) && Sound(db)
    ensures var out := ProgressCommit(db, a, stale, worker, expected, expiresAt); out.Committed? ==> Faithful(out.db)
  {
    if ProgressCommit(db, a, stale, worker, expected, expiresAt).Committed? {
      var current := db.assignments[a];
      assert RowSound(db, current);
      var version := current.leaseVersion + 1;
      TransitionFaithful(db, a, current.(status := AsgRunning, leaseVersion := version, expiresAt := Some(expiresAt)),
                         None,
                         AssignmentProgress(stale.workUnit, stale.attempt, a, worker, version));
    }
  }

  lemma SubmitFaithful(db: Db, a: Id, worker: Id, cred: Credential, output: Json, envelope: Option<Envelope>,
                       freshId: Id)
    requires Faithful(db) && Sound(db)
    ensures var out := Submit(db, a, worker, cred, output, envelope, freshId); out.Committed? ==> Faithful(out.db)
  {
    if Submit(db, a, worker, cred, output, envelope, freshId).Committed? {
      var row := db.assignments[a];
      var late := Late(db, row.attempt);
      StoreFaithful(db, a, BuildResultRow(a, row, output, envelope, freshId, late), late);
    }
  }

  lemma StoreFaithful(db: Db, a: Id, result: ResultRow, late: bool)
    requires Faithful(db) && Sound(db) && a in db.assignments
    ensures var out := StoreOutcome(db, a, db.assignments[a], result, late); out.Committed? ==> Faithful(out.db)
  {
    var row := db.assignments[a];
    assert RowSound(db, row);
    if StoreOutcome(db, a, row, result, late).Committed? {
      if late { StoreLateFaithful(db, a, row, result); } else { StoreCurrentFaithful(db, a, row, result); }
    }
  }

  lemma StoreLateFaithful(db: Db, a: Id, row: Assignment, result: ResultRow)
    requires Faithful(db) && Sound(db) && a in db.assignments && db.assignments[a] == row && RowSound(db, row)
    ensures Faithful(StoreLate(db, a, row, result))
  {
    AddResultFaithful(db, result, true);
    TransitionFaithful(AddResult(db, result, true), a, row.(status := AsgQuarantined), Some(AttQuarantined),
                       ResultQuarantinedLate(row.workUnit, row.attempt, a, result.id));
  }

  lemma StoreCurrentFaithful(db: Db, a: Id, row: Assignment, result: ResultRow)
    requires Faithful(db) && Sound(db) && a in db.assignments && db.assignments[a] == row && RowSound(db, row)
             && row.workUnit in db.workUnits
    ensures Faithful(StoreCurrent(db, a, row, result))
  {
    var d1 := AddResult(db, result, false);
    AddResultFaithful(db, result, false);
    SetWorkUnitFaithful(d1, row.workUnit, WuSucceeded);
    var d2 := SetWorkUnit(d1, row.workUnit, WuSucceeded);
    var ev := AssignmentCompleted(row.workUnit, row.attempt, a);
    TransitionFaithful(d2, a, row.(status := AsgCompleted), Some(AttSucceeded), ev);
    NoteFaithful(Transition(d2, a, row.(status := AsgCompleted), Some(AttSucceeded), ev),
                 ResultSubmitted(row.workUnit, row.attempt, a, result.id));
  }

  lemma {:induction false} ExpireAllFaithful(db: Db, order: seq<Id>)
    requires Faithful(db) && Sound(db) && forall a :: a in order ==> a in db.assignments
    ensures Faithful(ExpireAll(db, order))
    decreases |order|
  {
    if order != [] {
      var a := order[0];
      var row := db.assignments[a];
      assert RowSound(db, row);
      TransitionFaithful(db, a, row.(status := AsgExpired), None, AssignmentExpired(row.workUnit, row.attempt, a));
      ExpireAllKeeps(db, [a]);
      assert ExpireAll(db, [a]) == ExpireOne(db, a);
      ExpireAllFaithful(ExpireOne(db, a), order[1..]);
    }
  }

  lemma CreateAssignmentFaithful(db: Db, a: Id, att: Id, worker: Id, backend: Id)
    requires Faithful(db) && Sound(db)
    ensures var out := CreateAssignment(db, a, att, worker, backend); out.Committed? ==> Faithful(out.db)
  {
    if CreateAssignment(db, a, att, worker, backend).Committed? {
      var wu := db.attempts[att].workUnit;
      SetWorkUnitFaithful(db, wu, WuAssigned);
      TransitionFaithful(SetWorkUnit(db, wu, WuAssigned), a,
                         Assignment(att, wu, worker, backend, AsgCreated, 0, None, None), Some(AttAssigned),
                         AssignmentCreated(wu, att, a));
    }
  }

  lemma RejectFaithful(db: Db, a: Id, worker: Id)
    requires Faithful(db) && Sound(db)
    ensures var out := Reject(db, a, worker); out.Committed? ==> Faithful(out.db)
  {
    if AssignmentForWorker(db, a, worker).Row? {
      var row := db.assignments[a];
      assert RowSound(db, row);
      TransitionFaithful(db, a, row.(status := AsgRejected), Some(AttFailed),
                         AssignmentRejected(row.workUnit, row.attempt, a));
    }
  }

  lemma StepFaithful(db: Db, step: Step)
    requires Faithful(db) && Sound(db)
    ensures Faithful(Next(db, step))
  {
    match step
    case DoCreateWorkUnit(wu) => CreateFaithful(db, wu, wu, FirstTry);
    case DoCreateAttempt(att, wu) => CreateFaithful(db, att, wu, FirstTry);
    case DoReschedule(att, previous, origin) =>
      if previous in db.attempts { CreateFaithful(db, att, db.attempts[previous].workUnit, origin); }
    case DoCreateAssignment(a, att, worker, backend) =>
      CreateAssignmentFaithful(db, a, att, worker, backend);
    case DoAccept(a, worker, expected, token, expiresAt) =>
      if AcceptRead(db, a, worker).Row? {
        AcceptCommitFaithful(db, a, db.assignments[a], worker, expected, token, expiresAt);
      }
    case DoReject(a, worker) =>
      RejectFaithful(db, a, worker);
    case DoProgress(a, worker, token, expected, expiresAt) =>
      if ProgressRead(db, a, worker, token).Row? {
        ProgressCommitFaithful(db, a, db.assignments[a], worker, expected, expiresAt);
      }
    case DoSubmit(a, worker, cred, output, envelope, freshId) =>
      SubmitFaithful(db, a, worker, cred, output, envelope, freshId);
    case DoSweep(now, order) =>
      if Lists(order, db, now) { ExpireAllFaithful(db, order); }
    case DoNote(topic) => NoteFaithful(db, OtherEvent(topic));
  }

  /** Event sourcing, for every run from any faithful database. */
  lemma {:induction false} RunFaithful(db: Db, steps: seq<Step>)
    requires Faithful(db) && Sound(db)
    ensures Faithful(Run(db, steps))
    decreases |steps|
  {
    if steps != [] {
      StepFaithful(db, steps[0]);
      StepKeeps(db, steps[0]);
      RunFaithful(Next(db, steps[0]), steps[1..]);
    }
  }

  /** Main result: in every reachable state the log rebuilds every status column. */
  lemma LogRebuildsStatuses(steps: seq<Step>)
    ensures Replay(Run(EMPTY_DB, steps).log) == StatusColumns(Run(EMPTY_DB, steps))
  {
    assert StatusColumns(EMPTY_DB) == Replay([]);
    RunFaithful(EMPTY_DB, steps);
  }

  /** Two histories with the same log cannot disagree on any status. */
  lemma SameLogSameStatuses(steps: seq<Step>, steps': seq<Step>)
    requires Run(EMPTY_DB, steps).log == Run(EMPTY_DB, steps').log
    ensures StatusColumns(Run(EMPTY_DB, steps)) == StatusColumns(Run(EMPTY_DB, steps'))
  {
    LogRebuildsStatuses(steps);
    LogRebuildsStatuses(steps');
  }
}
