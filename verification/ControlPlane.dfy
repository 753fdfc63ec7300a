// The scheduler as it runs: tables updated in place inside transactions that
// roll back on failure. Every method is proved against the function of module
// Scheduler with the same name.

module ControlPlane {
  import opened Common
  import opened Hashes
  import opened TimeText
  import opened Scheduler
  import opened Outbox
  import opened Fencing

  datatype Reply = Done | Raised(error: Error)

  /** What BEGIN IMMEDIATE remembers for a rollback. */
  datatype Snapshot = Snapshot(
    workUnits: map<Id, WorkUnitStatus>, attempts: map<Id, Attempt>, assignments: map<Id, Assignment>,
    results: seq<ResultRow>, quarantine: set<Id>, rows: seq<OutboxRow>)

  /** The reply and the new database are those of the specified outcome; a failure changes nothing. */
  ghost predicate Realizes(before: Db, out: Outcome, after: Db, reply: Reply) {
    match out
    case Committed(db) => reply == Done && after == db
    case Failed(error) => reply == Raised(error) && after == before
  }

  class Database {
    var workUnits: map<Id, WorkUnitStatus>
    var attempts: map<Id, Attempt>
    var assignments: map<Id, Assignment>
    var results: seq<ResultRow>
    var quarantine: set<Id>
    const outbox: EventOutbox

    ghost function View(): Db reads this, outbox {
      Db(workUnits, attempts, assignments, results, quarantine, Events(outbox.rows))
    }

    ghost predicate Valid() reads this, outbox { outbox.Valid() }

    constructor ()
      ensures Valid() && View() == EMPTY_DB && fresh(outbox)
    {
      workUnits, attempts, assignments, results, quarantine := map[], map[], map[], [], {};
      outbox := new EventOutbox();
    }

    /////// Transactions

    method Begin() returns (saved: Snapshot)
      ensures saved == Snapshot(workUnits, attempts, assignments, results, quarantine, outbox.rows)
    {
      saved := Snapshot(workUnits, attempts, assignments, results, quarantine, outbox.rows);
    }

    method Rollback(saved: Snapshot)
      modifies this, outbox`rows
      ensures workUnits == saved.workUnits && attempts == saved.attempts && assignments == saved.assignments
      ensures results == saved.results && quarantine == saved.quarantine && outbox.rows == saved.rows
    {
      workUnits, attempts, assignments := saved.workUnits, saved.attempts, saved.assignments;
      results, quarantine := saved.results, saved.quarantine;
      outbox.rows := saved.rows;
    }

    /////// Helpers that run inside a transaction

    method UpdateWorkUnitStatus(wu: Id, status: WorkUnitStatus) returns (reply: Reply)
      requires Valid()
      modifies this`workUnits, outbox`rows
      ensures Valid()
      ensures reply == if wu in old(workUnits) then Done else Raised(NotFound)
      ensures View() == if wu in old(workUnits) then SetWorkUnit(old(View()), wu, status) else old(View())
    {
      if wu !in workUnits { return Raised(NotFound); }
      workUnits := workUnits[wu := status];
      outbox.EnqueueEvent(WorkUnitStatusSet(wu, status));
      reply := Done;
    }

    method UpdateAttemptStatus(att: Id, status: AttemptStatus)
      modifies this`attempts
      ensures attempts == SetAttemptStatus(old(attempts), att, status)
    {
      if att in attempts { attempts := attempts[att := attempts[att].(status := status)]; }
    }

    /** Compare-and-swap on lease_version; a missing token leaves the stored one (COALESCE). */
    method ConditionalAssignmentUpdate(a: Id, expected: int, status: AssignmentStatus, expiresAt: string,
                                       tokenHash: Option<TokenHash>) returns (reply: Reply)
      modifies this`assignments
      ensures reply == if a !in old(assignments) then Raised(NotFound)
                       else if old(assignments)[a].leaseVersion != expected then Raised(LeaseConflict)
                       else Done
      ensures reply.Raised? ==> assignments == old(assignments)
      ensures reply.Done? ==>
                var current := old(assignments)[a];
                assignments == old(assignments)[a := current.(
                  status := status, leaseVersion := current.leaseVersion + 1, expiresAt := Some(expiresAt),
                  tokenHash := if tokenHash.Some? then tokenHash else current.tokenHash)]
    {
      if a !in assignments { return Raised(NotFound); }
      var current := assignments[a];
      if current.leaseVersion != expected { return Raised(LeaseConflict); }
      assignments := assignments[a := current.(
        status := status, leaseVersion := current.leaseVersion + 1, expiresAt := Some(expiresAt),
        tokenHash := if tokenHash.Some? then tokenHash else current.tokenHash)];
      reply := Done;
    }

    method ReadAssignment(a: Id, worker: Id) returns (read: Read)
      ensures read == AssignmentForWorker(View(), a, worker)
    {
      if a !in assignments { return Refused(NotFound); }
      if assignments[a].worker != worker { return Refused(Forbidden); }
      read := Row(assignments[a]);
    }

    method ReadNextAttemptNumber(wu: Id) returns (number: nat)
      ensures number == NextAttemptNumber(attempts, wu)
    {
      var max := 0;
      var todo := attempts.Keys;
      while todo != {}
        invariant todo <= attempts.Keys
        invariant forall att :: att in attempts && att !in todo && attempts[att].workUnit == wu ==>
                    attempts[att].number <= max
        invariant max == 0 || max in Numbers(attempts, wu)
        decreases |todo|
      {
        var att :| att in todo;
        todo := todo - {att};
        if attempts[att].workUnit == wu && attempts[att].number > max { max := attempts[att].number; }
      }
      number := max + 1;
      MaxIsUnique(Numbers(attempts, wu), max);
    }

    /////// Intake

    /** A host stores a new work unit with its run. */
    method PersistWorkUnit(wu: Id) returns (reply: Reply)
      requires Valid()
      modifies this, outbox`rows
      ensures Valid() && Realizes(old(View()), CreateWorkUnit(old(View()), wu), View(), reply)
    {
      if wu in workUnits { return Raised(Integrity); }
      workUnits := workUnits[wu := WuSubmitted];
      outbox.EnqueueEvent(RunCreated);
      outbox.EnqueueEvent(WorkUnitCreated(wu));
      reply := Done;
    }

    /////// Scheduler methods

    method CreateAttempt(att: Id, wu: Id, origin: Origin) returns (reply: Reply)
      requires Valid()
      modifies this, outbox`rows
      ensures Valid() && Realizes(old(View()), Scheduler.CreateAttempt(old(View()), att, wu, origin), View(), reply)
    {
      var number := ReadNextAttemptNumber(wu);
      if att in attempts || wu !in workUnits { return Raised(Integrity); }
      attempts := attempts[att := Attempt(wu, number, OriginStatus(origin))];
      outbox.EnqueueEvent(AttemptCreated(wu, att, number, origin));
      reply := Done;
    }

    /** schedule_retry and schedule_fallback. */
    method ScheduleAgain(att: Id, previous: Id, origin: Origin) returns (reply: Reply)
      requires Valid()
      modifies this, outbox`rows
      ensures Valid() && Realizes(old(View()), Reschedule(old(View()), att, previous, origin), View(), reply)
    {
      if previous !in attempts { return Raised(NotFound); }
      reply := CreateAttempt(att, attempts[previous].workUnit, origin);
    }

    method CreateAssignment(a: Id, att: Id, worker: Id, backend: Id) returns (reply: Reply)
      requires Valid()
      modifies this, outbox`rows
      ensures Valid()
              && Realizes(old(View()), Scheduler.CreateAssignment(old(View()), a, att, worker, backend), View(), reply)
    {
      if att !in attempts { return Raised(NotFound); }
      var wu := attempts[att].workUnit;
      var saved := Begin();
      if a in assignments { return Raised(Integrity); }
      assignments := assignments[a := Assignment(att, wu, worker, backend, AsgCreated, 0, None, None)];
      UpdateAttemptStatus(att, AttAssigned);
      reply := UpdateWorkUnitStatus(wu, WuAssigned);
      if reply.Raised? {
        Rollback(saved);
        return;
      }
      outbox.EnqueueEvent(AssignmentCreated(wu, att, a));
    }

    method AcceptAssignment(a: Id, worker: Id, expected: int, token: LeaseToken, expiresAt: string)
      returns (reply: Reply)
      requires Valid()
      modifies this, outbox`rows
      ensures Valid()
              && Realizes(old(View()), Accept(old(View()), a, worker, expected, token, expiresAt), View(), reply)
    {
      var read := ReadAssignment(a, worker);
      if read.Refused? { return Raised(read.error); }
      var row := read.row;
      if row.status != AsgCreated { return Raised(LeaseConflict); }
      var saved := Begin();
      reply := ConditionalAssignmentUpdate(a, expected, AsgAccepted, expiresAt, Some(TokenHash(token)));
      if reply.Raised? {
        Rollback(saved);
        return;
      }
      UpdateAttemptStatus(row.attempt, AttRunning);
      reply := UpdateWorkUnitStatus(row.workUnit, WuRunning);
      if reply.Raised? {
        Rollback(saved);
        return;
      }
      outbox.EnqueueEvent(AssignmentAccepted(row.workUnit, row.attempt, a, worker, assignments[a].leaseVersion));
    }

    method RejectAssignment(a: Id, worker: Id) returns (reply: Reply)
      requires Valid()
      modifies this, outbox`rows
      ensures Valid() && Realizes(old(View()), Reject(old(View()), a, worker), View(), reply)
    {
      var read := ReadAssignment(a, worker);
      if read.Refused? { return Raised(read.error); }
      var row := read.row;
      assignments := assignments[a := row.(status := AsgRejected)];
      UpdateAttemptStatus(row.attempt, AttFailed);
      outbox.EnqueueEvent(AssignmentRejected(row.workUnit, row.attempt, a));
      reply := Done;
    }

    method ProgressAssignment(a: Id, worker: Id, token: LeaseToken, expected: int, expiresAt: string)
      returns (reply: Reply)
      requires Valid()
      modifies this, outbox`rows
      ensures Valid()
              && Realizes(old(View()), Progress(old(View()), a, worker, token, expected, expiresAt), View(), reply)
    {
      var read := ReadAssignment(a, worker);
      if read.Refused? { return Raised(read.error); }
      var row := read.row;
      if row.tokenHash.None? || TokenHash(token) != row.tokenHash.value { return Raised(Forbidden); }
      var saved := Begin();
      reply := ConditionalAssignmentUpdate(a, expected, AsgRunning, expiresAt, None);
      if reply.Raised? {
        Rollback(saved);
        return;
      }
      outbox.EnqueueEvent(AssignmentProgress(row.workUnit, row.attempt, a, worker, assignments[a].leaseVersion));
    }

    method CheckCredential(stored: Option<TokenHash>, cred: Credential) returns (ok: bool)
      ensures ok <==> CredentialMatches(stored, cred)
    {
      if stored.None? { return false; }
      match cred
      case ByHash(hash) => ok := hash == stored.value;
      case ByToken(token) => ok := token.Some? && TokenHash(token.value) == stored.value;
    }

    /** The transaction of a submit, once every check before it has passed. */
    method StoreResult(a: Id, row: Assignment, result: ResultRow, late: bool) returns (reply: Reply)
      requires Valid() && a in assignments && assignments[a] == row
      modifies this, outbox`rows
      ensures Valid()
      ensures Realizes(old(View()), StoreOutcome(old(View()), a, row, result, late), View(), reply)
    {
      var saved := Begin();
      if exists k :: 0 <= k < |results| && results[k].id == result.id { return Raised(Integrity); }
      results := results + [result];
      if late {
        assignments := assignments[a := row.(status := AsgQuarantined)];
        UpdateAttemptStatus(row.attempt, AttQuarantined);
        quarantine := quarantine + {result.id};
        outbox.EnqueueEvent(ResultQuarantinedLate(row.workUnit, row.attempt, a, result.id));
      } else {
        assignments := assignments[a := row.(status := AsgCompleted)];
        UpdateAttemptStatus(row.attempt, AttSucceeded);
        reply := UpdateWorkUnitStatus(row.workUnit, WuSucceeded);
        if reply.Raised? {
          Rollback(saved);
          return;
        }
        outbox.EnqueueEvent(AssignmentCompleted(row.workUnit, row.attempt, a));
        outbox.EnqueueEvent(ResultSubmitted(row.workUnit, row.attempt, a, result.id));
      }
      reply := Done;
    }

    method CheckSubmit(a: Id, worker: Id, cred: Credential) returns (read: Read)
      ensures read == SubmitRead(View(), a, worker, cred)
    {
      read := ReadAssignment(a, worker);
      if read.Refused? { return; }
      var ok := CheckCredential(read.row.tokenHash, cred);
      if !ok { return Refused(Forbidden); }
      if read.row.attempt !in attempts { return Refused(NotFound); }
    }

    /** _newer_attempt_exists. */
    method CheckLate(att: Id) returns (late: bool)
      requires att in attempts
      ensures late <==> Late(View(), att)
    {
      late := exists other ::
        other in attempts && attempts[other].workUnit == attempts[att].workUnit
          && attempts[other].number > attempts[att].number;
    }

    /** The row to store, unless the envelope is for something else. */
    method BuildResult(a: Id, row: Assignment, output: Json, envelope: Option<Envelope>, freshId: Id, late: bool)
      returns (result: Option<ResultRow>)
      ensures result == if envelope.Some? && !EnvelopeFits(envelope.value, a, row) then None
                        else Some(BuildResultRow(a, row, output, envelope, freshId, late))
    {
      match envelope {
        case Some(env) =>
          if !(env.workUnit == row.workUnit && env.attempt == row.attempt && env.assignment == a) { return None; }
          if env.worker.Some? && env.worker.value != row.worker { return None; }
          result := Some(ResultRow(env.id, row.workUnit, row.attempt, a, if late then ResultQuarantined else env.status,
                                   env.output, env.outputHash, env.resultHash));
        case None =>
          var status := if late then ResultQuarantined else ResultSucceeded;
          result := Some(ResultRow(freshId, row.workUnit, row.attempt, a, status, output, OutputHash(output),
                                   BareResultHash(row.attempt, a, row.backend, OutputHash(output), status)));
      }
    }

    method SubmitResult(a: Id, worker: Id, cred: Credential, output: Json, envelope: Option<Envelope>, freshId: Id)
      returns (reply: Reply)
      requires Valid()
      modifies this, outbox`rows
      ensures Valid()
              && Realizes(old(View()), Submit(old(View()), a, worker, cred, output, envelope, freshId), View(), reply)
      ensures reply.Done? ==>
                && |results| == |old(results)| + 1 && a in old(assignments)
                && StoredAsSent(results[|old(results)|], old(assignments)[a].backend, output, envelope, freshId)
    {
      ghost var before := View();
      var read := CheckSubmit(a, worker, cred);
      if read.Refused? { return Raised(read.error); }
      var row := read.row;
      var late := CheckLate(row.attempt);
      var result := BuildResult(a, row, output, envelope, freshId, late);
      if result.None? { return Raised(Forbidden); }
      reply := StoreResult(a, row, result.value, late);
      if reply.Done? { SubmitFences(before, a, worker, cred, output, envelope, freshId); }
    }

    method SelectExpired(now: string) returns (selected: set<Id>)
      ensures forall a :: a in selected <==> Expired(View(), now, a)
    {
      selected := set a | a in assignments
        && (assignments[a].status == AsgAccepted || assignments[a].status == AsgRunning)
        && assignments[a].expiresAt.Some? && TextLess(assignments[a].expiresAt.value, now);
    }

    method ExpireLease(a: Id)
      requires Valid() && a in assignments
      modifies this`assignments, outbox`rows
      ensures Valid() && View() == ExpireOne(old(View()), a)
    {
      var row := assignments[a];
      assignments := assignments[a := row.(status := AsgExpired)];
      outbox.EnqueueEvent(AssignmentExpired(row.workUnit, row.attempt, a));
    }

    /** One sweep: every selected lease expires, with one event each, and the count is returned. */
    method SweepExpiredLeases(now: string) returns (count: nat, ghost order: seq<Id>)
      requires Valid()
      modifies this`assignments, outbox`rows
      ensures Valid() && Lists(order, old(View()), now) && count == |order|
      ensures Sweep(old(View()), now, order) == Committed(View())
    {
      var selected := SelectExpired(now);
      ghost var before := View();
      assert forall a :: a in selected ==> Expired(before, now, a);
      var todo := selected;
      count, order := 0, [];
      while todo != {}
        invariant Valid() && count == |order| && Swept(selected, todo, order)
        invariant forall a :: a in selected ==> a in before.assignments
        invariant View() == ExpireAll(before, order)
        decreases |todo|
      {
        var a :| a in todo;
        SweepNext(selected, todo, order, a);
        ExpireSnoc(before, order, a);
        ExpireLease(a);
        todo, order, count := todo - {a}, order + [a], count + 1;
      }
    }
  }

  /** The selected leases are either still to do or listed once in `order`. */
  ghost predicate Swept(selected: set<Id>, todo: set<Id>, order: seq<Id>) {
    && todo <= selected && (forall a :: a in order <==> a in selected - todo)
    && (forall i, j :: 0 <= i < j < |order| ==> order[i] != order[j])
  }

  lemma SweepNext(selected: set<Id>, todo: set<Id>, order: seq<Id>, a: Id)
    requires Swept(selected, todo, order) && a in todo
    ensures Swept(selected, todo - {a}, order + [a])
  {
  }

  lemma MaxIsUnique(s: set<nat>, m: nat)
    requires forall x :: x in s ==> x <= m
    requires m == 0 || m in s
    ensures MaxOf(s) == m
  {
  }

  lemma {:induction false} ExpireSnoc(db: Db, order: seq<Id>, a: Id)
    requires a in db.assignments && forall b :: b in order ==> b in db.assignments
    ensures a in ExpireAll(db, order).assignments
    ensures ExpireAll(db, order + [a]) == ExpireOne(ExpireAll(db, order), a)
    decreases |order|
  {
    if order == [] {
      assert (order + [a])[1..] == [];
    } else {
      assert (order + [a])[1..] == order[1..] + [a];
      ExpireSnoc(ExpireOne(db, order[0]), order[1..], a);
    }
  }
}
