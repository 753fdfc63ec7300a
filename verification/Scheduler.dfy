// The control-plane database as a value, and every Scheduler operation as a
// function on it. Each operation runs in one transaction: it commits a new
// database or fails and leaves the database as it was.

module Scheduler {
  import opened Common
  import opened Hashes
  import opened TimeText

  datatype WorkUnitStatus = WuSubmitted | WuAssigned | WuRunning | WuSucceeded

  datatype AttemptStatus =
    | AttCreated | AttScheduled | AttAssigned | AttRunning
    | AttFailed | AttSucceeded | AttQuarantined

  datatype AssignmentStatus =
    | AsgCreated | AsgAccepted | AsgRunning
    | AsgRejected | AsgExpired | AsgCompleted | AsgQuarantined

  datatype Attempt = Attempt(workUnit: Id, number: nat, status: AttemptStatus)

  datatype Assignment = Assignment(
    attempt: Id, workUnit: Id, worker: Id, backend: Id,
    status: AssignmentStatus, leaseVersion: nat,
    tokenHash: Option<TokenHash>, expiresAt: Option<string>)

  datatype ResultRow = ResultRow(
    id: Id, workUnit: Id, attempt: Id, assignment: Id, status: ResultStatus,
    output: Json, outputHash: Hash, resultHash: Hash)

  /** The three event types that announce a new attempt. */
  datatype Origin = FirstTry | Retry | Fallback

  datatype Event =
    | RunCreated
    | WorkUnitCreated(workUnit: Id)
    | WorkUnitStatusSet(workUnit: Id, status: WorkUnitStatus)
    | AttemptCreated(workUnit: Id, attempt: Id, number: nat, origin: Origin)
    | AssignmentCreated(workUnit: Id, attempt: Id, assignment: Id)
    | AssignmentAccepted(workUnit: Id, attempt: Id, assignment: Id, worker: Id, version: nat)
    | AssignmentProgress(workUnit: Id, attempt: Id, assignment: Id, worker: Id, version: nat)
    | AssignmentRejected(workUnit: Id, attempt: Id, assignment: Id)
    | AssignmentExpired(workUnit: Id, attempt: Id, assignment: Id)
    | AssignmentCompleted(workUnit: Id, attempt: Id, assignment: Id)
    | ResultSubmitted(workUnit: Id, attempt: Id, assignment: Id, result: Id)
    | ResultQuarantinedLate(workUnit: Id, attempt: Id, assignment: Id, result: Id)
    | OtherEvent(topic: string)

  /** The tables the scheduler owns. `results` is in insertion order, `log` holds
      the outbox events in sequence order, `quarantine` the result ids that have
      a row in result_quarantine. */
  datatype Db = Db(
    workUnits: map<Id, WorkUnitStatus>,
    attempts: map<Id, Attempt>,
    assignments: map<Id, Assignment>,
    results: seq<ResultRow>,
    quarantine: set<Id>,
    log: seq<Event>)

  const EMPTY_DB := Db(map[], map[], map[], [], {}, [])

  datatype Error = NotFound | Forbidden | LeaseConflict | Integrity

  datatype Outcome = Committed(db: Db) | Failed(error: Error)

  datatype Read = Row(row: Assignment) | Refused(error: Error)

  /** The proof of lease possession a submit carries; a hash wins over a token. */
  datatype Credential = ByToken(token: Option<LeaseToken>) | ByHash(hash: TokenHash)

  /////// Table writes

  ghost function SetWorkUnit(db: Db, wu: Id, status: WorkUnitStatus): Db {
    db.(workUnits := db.workUnits[wu := status], log := db.log + [WorkUnitStatusSet(wu, status)])
  }

  ghost function SetAttemptStatus(attempts: map<Id, Attempt>, att: Id, status: AttemptStatus): map<Id, Attempt> {
    if att in attempts then attempts[att := attempts[att].(status := status)] else attempts
  }

  /** Write one assignment row, possibly its attempt's status, and one event. */
  ghost function Transition(db: Db, a: Id, row: Assignment, attStatus: Option<AttemptStatus>, ev: Event): Db {
    db.(assignments := db.assignments[a := row],
        attempts := if attStatus.Some? then SetAttemptStatus(db.attempts, row.attempt, attStatus.value)
          else db.attempts,
        log := db.log + [ev])
  }

  ghost function AddResult(db: Db, row: ResultRow, late: bool): Db {
    db.(results := db.results + [row],
        quarantine := if late then db.quarantine + {row.id} else db.quarantine)
  }

  ghost function Note(db: Db, ev: Event): Db {
    db.(log := db.log + [ev])
  }

  /////// Queries

  ghost function MaxOf(s: set<nat>): (m: nat)
    ensures forall x :: x in s ==> x <= m
    ensures if s == {} then m == 0 else m in s
  {
    if s == {} then 0
    else
      var x :| x in s;
      var rest := MaxOf(s - {x});
      assert s == (s - {x}) + {x};
      if x > rest then x else rest
  }

  ghost function Numbers(attempts: map<Id, Attempt>, wu: Id): set<nat> {
    set att | att in attempts && attempts[att].workUnit == wu :: attempts[att].number
  }

  /** COALESCE(MAX(attempt_number), 0) + 1 over the work unit's attempts. */
  ghost function NextAttemptNumber(attempts: map<Id, Attempt>, wu: Id): nat {
    MaxOf(Numbers(attempts, wu)) + 1
  }

  ghost predicate NewerAttemptExists(attempts: map<Id, Attempt>, wu: Id, number: nat) {
    exists att :: att in attempts && attempts[att].workUnit == wu && attempts[att].number > number
  }

  /** The attempt is not the newest of its work unit. */
  ghost predicate Late(db: Db, att: Id)
    requires att in db.attempts
  {
    NewerAttemptExists(db.attempts, db.attempts[att].workUnit, db.attempts[att].number)
  }

  ghost function AssignmentForWorker(db: Db, a: Id, worker: Id): Read {
    if a !in db.assignments then Refused(NotFound)
    else if db.assignments[a].worker != worker then Refused(Forbidden)
    else Row(db.assignments[a])
  }

  ghost predicate CredentialMatches(stored: Option<TokenHash>, cred: Credential) {
    match cred
    case ByToken(token) => token.Some? && stored == Some(TokenHash(token.value))
    case ByHash(hash) => stored == Some(hash)
  }

  ghost predicate EnvelopeFits(env: Envelope, a: Id, row: Assignment) {
    && env.workUnit == row.workUnit && env.attempt == row.attempt && env.assignment == a
    && (env.worker.Some? ==> env.worker.value == row.worker)
  }

  ghost predicate ResultExists(db: Db, id: Id) {
    exists k :: 0 <= k < |db.results| && db.results[k].id == id
  }

  /////// Operations

  ghost function CreateWorkUnit(db: Db, wu: Id): Outcome {
    if wu in db.workUnits then Failed(Integrity)
    else Committed(db.(workUnits := db.workUnits[wu := WuSubmitted],
                       log := db.log + [RunCreated] + [WorkUnitCreated(wu)]))
  }

  function OriginStatus(origin: Origin): AttemptStatus {
    if origin == FirstTry then AttCreated else AttScheduled
  }

  /** The transaction of create_attempt: the number was read beforehand. */
  ghost function InsertAttempt(db: Db, att: Id, wu: Id, number: nat, origin: Origin): Outcome {
    if att in db.attempts || wu !in db.workUnits then Failed(Integrity)
    else Committed(db.(attempts := db.attempts[att := Attempt(wu, number, OriginStatus(origin))],
                       log := db.log + [AttemptCreated(wu, att, number, origin)]))
  }

  ghost function CreateAttempt(db: Db, att: Id, wu: Id, origin: Origin): Outcome {
    InsertAttempt(db, att, wu, NextAttemptNumber(db.attempts, wu), origin)
  }

  /** schedule_retry and schedule_fallback: a new attempt for the same work unit. */
  ghost function Reschedule(db: Db, att: Id, previous: Id, origin: Origin): Outcome {
    if previous !in db.attempts then Failed(NotFound)
    else CreateAttempt(db, att, db.attempts[previous].workUnit, origin)
  }

  ghost function CreateAssignment(db: Db, a: Id, att: Id, worker: Id, backend: Id): Outcome {
    if att !in db.attempts then Failed(NotFound)
    else
      var wu := db.attempts[att].workUnit;
      if a in db.assignments then Failed(Integrity)
      else if wu !in db.workUnits then Failed(NotFound)
      else
        Committed(Transition(SetWorkUnit(db, wu, WuAssigned), a,
                             Assignment(att, wu, worker, backend, AsgCreated, 0, None, None),
                             Some(AttAssigned), AssignmentCreated(wu, att, a)))
  }

  /** The part of accept that runs before its transaction opens. */
  ghost function AcceptRead(db: Db, a: Id, worker: Id): Read {
    match AssignmentForWorker(db, a, worker)
    case Refused(e) => Refused(e)
    case Row(row) => if row.status != AsgCreated then Refused(LeaseConflict) else Row(row)
  }

  /** The transaction of accept: `stale` is the row read beforehand. */
  ghost function AcceptCommit(db: Db, a: Id, stale: Assignment, worker: Id, expected: int,
                              token: LeaseToken, expiresAt: string): Outcome
  {
    if a !in db.assignments then Failed(NotFound)
    else if db.assignments[a].leaseVersion != expected then Failed(LeaseConflict)
    else if stale.workUnit !in db.workUnits then Failed(NotFound)
    else
      var current := db.assignments[a];
      var version := current.leaseVersion + 1;
      var row := current.(status := AsgAccepted, leaseVersion := version,
                          tokenHash := Some(TokenHash(token)), expiresAt := Some(expiresAt));
      Committed(Transition(SetWorkUnit(db, stale.workUnit, WuRunning), a, row, Some(AttRunning),
                           AssignmentAccepted(stale.workUnit, stale.attempt, a, worker, version)))
  }

  ghost function Accept(db: Db, a: Id, worker: Id, expected: int, token: LeaseToken, expiresAt: string): Outcome {
    match AcceptRead(db, a, worker)
    case Refused(e) => Failed(e)
    case Row(row) => AcceptCommit(db, a, row, worker, expected, token, expiresAt)
  }

  ghost function Reject(db: Db, a: Id, worker: Id): Outcome {
    match AssignmentForWorker(db, a, worker)
    case Refused(e) => Failed(e)
    case Row(row) =>
      Committed(Transition(db, a, row.(status := AsgRejected), Some(AttFailed),
                           AssignmentRejected(row.workUnit, row.attempt, a)))
  }

  ghost function ProgressRead(db: Db, a: Id, worker: Id, token: LeaseToken): Read {
    match AssignmentForWorker(db, a, worker)
    case Refused(e) => Refused(e)
    case Row(row) =>
      if !CredentialMatches(row.tokenHash, ByToken(Some(token))) then Refused(Forbidden) else Row(row)
  }

  ghost function ProgressCommit(db: Db, a: Id, stale: Assignment, worker: Id, expected: int,
                                expiresAt: string): Outcome {
    if a !in db.assignments then Failed(NotFound)
    else if db.assignments[a].leaseVersion != expected then Failed(LeaseConflict)
    else
      var current := db.assignments[a];
      var version := current.leaseVersion + 1;
      var row := current.(status := AsgRunning, leaseVersion := version, expiresAt := Some(expiresAt));
      Committed(Transition(db, a, row, None,
                           AssignmentProgress(stale.workUnit, stale.attempt, a, worker, version)))
  }

  ghost function Progress(db: Db, a: Id, worker: Id, token: LeaseToken, expected: int, expiresAt: string): Outcome {
    match ProgressRead(db, a, worker, token)
    case Refused(e) => Failed(e)
    case Row(row) => ProgressCommit(db, a, row, worker, expected, expiresAt)
  }

  /** The row a submit stores: the caller's envelope, or a bare output under a new id. */
  ghost function BuildResultRow(a: Id, row: Assignment, output: Json, envelope: Option<Envelope>, freshId: Id,
                                late: bool): ResultRow {
    match envelope
    case Some(env) =>
      ResultRow(env.id, row.workUnit, row.attempt, a,
                if late then ResultQuarantined else env.status,
                env.output, env.outputHash, env.resultHash)
    case None =>
      var status := if late then ResultQuarantined else ResultSucceeded;
      ResultRow(freshId, row.workUnit, row.attempt, a, status, output, OutputHash(output),
                BareResultHash(row.attempt, a, row.backend, OutputHash(output), status))
  }

  ghost function StoreLate(db: Db, a: Id, row: Assignment, result: ResultRow): Db {
    Transition(AddResult(db, result, true), a, row.(status := AsgQuarantined), Some(AttQuarantined),
               ResultQuarantinedLate(row.workUnit, row.attempt, a, result.id))
  }

  ghost function StoreCurrent(db: Db, a: Id, row: Assignment, result: ResultRow): Db {
    Note(Transition(SetWorkUnit(AddResult(db, result, false), row.workUnit, WuSucceeded), a,
                    row.(status := AsgCompleted), Some(AttSucceeded),
                    AssignmentCompleted(row.workUnit, row.attempt, a)),
         ResultSubmitted(row.workUnit, row.attempt, a, result.id))
  }

  /** The checks of a submit that come before its envelope is looked at. */
  ghost function SubmitRead(db: Db, a: Id, worker: Id, cred: Credential): Read {
    match AssignmentForWorker(db, a, worker)
    case Refused(e) => Refused(e)
    case Row(row) =>
      if !CredentialMatches(row.tokenHash, cred) then Refused(Forbidden)
      else if row.attempt !in db.attempts then Refused(NotFound)
      else Row(row)
  }

  /** The transaction of a submit: the result row and its lateness were settled beforehand. */
  ghost function StoreOutcome(db: Db, a: Id, row: Assignment, result: ResultRow, late: bool): Outcome {
    if ResultExists(db, result.id) then Failed(Integrity)
    else if late then Committed(StoreLate(db, a, row, result))
    else if row.workUnit !in db.workUnits then Failed(NotFound)
    else Committed(StoreCurrent(db, a, row, result))
  }

  ghost function Submit(db: Db, a: Id, worker: Id, cred: Credential, output: Json,
                        envelope: Option<Envelope>, freshId: Id): Outcome
  {
    match SubmitRead(db, a, worker, cred)
    case Refused(e) => Failed(e)
    case Row(row) =>
      if envelope.Some? && !EnvelopeFits(envelope.value, a, row) then Failed(Forbidden)
      else
        var late := Late(db, row.attempt);
        StoreOutcome(db, a, row, BuildResultRow(a, row, output, envelope, freshId, late), late)
  }

  /** The rows the sweeper's query selects: text comparison of timestamps. */
  ghost predicate Expired(db: Db, now: string, a: Id) {
    && a in db.assignments
    && (db.assignments[a].status == AsgAccepted || db.assignments[a].status == AsgRunning)
    && db.assignments[a].expiresAt.Some?
    && TextLess(db.assignments[a].expiresAt.value, now)
  }

  ghost function ExpireOne(db: Db, a: Id): Db
    requires a in db.assignments
  {
    var row := db.assignments[a];
    Transition(db, a, row.(status := AsgExpired), None, AssignmentExpired(row.workUnit, row.attempt, a))
  }

  ghost function ExpireAll(db: Db, order: seq<Id>): Db
    requires forall a :: a in order ==> a in db.assignments
    decreases |order|
  {
    if order == [] then db else ExpireAll(ExpireOne(db, order[0]), order[1..])
  }

  /** `order` lists the selected rows, each once, in whatever order the query returns. */
  ghost predicate Lists(order: seq<Id>, db: Db, now: string) {
    && (forall i, j :: 0 <= i < j < |order| ==> order[i] != order[j])
    && (forall a :: a in order <==> Expired(db, now, a))
  }

  ghost function Sweep(db: Db, now: string, order: seq<Id>): Outcome {
    if Lists(order, db, now) then Committed(ExpireAll(db, order)) else Failed(NotFound)
  }

  /////// Runs

  datatype Step =
    | DoCreateWorkUnit(wu: Id)
    | DoCreateAttempt(att: Id, wu: Id)
    | DoReschedule(att: Id, previous: Id, origin: Origin)
    | DoCreateAssignment(a: Id, att: Id, worker: Id, backend: Id)
    | DoAccept(a: Id, worker: Id, expected: int, token: LeaseToken, expiresAt: string)
    | DoReject(a: Id, worker: Id)
    | DoProgress(a: Id, worker: Id, token: LeaseToken, expected: int, expiresAt: string)
    | DoSubmit(a: Id, worker: Id, cred: Credential, output: Json, envelope: Option<Envelope>, freshId: Id)
    | DoSweep(now: string, order: seq<Id>)
    | DoNote(topic: string)   // heartbeats, audit and ledger events: no table of this module changes

  ghost function Apply(db: Db, step: Step): Outcome {
    match step
    case DoCreateWorkUnit(wu) => CreateWorkUnit(db, wu)
    case DoCreateAttempt(att, wu) => CreateAttempt(db, att, wu, FirstTry)
    case DoReschedule(att, previous, origin) => Reschedule(db, att, previous, origin)
    case DoCreateAssignment(a, att, worker, backend) => CreateAssignment(db, a, att, worker, backend)
    case DoAccept(a, worker, expected, token, expiresAt) => Accept(db, a, worker, expected, token, expiresAt)
    case DoReject(a, worker) => Reject(db, a, worker)
    case DoProgress(a, worker, token, expected, expiresAt) => Progress(db, a, worker, token, expected, expiresAt)
    case DoSubmit(a, worker, cred, output, envelope, freshId) => Submit(db, a, worker, cred, output, envelope, freshId)
    case DoSweep(now, order) => Sweep(db, now, order)
    case DoNote(topic) => Committed(Note(db, OtherEvent(topic)))
  }

  ghost function Next(db: Db, step: Step): Db {
    match Apply(db, step)
    case Committed(after) => after
    case Failed(_) => db
  }

  ghost function Run(db: Db, steps: seq<Step>): Db
    decreases |steps|
  {
    if steps == [] then db else Run(Next(db, steps[0]), steps[1..])
  }
}
