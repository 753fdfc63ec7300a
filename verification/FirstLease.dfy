// The shortest history that leads to a lease: one work unit, its first attempt
// and one assignment. Witnesses of what can go wrong start here.

module FirstLease {
  import opened Common
  import opened Hashes
  import opened Scheduler

  /** Who takes part. */
  datatype Cast = Cast(wu: Id, att: Id, a: Id, worker: Id, backend: Id)

  function CreateUnit(c: Cast): Step { DoCreateWorkUnit(c.wu) }
  function CreateTry(c: Cast): Step { DoCreateAttempt(c.att, c.wu) }
  function Assign(c: Cast): Step { DoCreateAssignment(c.a, c.att, c.worker, c.backend) }

  /** The database those three steps leave. */
  ghost function FirstDb(c: Cast): Db {
    Db(map[c.wu := WuAssigned], map[c.att := Attempt(c.wu, 1, AttAssigned)],
       map[c.a := Assignment(c.att, c.wu, c.worker, c.backend, AsgCreated, 0, None, None)], [], {},
       [RunCreated, WorkUnitCreated(c.wu), AttemptCreated(c.wu, c.att, 1, FirstTry),
        WorkUnitStatusSet(c.wu, WuAssigned), AssignmentCreated(c.wu, c.att, c.a)])
  }

  lemma FirstDbReached(c: Cast)
    ensures Next(Next(Next(EMPTY_DB, CreateUnit(c)), CreateTry(c)), Assign(c)) == FirstDb(c)
  {
    var one := Next(EMPTY_DB, CreateUnit(c));
    assert Numbers(one.attempts, c.wu) == {};
    var two := Next(one, CreateTry(c));
    assert two.attempts == map[c.att := Attempt(c.wu, 1, AttCreated)];
    var three := Next(two, Assign(c));
    assert three.attempts == FirstDb(c).attempts && three.assignments == FirstDb(c).assignments;
    assert three.workUnits == FirstDb(c).workUnits && three.log == FirstDb(c).log;
  }

  /** The database after the worker has accepted. */
  ghost function LeasedDb(c: Cast, token: LeaseToken, expiresAt: string): Db {
    Db(map[c.wu := WuRunning], map[c.att := Attempt(c.wu, 1, AttRunning)],
       map[c.a := Assignment(c.att, c.wu, c.worker, c.backend, AsgAccepted, 1, Some(TokenHash(token)),
                             Some(expiresAt))], [], {},
       FirstDb(c).log + [WorkUnitStatusSet(c.wu, WuRunning)] + [AssignmentAccepted(c.wu, c.att, c.a, c.worker, 1)])
  }

  lemma LeasedDbReached(c: Cast, token: LeaseToken, expiresAt: string)
    ensures Accept(FirstDb(c), c.a, c.worker, 0, token, expiresAt) == Committed(LeasedDb(c, token, expiresAt))
  {
    var out := Accept(FirstDb(c), c.a, c.worker, 0, token, expiresAt);
    var after := LeasedDb(c, token, expiresAt);
    assert out.db.workUnits == after.workUnits && out.db.attempts == after.attempts
           && out.db.assignments == after.assignments;
  }
}
