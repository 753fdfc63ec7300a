// Exactly when each scheduler operation goes through, and with which error it is
// refused otherwise, over every database whose references resolve.

module Refusals {
  import opened Common
  import opened Hashes
  import opened Scheduler
  import opened Integrity

  ghost predicate Owns(db: Db, a: Id, worker: Id) { a in db.assignments && db.assignments[a].worker == worker }

  /** The stored hash itself, or a token with that hash. */
  ghost predicate Proves(cred: Credential, stored: Option<TokenHash>) {
    exists hash :: stored == Some(hash) && (cred == ByHash(hash) || cred == ByToken(Some(hash.token)))
  }

  /** The envelope speaks of this assignment, its attempt, its work unit and, if of any, its worker. */
  ghost predicate SpeaksOf(env: Envelope, a: Id, row: Assignment) {
    && env.assignment == a && env.attempt == row.attempt && env.workUnit == row.workUnit
    && (env.worker == None || env.worker == Some(row.worker))
  }

  ghost predicate Unused(db: Db, result: Id) { forall k :: 0 <= k < |db.results| ==> db.results[k].id != result }

  /** What each operation asks for. */
  ghost predicate Allowed(db: Db, step: Step) {
    match step
    case DoCreateWorkUnit(wu) => wu !in db.workUnits
    case DoCreateAttempt(att, wu) => att !in db.attempts && wu in db.workUnits
    case DoReschedule(att, previous, _) => att !in db.attempts && previous in db.attempts
    case DoCreateAssignment(a, att, _, _) => a !in db.assignments && att in db.attempts
    case DoAccept(a, worker, expected, _, _) =>
      Owns(db, a, worker) && db.assignments[a].status == AsgCreated && expected == 0
    case DoReject(a, worker) => Owns(db, a, worker)
    case DoProgress(a, worker, token, expected, _) =>
      && Owns(db, a, worker) && Proves(ByToken(Some(token)), db.assignments[a].tokenHash)
      && db.assignments[a].leaseVersion == expected
    case DoSubmit(a, worker, cred, _, envelope, freshId) =>
      && Owns(db, a, worker) && Proves(cred, db.assignments[a].tokenHash)
      && (envelope.Some? ==> SpeaksOf(envelope.value, a, db.assignments[a]))
      && Unused(db, if envelope.Some? then envelope.value.id else freshId)
    case DoSweep(now, order) => Lists(order, db, now)
    case DoNote(_) => true
  }

  /** The error a refused operation ends in. */
  ghost function Refusal(db: Db, step: Step): Error {
    match step
    case DoCreateWorkUnit(_) => Integrity
    case DoCreateAttempt(_, _) => Integrity
    case DoReschedule(_, previous, _) => if previous in db.attempts then Integrity else NotFound
    case DoCreateAssignment(_, att, _, _) => if att in db.attempts then Integrity else NotFound
    case DoAccept(a, worker, _, _, _) => if Owns(db, a, worker) then LeaseConflict else NotOwned(db, a)
    case DoReject(a, _) => NotOwned(db, a)
    case DoProgress(a, worker, token, _, _) =>
      if !Owns(db, a, worker) then NotOwned(db, a)
      else if Proves(ByToken(Some(token)), db.assignments[a].tokenHash) then LeaseConflict
      else Forbidden
    case DoSubmit(a, worker, cred, _, envelope, _) =>
      if !Owns(db, a, worker) then NotOwned(db, a)
      else if Proves(cred, db.assignments[a].tokenHash)
              && (envelope.Some? ==> SpeaksOf(envelope.value, a, db.assignments[a])) then Integrity
      else Forbidden
    case _ => NotFound
  }

  ghost function NotOwned(db: Db, a: Id): Error { if a in db.assignments then Forbidden else NotFound }

  lemma ProvesIff(cred: Credential, stored: Option<TokenHash>)
    ensures CredentialMatches(stored, cred) <==> Proves(cred, stored)
  {
    if CredentialMatches(stored, cred) {
      var hash := stored.value;
      assert stored == Some(hash) && (cred == ByHash(hash) || cred == ByToken(Some(hash.token)));
    }
  }

  /** Main result: an operation commits exactly when it is allowed, and is refused with that error
      otherwise. A whole accept is allowed only at version 0, because a row still `created` has
      never been leased. */
  lemma CommitsExactly(db: Db, step: Step)
    requires Sound(db)
    ensures Apply(db, step).Committed? <==> Allowed(db, step)
    ensures !Allowed(db, step) ==> Apply(db, step) == Failed(Refusal(db, step))
  {
    match step
    case DoAccept(a, worker, _, _, _) => if Owns(db, a, worker) { AcceptRow(db, a); }
    case DoProgress(a, worker, token, _, _) =>
      if Owns(db, a, worker) { ProvesIff(ByToken(Some(token)), db.assignments[a].tokenHash); }
    case DoSubmit(a, worker, cred, output, envelope, freshId) =>
      if Owns(db, a, worker) {
        AcceptRow(db, a);
        ProvesIff(cred, db.assignments[a].tokenHash);
      }
    case _ =>
  }

  lemma AcceptRow(db: Db, a: Id)
    requires Sound(db) && a in db.assignments
    ensures var row := db.assignments[a];
            && row.attempt in db.attempts && row.workUnit in db.workUnits
            && (row.status == AsgCreated ==> row.leaseVersion == 0)
  {
    assert RowSound(db, db.assignments[a]);
  }

  /** In every reachable state, so over every run. */
  lemma RunCommitsExactly(steps: seq<Step>, step: Step)
    ensures Apply(Run(EMPTY_DB, steps), step).Committed? <==> Allowed(Run(EMPTY_DB, steps), step)
  {
    RunKeeps(EMPTY_DB, steps);
    CommitsExactly(Run(EMPTY_DB, steps), step);
  }
}
