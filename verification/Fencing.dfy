// The attempt number is the fence: a result counts only while its attempt is
// the newest of its work unit, and over a whole run the attempts whose results
// count never go backwards. Operations are whole here; a submit reads its
// lateness before its transaction, and module StaleReads says exactly when that
// matters.

module Fencing {
  import opened Common
  import opened Hashes
  import opened Scheduler
  import opened Integrity

  /////// One submit

  /** A submit that commits is quarantined exactly when a newer attempt exists; only a
      current one completes the assignment and marks the work unit succeeded. */
  lemma SubmitFences(db: Db, a: Id, worker: Id, cred: Credential, output: Json, envelope: Option<Envelope>, freshId: Id)
    requires Submit(db, a, worker, cred, output, envelope, freshId).Committed?
    ensures var out := Submit(db, a, worker, cred, output, envelope, freshId);
            var row := db.assignments[a];
            var stored := out.db.results[|db.results|];
            && row.worker == worker && CredentialMatches(row.tokenHash, cred)
            && row.attempt in db.attempts
            && |out.db.results| == |db.results| + 1 && out.db.results[..|db.results|] == db.results
            && stored.assignment == a && stored.attempt == row.attempt && stored.workUnit == row.workUnit
            && StoredAsSent(stored, row.backend, output, envelope, freshId)
            && if Late(db, row.attempt)
               then stored.status == ResultQuarantined && stored.id in out.db.quarantine
                    && out.db.workUnits == db.workUnits && out.db.assignments[a].status == AsgQuarantined
               else stored.status == (if envelope.Some? then envelope.value.status else ResultSucceeded)
                    && out.db.quarantine == db.quarantine
                    && out.db.workUnits[row.workUnit] == WuSucceeded && out.db.assignments[a].status == AsgCompleted
  {
  }

  /** An envelope's id, output and hashes are stored as they came; a bare output goes under the new id,
      with its own hash and the hash of what the row says. */
  ghost predicate StoredAsSent(stored: ResultRow, backend: Id, output: Json, envelope: Option<Envelope>, freshId: Id) {
    match envelope
    case Some(env) =>
      && stored.id == env.id && stored.output == env.output
      && stored.outputHash == env.outputHash && stored.resultHash == env.resultHash
    case None => stored.id == freshId && stored.output == output && Recomputes(stored, backend)
  }

  /** Both hashes of the row are those of its other columns. */
  ghost predicate Recomputes(r: ResultRow, backend: Id) {
    && r.outputHash == OutputHash(r.output)
    && r.resultHash == BareResultHash(r.attempt, r.assignment, backend, OutputHash(r.output), r.status)
  }

  /** Whatever happens before and after, a row stored by a bare submit recomputes for ever. */
  lemma BareRowsRecompute(before: seq<Step>, submit: Step, later: seq<Step>)
    requires submit.DoSubmit? && submit.envelope.None? && Apply(Run(EMPTY_DB, before), submit).Committed?
    ensures var k, end := |Run(EMPTY_DB, before).results|, Run(Run(EMPTY_DB, before + [submit]), later);
            && k < |end.results| && submit.a in end.assignments && end.results[k].assignment == submit.a
            && end.results[k].id == submit.freshId && end.results[k].output == submit.output
            && Recomputes(end.results[k], end.assignments[submit.a].backend)
  {
    var db := Run(EMPTY_DB, before);
    RunKeeps(EMPTY_DB, before);
    RunThen(EMPTY_DB, before, submit);
    BareStored(db, submit);
    RowStays(Next(db, submit), later, |db.results|, submit.a);
  }

  lemma BareStored(db: Db, submit: Step)
    requires Sound(db) && submit.DoSubmit? && submit.envelope.None? && Apply(db, submit).Committed?
    ensures var k, after := |db.results|, Next(db, submit);
            && Sound(after) && k < |after.results| && submit.a in after.assignments
            && after.results[k].assignment == submit.a
            && after.results[k].id == submit.freshId && after.results[k].output == submit.output
            && Recomputes(after.results[k], after.assignments[submit.a].backend)
  {
    SubmitFences(db, submit.a, submit.worker, submit.cred, submit.output, None, submit.freshId);
    StepKeeps(db, submit);
    assert RowGrows(db.assignments[submit.a], Next(db, submit).assignments[submit.a]);
  }

  lemma RowStays(db: Db, later: seq<Step>, k: nat, a: Id)
    requires Sound(db) && k < |db.results| && a in db.assignments
    ensures var end := Run(db, later);
            && k < |end.results| && end.results[k] == db.results[k]
            && a in end.assignments && end.assignments[a].backend == db.assignments[a].backend
  {
    RunKeeps(db, later);
    assert RowGrows(db.assignments[a], Run(db, later).assignments[a]);
  }

  /** In particular it appends one row, for that assignment, with the output carried. */
  lemma SubmitAppends(db: Db, a: Id, worker: Id, cred: Credential, output: Json, envelope: Option<Envelope>,
                      freshId: Id)
    requires Submit(db, a, worker, cred, output, envelope, freshId).Committed?
    ensures var after := Submit(db, a, worker, cred, output, envelope, freshId).db;
            && |after.results| == |db.results| + 1
            && after.results[|db.results|].assignment == a
            && after.results[|db.results|].output == (if envelope.Some? then envelope.value.output else output)
            && a in db.assignments && db.assignments[a].worker == worker
            && CredentialMatches(db.assignments[a].tokenHash, cred)
  {
    SubmitFences(db, a, worker, cred, output, envelope, freshId);
  }

  /** Lateness is permanent. */
  lemma LateForever(db: Db, steps: seq<Step>, att: Id)
    requires Sound(db) && att in db.attempts && Late(db, att)
    ensures att in Run(db, steps).attempts && Late(Run(db, steps), att)
  {
    RunKeeps(db, steps);
    var newer :| newer in db.attempts && db.attempts[newer].workUnit == db.attempts[att].workUnit
                 && db.attempts[newer].number > db.attempts[att].number;
    assert newer in Run(db, steps).attempts;
  }

  /** Once an attempt is late, no later submit of it can touch its work unit. */
  lemma LateSubmitNeverSucceeds(db: Db, steps: seq<Step>, a: Id, worker: Id, cred: Credential, output: Json,
                                envelope: Option<Envelope>, freshId: Id)
    requires Sound(db) && a in db.assignments && Late(db, db.assignments[a].attempt)
    ensures var mid := Run(db, steps);
            var out := Submit(mid, a, worker, cred, output, envelope, freshId);
            out.Committed? ==>
              out.db.workUnits == mid.workUnits && out.db.results[|mid.results|].status == ResultQuarantined
  {
    assert RowSound(db, db.assignments[a]);
    RunKeeps(db, steps);
    LateForever(db, steps, db.assignments[a].attempt);
    var mid := Run(db, steps);
    if Submit(mid, a, worker, cred, output, envelope, freshId).Committed? {
      SubmitFences(mid, a, worker, cred, output, envelope, freshId);
    }
  }

  /** Conversely, only a step that stores a current result makes a work unit succeed. */
  lemma OnlyNewestSucceeds(db: Db, step: Step, wu: Id)
    requires Sound(db) && wu in db.workUnits && db.workUnits[wu] != WuSucceeded
    requires wu in Next(db, step).workUnits && Next(db, step).workUnits[wu] == WuSucceeded
    ensures step.DoSubmit? && step.a in db.assignments && db.assignments[step.a].workUnit == wu
    ensures db.assignments[step.a].attempt in db.attempts && !Late(db, db.assignments[step.a].attempt)
    ensures CredentialMatches(db.assignments[step.a].tokenHash, step.cred)
  {
    if step.DoSweep? && Lists(step.order, db, step.now) {
      ExpireAllQuiet(db, step.order);
    }
  }

  /////// The whole run

  ghost predicate NewestBefore(log: seq<Event>, i: int, wu: Id, number: nat) {
    forall j :: 0 <= j < i && j < |log| && log[j].AttemptCreated? && log[j].workUnit == wu ==> log[j].number <= number
  }

  /** Event `i` announced stored result `k`: quarantined, or current at that moment. */
  ghost predicate AnnouncedAt(db: Db, k: int, i: int)
    requires 0 <= k < |db.results|
  {
    var r := db.results[k];
    && 0 <= i < |db.log| && r.attempt in db.attempts
    && if r.id in db.quarantine
       then db.log[i] == ResultQuarantinedLate(r.workUnit, r.attempt, r.assignment, r.id)
       else db.log[i] == ResultSubmitted(r.workUnit, r.attempt, r.assignment, r.id)
            && NewestBefore(db.log, i, r.workUnit, db.attempts[r.attempt].number)
  }

  ghost predicate ResultLinked(db: Db, r: ResultRow) {
    && r.assignment in db.assignments && r.attempt == db.assignments[r.assignment].attempt
    && r.workUnit == db.assignments[r.assignment].workUnit
    && db.assignments[r.assignment].tokenHash.Some?
    && r.attempt in db.attempts && db.attempts[r.attempt].workUnit == r.workUnit
    && (r.id in db.quarantine ==> r.status == ResultQuarantined)
  }

  ghost predicate AttemptsLogged(db: Db) {
    && (forall i :: 0 <= i < |db.log| && db.log[i].AttemptCreated? ==>
          && db.log[i].attempt in db.attempts && db.attempts[db.log[i].attempt].workUnit == db.log[i].workUnit
          && db.attempts[db.log[i].attempt].number == db.log[i].number)
    && (forall att, att' ::
          (att in db.attempts && att' in db.attempts && att != att'
           && db.attempts[att].workUnit == db.attempts[att'].workUnit) ==>
          db.attempts[att].number != db.attempts[att'].number)
  }

  /** Stored result `k` was current when it was stored. */
  ghost predicate CurrentAt(db: Db, k: int) {
    0 <= k < |db.results| && db.results[k].id !in db.quarantine && db.results[k].attempt in db.attempts
  }

  ghost predicate ResultsOrdered(db: Db) {
    forall k, l ::
      (k < l && CurrentAt(db, k) && CurrentAt(db, l) && db.results[k].workUnit == db.results[l].workUnit) ==>
      db.attempts[db.results[k].attempt].number <= db.attempts[db.results[l].attempt].number
  }

  ghost predicate CompletionAt(db: Db, i: int) {
    0 <= i < |db.log| && db.log[i].AssignmentCompleted? && db.log[i].attempt in db.attempts
    && db.attempts[db.log[i].attempt].workUnit == db.log[i].workUnit
  }

  ghost predicate CompletionsOrdered(db: Db) {
    && (forall i :: 0 <= i < |db.log| && db.log[i].AssignmentCompleted? ==> CompletionAt(db, i))
    && (forall i, j ::
          i < j && CompletionAt(db, i) && CompletionAt(db, j) && db.log[i].workUnit == db.log[j].workUnit ==>
          db.attempts[db.log[i].attempt].number <= db.attempts[db.log[j].attempt].number)
  }

  ghost predicate ResultsAnnounced(db: Db) {
    forall k :: 0 <= k < |db.results| ==> ResultLinked(db, db.results[k]) && exists i :: AnnouncedAt(db, k, i)
  }

  ghost predicate Fenced(db: Db) {
    AttemptsLogged(db) && ResultsAnnounced(db) && ResultsOrdered(db) && CompletionsOrdered(db)
  }

  lemma AnnouncedStays(before: Db, after: Db, k: int, i: int)
    requires Grows(before, after) && 0 <= k < |before.results| && AnnouncedAt(before, k, i)
    ensures AnnouncedAt(after, k, i)
  {
    assert after.results[k] == before.results[k];
    assert after.log[i] == before.log[i];
    assert forall j :: 0 <= j < i ==> after.log[j] == before.log[j];
  }

  lemma LinkedStays(before: Db, after: Db, k: int)
    requires Grows(before, after) && 0 <= k < |before.results| && ResultLinked(before, before.results[k])
    ensures ResultLinked(after, after.results[k])
  {
    assert after.results[k] == before.results[k];
  }

  /** A step that stores no result: its new events complete nothing, and new attempts are logged. */
  ghost predicate Quiet(before: Db, after: Db) {
    && after.results == before.results
    && (forall i :: |before.log| <= i < |after.log| ==> !after.log[i].AssignmentCompleted?)
  }

  lemma {:induction false} ExpireAllQuiet(db: Db, order: seq<Id>)
    requires forall a :: a in order ==> a in db.assignments
    ensures var after := ExpireAll(db, order);
            && after.results == db.results && after.attempts == db.attempts && after.quarantine == db.quarantine
            && after.workUnits == db.workUnits && db.log <= after.log
            && (forall i :: |db.log| <= i < |after.log| ==> after.log[i].AssignmentExpired?)
    decreases |order|
  {
    if order != [] { ExpireAllQuiet(ExpireOne(db, order[0]), order[1..]); }
  }

  lemma QuietFenced(before: Db, after: Db)
    requires Fenced(before) && Grows(before, after) && Quiet(before, after) && AttemptsLogged(after)
    ensures Fenced(after)
  {
    forall k | 0 <= k < |after.results|
      ensures ResultLinked(after, after.results[k]) && exists i :: AnnouncedAt(after, k, i)
    {
      LinkedStays(before, after, k);
      var i :| AnnouncedAt(before, k, i);
      AnnouncedStays(before, after, k, i);
    }
    forall k | CurrentAt(after, k) ensures CurrentAt(before, k) { assert ResultLinked(before, before.results[k]); }
    assert ResultsOrdered(after);
    assert forall i :: 0 <= i < |before.log| ==> after.log[i] == before.log[i];
    forall i | 0 <= i < |after.log| && after.log[i].AssignmentCompleted?
      ensures CompletionAt(before, i) && CompletionAt(after, i) {}
  }

  lemma FreshNumberLogged(db: Db, att: Id, wu: Id, origin: Origin)
    requires AttemptsLogged(db)
    ensures var out := CreateAttempt(db, att, wu, origin); out.Committed? ==> AttemptsLogged(out.db)
  {
    var out := CreateAttempt(db, att, wu, origin);
    if out.Committed? {
      forall b | b in db.attempts && db.attempts[b].workUnit == wu
        ensures db.attempts[b].number < out.db.attempts[att].number
      {
        assert db.attempts[b].number in Numbers(db.attempts, wu);
      }
    }
  }

  /** What storing result `r` for assignment `a` leaves behind, late or current. */
  ghost predicate Stored(db: Db, after: Db, a: Id, r: ResultRow, late: bool) {
    && a in db.assignments
    && var row := db.assignments[a];
    && RowSound(db, row) && row.tokenHash.Some? && late == Late(db, row.attempt) && !ResultExists(db, r.id)
    && r.assignment == a && r.attempt == row.attempt && r.workUnit == row.workUnit
    && (late ==> r.status == ResultQuarantined)
    && after.results == db.results + [r]
    && (forall att :: att in after.attempts ==> att in db.attempts)
    && if late
       then && after.quarantine == db.quarantine + {r.id}
            && after.log == db.log + [ResultQuarantinedLate(row.workUnit, row.attempt, a, r.id)]
       else && after.quarantine == db.quarantine
            && after.log == db.log + [WorkUnitStatusSet(row.workUnit, WuSucceeded)]
              + [AssignmentCompleted(row.workUnit, row.attempt, a)]
                            + [ResultSubmitted(row.workUnit, row.attempt, a, r.id)]
  }

  lemma SubmitStores(db: Db, a: Id, worker: Id, cred: Credential, output: Json, envelope: Option<Envelope>, freshId: Id)
    returns (r: ResultRow, late: bool)
    requires Sound(db) && Submit(db, a, worker, cred, output, envelope, freshId).Committed?
    ensures Stored(db, Submit(db, a, worker, cred, output, envelope, freshId).db, a, r, late)
  {
    assert RowSound(db, db.assignments[a]);
    late := Late(db, db.assignments[a].attempt);
    r := BuildResultRow(a, db.assignments[a], output, envelope, freshId, late);
  }

  /** Ids of quarantined results belong to stored results. */
  ghost predicate QuarantineStored(db: Db) {
    forall id :: id in db.quarantine ==> ResultExists(db, id)
  }

  lemma StoredAnnounced(db: Db, after: Db, a: Id, r: ResultRow, late: bool)
    requires Fenced(db) && QuarantineStored(db) && Grows(db, after) && Stored(db, after, a, r, late)
    ensures ResultsAnnounced(after)
  {
    var n := |db.results|;
    forall k | 0 <= k < |after.results|
      ensures ResultLinked(after, after.results[k]) && exists i :: AnnouncedAt(after, k, i)
    {
      if k < n {
        assert ResultLinked(db, db.results[k]);
        LinkedStays(db, after, k);
        var i :| AnnouncedAt(db, k, i);
        AnnouncedStays(db, after, k, i);
      } else {
        NewResultAnnounced(db, after, a, r, late);
      }
    }
  }

  lemma NewResultAnnounced(db: Db, after: Db, a: Id, r: ResultRow, late: bool)
    requires AttemptsLogged(db) && QuarantineStored(db) && Grows(db, after) && Stored(db, after, a, r, late)
    ensures ResultLinked(after, r)
    ensures AnnouncedAt(after, |db.results|, |after.log| - 1)
  {
    assert r.id !in db.quarantine;
    assert after.assignments[a].tokenHash.Some?;
    if !late {
      NewestIsLogged(db, r.attempt);
      var at := |after.log| - 1;
      assert forall j :: 0 <= j < at && after.log[j].AttemptCreated? ==> j < |db.log| && after.log[j] == db.log[j];
    }
  }

  lemma NewestIsLogged(db: Db, att: Id)
    requires AttemptsLogged(db) && att in db.attempts && !Late(db, att)
    ensures NewestBefore(db.log, |db.log|, db.attempts[att].workUnit, db.attempts[att].number)
  {
    forall j | 0 <= j < |db.log| && db.log[j].AttemptCreated? && db.log[j].workUnit == db.attempts[att].workUnit
      ensures db.log[j].number <= db.attempts[att].number
    {
      var b := db.log[j].attempt;
      assert b in db.attempts;
    }
  }

  lemma StoredOrdered(db: Db, after: Db, a: Id, r: ResultRow, late: bool)
    requires Fenced(db) && QuarantineStored(db) && Grows(db, after) && Stored(db, after, a, r, late)
    ensures ResultsOrdered(after)
  {
    var n := |db.results|;
    forall k, l | k < l && CurrentAt(after, k) && CurrentAt(after, l)
      && after.results[k].workUnit == after.results[l].workUnit
      ensures after.attempts[after.results[k].attempt].number <= after.attempts[after.results[l].attempt].number
    {
      assert k < n && after.results[k] == db.results[k];
      assert ResultLinked(db, db.results[k]) && CurrentAt(db, k);
      if l < n {
        assert after.results[l] == db.results[l] && ResultLinked(db, db.results[l]) && CurrentAt(db, l);
      }
    }
  }

  lemma StoredCompletions(db: Db, after: Db, a: Id, r: ResultRow, late: bool)
    requires Fenced(db) && Grows(db, after) && Stored(db, after, a, r, late)
    ensures CompletionsOrdered(after)
  {
    var n := |db.log|;
    assert forall i :: 0 <= i < n ==> after.log[i] == db.log[i];
    forall i | 0 <= i < |after.log| && after.log[i].AssignmentCompleted? ensures CompletionAt(after, i) {
      if i < n { assert CompletionAt(db, i); }
    }
    forall i, j | i < j && CompletionAt(after, i) && CompletionAt(after, j)
      && after.log[i].workUnit == after.log[j].workUnit
      ensures after.attempts[after.log[i].attempt].number <= after.attempts[after.log[j].attempt].number
    {
      assert i < n && CompletionAt(db, i);
      if j < n { assert CompletionAt(db, j); }
    }
  }

  lemma StoredFenced(db: Db, after: Db, a: Id, r: ResultRow, late: bool)
    requires Fenced(db) && QuarantineStored(db) && Grows(db, after) && Stored(db, after, a, r, late)
    ensures Fenced(after) && QuarantineStored(after)
  {
    StoredAnnounced(db, after, a, r, late);
    StoredOrdered(db, after, a, r, late);
    StoredCompletions(db, after, a, r, late);
    LoggedStays(db, after);
    StoredQuarantine(db, after, a, r, late);
  }

  lemma StoredQuarantine(db: Db, after: Db, a: Id, r: ResultRow, late: bool)
    requires QuarantineStored(db) && Stored(db, after, a, r, late)
    ensures QuarantineStored(after)
  {
    forall id | id in after.quarantine ensures ResultExists(after, id) {
      if id in db.quarantine {
        var k :| 0 <= k < |db.results| && db.results[k].id == id;
        assert after.results[k].id == id;
      } else {
        assert after.results[|db.results|].id == id;
      }
    }
  }

  lemma PlainSteps(db: Db, step: Step)
    requires !step.DoSubmit? && !step.DoCreateAttempt? && !step.DoReschedule?
    ensures var after := Next(db, step);
            && after.results == db.results && after.quarantine == db.quarantine
            && (forall att :: att in after.attempts ==> att in db.attempts)
            && (forall i :: |db.log| <= i < |after.log| ==>
                  !after.log[i].AssignmentCompleted? && !after.log[i].AttemptCreated?)
  {
    if step.DoSweep? && Lists(step.order, db, step.now) { ExpireAllQuiet(db, step.order); }
  }

  lemma OnlySubmitStores(db: Db, step: Step)
    requires !step.DoSubmit?
    ensures Next(db, step).results == db.results
  {
    if !step.DoCreateAttempt? && !step.DoReschedule? { PlainSteps(db, step); }
  }

  /** Every step but a submit stores nothing; new attempts are logged with their numbers. */
  lemma OthersQuiet(db: Db, step: Step)
    requires AttemptsLogged(db) && Grows(db, Next(db, step)) && !step.DoSubmit?
    ensures Quiet(db, Next(db, step)) && AttemptsLogged(Next(db, step)) && Next(db, step).quarantine == db.quarantine
  {
    if step.DoCreateAttempt? {
      FreshNumberLogged(db, step.att, step.wu, FirstTry);
    } else if step.DoReschedule? {
      if step.previous in db.attempts {
        FreshNumberLogged(db, step.att, db.attempts[step.previous].workUnit, step.origin);
      }
    } else {
      PlainSteps(db, step);
      LoggedStays(db, Next(db, step));
    }
  }

  lemma StepFenced(db: Db, step: Step)
    requires Sound(db) && Fenced(db) && QuarantineStored(db)
    ensures Fenced(Next(db, step)) && QuarantineStored(Next(db, step))
  {
    var after := Next(db, step);
    StepKeeps(db, step);
    if step.DoSubmit? {
      if Apply(db, step).Committed? {
        var r, late := SubmitStores(db, step.a, step.worker, step.cred, step.output, step.envelope, step.freshId);
        StoredFenced(db, after, step.a, r, late);
      }
    } else {
      OthersQuiet(db, step);
      QuietFenced(db, after);
    }
  }

  lemma LoggedStays(before: Db, after: Db)
    requires AttemptsLogged(before) && Grows(before, after)
    requires forall att :: att in after.attempts ==> att in before.attempts
    requires forall i :: |before.log| <= i < |after.log| ==> !after.log[i].AttemptCreated?
    ensures AttemptsLogged(after)
  {
    assert forall i :: 0 <= i < |before.log| ==> after.log[i] == before.log[i];
  }

  lemma {:induction false} RunFenced(db: Db, steps: seq<Step>)
    requires Sound(db) && Fenced(db) && QuarantineStored(db)
    ensures var end := Run(db, steps); Sound(end) && Fenced(end) && QuarantineStored(end)
    decreases |steps|
  {
    if steps != [] {
      StepKeeps(db, steps[0]);
      StepFenced(db, steps[0]);
      RunFenced(Next(db, steps[0]), steps[1..]);
    }
  }

  /** Main result: in every reachable state, the results of one work unit that were not
      quarantined carry non-decreasing attempt numbers, so do the completions in the log,
      and each such result was announced while no newer attempt had been logged. */
  lemma FenceHolds(steps: seq<Step>)
    ensures var db := Run(EMPTY_DB, steps);
            ResultsOrdered(db) && CompletionsOrdered(db) && ResultsAnnounced(db)
  {
    RunFenced(EMPTY_DB, steps);
  }
}
