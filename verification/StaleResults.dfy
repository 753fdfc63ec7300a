// What holds of the stored results in every interleaving of reads and commits:
// where a row and a token come from, and that rows are never lost or relabelled.

module StaleResults {
  import opened Common
  import opened Hashes
  import opened Scheduler
  import opened Integrity
  import opened Fencing
  import opened StaleReads

  /** Some interleaving leads here. */
  ghost predicate Reached(s: State) { exists splits :: s == RunSplit(START, splits) }

  /** Some interleaving leaves this database. */
  ghost predicate Interleaved(db: Db) { exists splits :: db == RunSplit(START, splits).db }

  ghost predicate IdsUnique(results: seq<ResultRow>) {
    forall i, j :: 0 <= i < j < |results| ==> results[i].id != results[j].id
  }

  /** A stored row belongs to its assignment, and only a quarantined one is in the quarantine. */
  ghost predicate RowLinked(db: Db, r: ResultRow) {
    && r.assignment in db.assignments && r.attempt == db.assignments[r.assignment].attempt
    && r.workUnit == db.assignments[r.assignment].workUnit
    && (r.id in db.quarantine ==> r.status == ResultQuarantined)
  }

  ghost predicate RowsSound(db: Db) {
    && IdsUnique(db.results) && QuarantineStored(db)
    && (forall k :: 0 <= k < |db.results| ==> RowLinked(db, db.results[k]))
  }

  lemma SameRows(before: Db, after: Db)
    requires RowsSound(before) && RowsStay(before, after)
    requires after.results == before.results && after.quarantine == before.quarantine
    ensures RowsSound(after) && ResultsGrow(before, after)
  {
    forall k | 0 <= k < |after.results| ensures RowLinked(after, after.results[k]) {
      assert RowLinked(before, before.results[k]);
    }
    forall id | id in after.quarantine ensures ResultExists(after, id) { assert ResultExists(before, id); }
  }

  /** Storing a row that fits its assignment, under a new id. */
  lemma OneMoreRow(before: Db, after: Db, r: ResultRow, late: bool)
    requires RowsSound(before) && RowsStay(before, after) && !ResultExists(before, r.id)
    requires after.results == before.results + [r]
    requires after.quarantine == if late then before.quarantine + {r.id} else before.quarantine
    requires r.assignment in before.assignments && r.attempt == before.assignments[r.assignment].attempt
    requires r.workUnit == before.assignments[r.assignment].workUnit && (late ==> r.status == ResultQuarantined)
    ensures RowsSound(after) && ResultsGrow(before, after)
  {
    assert r.id !in before.quarantine;
    forall k | 0 <= k < |after.results| ensures RowLinked(after, after.results[k]) {
      if k < |before.results| { assert RowLinked(before, before.results[k]) && before.results[k].id != r.id; }
    }
    forall id | id in after.quarantine ensures ResultExists(after, id) {
      if id in before.quarantine {
        var k :| 0 <= k < |before.results| && before.results[k].id == id;
        assert after.results[k].id == id;
      } else {
        assert after.results[|before.results|].id == id;
      }
    }
  }

  /** The request whose row a step stores, if it stores one. */
  ghost function Source(s: State, split: Split): Option<Request> {
    if split.Whole? then
      if split.step.DoSubmit? then Reading(s.db, AsRead(split)) else None
    else if CommitsAt(s, split, At(split)) && split.CommitSubmit? then Some(s.requests[At(split)])
    else None
  }

  /** The read a whole submit starts with. */
  function AsRead(split: Split): Split {
    if split.Whole? && split.step.DoSubmit? then
      var d := split.step;
      ReadSubmit(d.a, d.worker, d.cred, d.output, d.envelope, d.freshId)
    else split
  }

  lemma QuietWhole(db: Db, step: Step)
    requires !step.DoSubmit?
    ensures Next(db, step).results == db.results && Next(db, step).quarantine == db.quarantine
  {
    if !step.DoCreateAttempt? && !step.DoReschedule? { PlainSteps(db, step); }
  }

  lemma QuietCommit(s: State, split: Split, at: nat)
    requires CommitsAt(s, split, at) && !split.CommitSubmit?
    ensures var out := Committing(s, split, at);
            out.Committed? ==> out.db.results == s.db.results && out.db.quarantine == s.db.quarantine
  {
    if split.CommitSweep? && Committing(s, split, at).Committed? { ExpireAllQuiet(s.db, s.requests[at].order); }
  }

  lemma WholeSubmitRows(db: Db, split: Split)
    requires Sound(db) && RowsSound(db) && split.Whole? && split.step.DoSubmit? && Apply(db, split.step).Committed?
    ensures Reading(db, AsRead(split)).Some? && Reading(db, AsRead(split)).value.SubmitRequest?
    ensures var r, after := Reading(db, AsRead(split)).value, Next(db, split.step);
            RowsSound(after) && ResultsGrow(db, after) && after.results == db.results + [r.result]
  {
    var after, r := Next(db, split.step), Reading(db, AsRead(split)).value;
    StepKeeps(db, split.step);
    SubmitReadingFits(db, AsRead(split));
    OneMoreRow(db, after, r.result, r.late);
  }

  lemma CommitSubmitRows(s: State, split: Split, at: nat)
    requires Inv(s) && RowsSound(s.db) && CommitsAt(s, split, at) && split.CommitSubmit?
    ensures var out, r := Committing(s, split, at), s.requests[at];
            out.Committed? ==>
              RowsSound(out.db) && ResultsGrow(s.db, out.db) && out.db.results == s.db.results + [r.result]
  {
    var out, r := Committing(s, split, at), s.requests[at];
    assert RequestFits(s.db, r);
    if out.Committed? {
      CommittingOk(s, split, at);
      OneMoreRow(s.db, out.db, r.result, r.late);
    }
  }

  /** Every step keeps the rows, and a new one is the row of its source. */
  lemma SplitRows(s: State, split: Split)
    requires Inv(s) && RowsSound(s.db)
    ensures var next := NextSplit(s, split);
            && RowsSound(next.db) && ResultsGrow(s.db, next.db)
            && (|| next.db.results == s.db.results
                || (Source(s, split).Some? && Source(s, split).value.SubmitRequest?
                    && next.db.results == s.db.results + [Source(s, split).value.result]))
  {
    if split.Whole? {
      if split.step.DoSubmit? {
        if Apply(s.db, split.step).Committed? { WholeSubmitRows(s.db, split); }
      } else {
        QuietWhole(s.db, split.step);
        StepKeeps(s.db, split.step);
        SameRows(s.db, Next(s.db, split.step));
      }
    } else if CommitsAt(s, split, At(split)) {
      if split.CommitSubmit? {
        CommitSubmitRows(s, split, At(split));
      } else if Committing(s, split, At(split)).Committed? {
        QuietCommit(s, split, At(split));
        CommittingOk(s, split, At(split));
        SameRows(s.db, Committing(s, split, At(split)).db);
      }
    }
  }

  lemma {:induction false} RunRows(s: State, splits: seq<Split>)
    requires Inv(s) && RowsSound(s.db)
    ensures Inv(RunSplit(s, splits)) && RowsSound(RunSplit(s, splits).db)
    decreases |splits|
  {
    if splits != [] {
      SplitInv(s, splits[0]);
      SplitRows(s, splits[0]);
      RunRows(NextSplit(s, splits[0]), splits[1..]);
    }
  }

  lemma ReachedSound(s: State)
    requires Reached(s)
    ensures Inv(s) && RowsSound(s.db)
  {
    var splits :| s == RunSplit(START, splits);
    StartInv();
    RunRows(START, splits);
  }

  lemma NextReached(s: State, split: Split)
    requires Reached(s)
    ensures Reached(NextSplit(s, split)) && ResultsGrow(s.db, NextSplit(s, split).db)
    ensures var next := NextSplit(s, split).db;
            || next.results == s.db.results
            || (Source(s, split).Some? && Source(s, split).value.SubmitRequest?
                && next.results == s.db.results + [Source(s, split).value.result])
  {
    var splits :| s == RunSplit(START, splits);
    SplitThen(START, splits, split);
    ReachedSound(s);
    SplitRows(s, split);
  }

  lemma NoteInterleaved(db: Db, topic: string)
    requires Interleaved(db)
    ensures Interleaved(Note(db, OtherEvent(topic)))
  {
    var splits :| db == RunSplit(START, splits).db;
    SplitThen(START, splits, Whole(DoNote(topic)));
    assert RunSplit(START, splits + [Whole(DoNote(topic))]).db == Note(db, OtherEvent(topic));
  }

  lemma NoteReached(s: State, topic: string)
    requires Reached(s)
    ensures Reached(State(Note(s.db, OtherEvent(topic)), s.requests))
  {
    NextReached(s, Whole(DoNote(topic)));
  }

  lemma InterleavedRows(db: Db)
    requires Interleaved(db)
    ensures RowsSound(db)
  {
    var splits :| db == RunSplit(START, splits).db;
    ReachedSound(RunSplit(START, splits));
  }

  /////// Where tokens come from

  /** The step is an accept that gives the assignment the token with this hash. */
  ghost predicate Issues(s: State, split: Split, a: Id, hash: TokenHash) {
    if split.Whole? then
      && split.step.DoAccept? && split.step.a == a
      && TokenHash(split.step.token) == hash && Apply(s.db, split.step).Committed?
    else
      && split.CommitAccept? && CommitsAt(s, split, split.at) && s.requests[split.at].a == a
      && TokenHash(split.token) == hash && Committing(s, split, split.at).Committed?
  }

  lemma {:induction false} ExpireAllTokens(db: Db, order: seq<Id>, a: Id)
    requires forall b :: b in order ==> b in db.assignments
    ensures var after := ExpireAll(db, order);
            a in after.assignments ==>
              a in db.assignments && after.assignments[a].tokenHash == db.assignments[a].tokenHash
    decreases |order|
  {
    if order != [] { ExpireAllTokens(ExpireOne(db, order[0]), order[1..], a); }
  }

  lemma WholeTokens(db: Db, step: Step, a: Id)
    requires a in Next(db, step).assignments && Next(db, step).assignments[a].tokenHash.Some?
    ensures || (a in db.assignments && db.assignments[a].tokenHash == Next(db, step).assignments[a].tokenHash)
            || (step.DoAccept? && step.a == a && Apply(db, step).Committed?
                && Some(TokenHash(step.token)) == Next(db, step).assignments[a].tokenHash)
  {
    if step.DoSweep? && Lists(step.order, db, step.now) { ExpireAllTokens(db, step.order, a); }
  }

  lemma CommitTokens(s: State, split: Split, at: nat, a: Id)
    requires CommitsAt(s, split, at) && Committing(s, split, at).Committed?
    requires var after := Committing(s, split, at).db; a in after.assignments && after.assignments[a].tokenHash.Some?
    ensures var hash := Committing(s, split, at).db.assignments[a].tokenHash;
            || (a in s.db.assignments && s.db.assignments[a].tokenHash == hash)
            || (split.CommitAccept? && s.requests[at].a == a && Some(TokenHash(split.token)) == hash)
  {
    if split.CommitSweep? { ExpireAllTokens(s.db, s.requests[at].order, a); }
  }

  /** Only an accept gives a row a token it did not have. */
  lemma SplitTokens(s: State, split: Split, a: Id)
    requires a in NextSplit(s, split).db.assignments && NextSplit(s, split).db.assignments[a].tokenHash.Some?
    ensures var hash := NextSplit(s, split).db.assignments[a].tokenHash;
            || (a in s.db.assignments && s.db.assignments[a].tokenHash == hash)
            || Issues(s, split, a, hash.value)
  {
    if split.Whole? {
      WholeTokens(s.db, split.step, a);
    } else if CommitsAt(s, split, At(split)) && Committing(s, split, At(split)).Committed? {
      CommitTokens(s, split, At(split), a);
    }
  }

  /////// What a submit had read

  /** What a submit that read no lateness had before it: its own lease and the newest attempt. */
  /** The row settled at the read is what was sent. */
  lemma ReadSent(db: Db, split: Split)
    requires split.ReadSubmit? && Reading(db, split).Some?
    ensures Sent(db, split, Reading(db, split).value.result)
  {
  }

  ghost predicate Sent(db: Db, read: Split, row: ResultRow) {
    && read.ReadSubmit? && read.a in db.assignments && row.assignment == read.a
    && StoredAsSent(row, db.assignments[read.a].backend, read.output, read.envelope, read.freshId)
  }

  lemma ReadWasCurrent(db: Db, split: Split)
    requires split.ReadSubmit? && Reading(db, split).Some?
    requires Reading(db, split).value.result.status == ResultSucceeded
    ensures var r := Reading(db, split).value;
            && r.SubmitRequest? && r.result.assignment == split.a
            && split.a in db.assignments && db.assignments[split.a].worker == split.worker
            && CredentialMatches(db.assignments[split.a].tokenHash, split.cred)
            && r.result.attempt == db.assignments[split.a].attempt && r.result.attempt in db.attempts
            && !Late(db, r.result.attempt)
  {
  }
}
