// Several operations read before their transaction opens: accept and progress
// their row, submit the lateness of its attempt, create_attempt the next number,
// and the sweeper its selection. Here the read and the commit are separate
// steps, interleaved in any way with each other and with whole operations of
// other clients. The remaining operations read ahead only columns that never
// change, so a whole step loses nothing.

module StaleReads {
  import opened Common
  import opened Hashes
  import opened Scheduler
  import opened Integrity
  import opened Leases
  import EventSourcing
  import opened Fencing
  import opened FirstLease

  /** A request that has read and has not committed yet. `seen` records, for the
      specification, the attempts that existed when it read. */
  datatype Request =
    | AcceptRequest(a: Id, worker: Id, stale: Assignment)
    | ProgressRequest(a: Id, worker: Id, stale: Assignment, token: LeaseToken)
    | SubmitRequest(a: Id, read: Split, result: ResultRow, late: bool, seen: set<Id>)
    | CreateRequest(wu: Id, previous: Option<Id>, number: nat, origin: Origin, seen: set<Id>)
    | SweepRequest(now: string, order: seq<Id>)

  datatype State = State(db: Db, requests: seq<Request>)

  datatype Split =
    | Whole(step: Step)
    | ReadAccept(a: Id, worker: Id)
    | CommitAccept(at: nat, expected: int, token: LeaseToken, expiresAt: string)
    | ReadProgress(a: Id, worker: Id, token: LeaseToken)
    | CommitProgress(at: nat, expected: int, expiresAt: string)
    | ReadSubmit(a: Id, worker: Id, cred: Credential, output: Json, envelope: Option<Envelope>, freshId: Id)
    | CommitSubmit(at: nat)
    | ReadCreate(wu: Id)
    | ReadAgain(previous: Id, origin: Origin)
    | CommitCreate(at: nat, att: Id)
    | ReadSweep(now: string, order: seq<Id>)
    | CommitSweep(at: nat)

  /** What a read leaves behind, if it is not refused. */
  ghost function Reading(db: Db, split: Split): Option<Request> {
    match split
    case ReadAccept(a, worker) =>
      (match AcceptRead(db, a, worker)
       case Row(row) => Some(AcceptRequest(a, worker, row))
       case Refused(_) => None)
    case ReadProgress(a, worker, token) =>
      (match ProgressRead(db, a, worker, token)
       case Row(row) => Some(ProgressRequest(a, worker, row, token))
       case Refused(_) => None)
    case ReadSubmit(a, worker, cred, output, envelope, freshId) =>
      (match SubmitRead(db, a, worker, cred)
       case Row(row) =>
         if envelope.Some? && !EnvelopeFits(envelope.value, a, row) then None
         else
           var late := Late(db, row.attempt);
           var result := BuildResultRow(a, row, output, envelope, freshId, late);
           Some(SubmitRequest(a, split, result, late, db.attempts.Keys))
       case Refused(_) => None)
    case ReadCreate(wu) => Some(CreateRequest(wu, None, NextAttemptNumber(db.attempts, wu), FirstTry, db.attempts.Keys))
    case ReadAgain(previous, origin) =>
      if previous !in db.attempts then None
      else
        var wu := db.attempts[previous].workUnit;
        Some(CreateRequest(wu, Some(previous), NextAttemptNumber(db.attempts, wu), origin, db.attempts.Keys))
    case ReadSweep(now, order) => if Lists(order, db, now) then Some(SweepRequest(now, order)) else None
    case _ => None
  }

  /** The request a commit belongs to. */
  ghost predicate CommitsAt(s: State, split: Split, at: nat) {
    && at < |s.requests|
    && match split
       case CommitAccept(k, _, _, _) => k == at && s.requests[at].AcceptRequest?
       case CommitProgress(k, _, _) => k == at && s.requests[at].ProgressRequest?
       case CommitSubmit(k) => k == at && s.requests[at].SubmitRequest?
       case CommitCreate(k, _) => k == at && s.requests[at].CreateRequest?
       case CommitSweep(k) => k == at && s.requests[at].SweepRequest?
       case _ => false
  }

  ghost function SubmitCommit(db: Db, r: Request): Outcome
    requires r.SubmitRequest?
  {
    if r.a !in db.assignments then Failed(NotFound) else StoreOutcome(db, r.a, db.assignments[r.a], r.result, r.late)
  }

  ghost function SweepCommit(db: Db, order: seq<Id>): Outcome {
    if forall a :: a in order ==> a in db.assignments then Committed(ExpireAll(db, order)) else Failed(NotFound)
  }

  ghost function Committing(s: State, split: Split, at: nat): Outcome
    requires CommitsAt(s, split, at)
  {
    var r := s.requests[at];
    match split
    case CommitAccept(_, expected, token, expiresAt) =>
      AcceptCommit(s.db, r.a, r.stale, r.worker, expected, token, expiresAt)
    case CommitProgress(_, expected, expiresAt) => ProgressCommit(s.db, r.a, r.stale, r.worker, expected, expiresAt)
    case CommitSubmit(_) => SubmitCommit(s.db, r)
    case CommitCreate(_, att) => InsertAttempt(s.db, att, r.wu, r.number, r.origin)
    case CommitSweep(_) => SweepCommit(s.db, r.order)
  }

  ghost function At(split: Split): nat {
    match split
    case CommitAccept(at, _, _, _) => at
    case CommitProgress(at, _, _) => at
    case CommitSubmit(at) => at
    case CommitCreate(at, _) => at
    case CommitSweep(at) => at
    case _ => 0
  }

  ghost function NextSplit(s: State, split: Split): State {
    if split.Whole? then s.(db := Next(s.db, split.step))
    else if CommitsAt(s, split, At(split)) then
      var at := At(split);
      var out := Committing(s, split, at);
      State(if out.Committed? then out.db else s.db, s.requests[..at] + s.requests[at + 1..])
    else
      var request := Reading(s.db, split);
      if request.Some? then s.(requests := s.requests + [request.value]) else s
  }

  ghost function RunSplit(s: State, splits: seq<Split>): State
    decreases |splits|
  {
    if splits == [] then s else RunSplit(NextSplit(s, splits[0]), splits[1..])
  }

  const START := State(EMPTY_DB, [])

  /////// The invariant of every interleaving

  ghost predicate NewerThan(attempts: map<Id, Attempt>, newer: Id, att: Id) {
    && newer in attempts && att in attempts
    && attempts[newer].workUnit == attempts[att].workUnit && attempts[newer].number > attempts[att].number
  }

  ghost predicate SubmitFits(db: Db, a: Id, result: ResultRow, late: bool, seen: set<Id>) {
    && result.assignment == a && a in db.assignments && result.attempt == db.assignments[a].attempt
    && result.workUnit == db.assignments[a].workUnit
    && result.attempt in seen && seen <= db.attempts.Keys
    && (late <==> exists newer :: newer in seen && NewerThan(db.attempts, newer, result.attempt))
    && (late ==> result.status == ResultQuarantined)
  }

  ghost predicate CreateFits(db: Db, wu: Id, previous: Option<Id>, number: nat, origin: Origin, seen: set<Id>) {
    && seen <= db.attempts.Keys
    && (if previous.Some? then previous.value in db.attempts && db.attempts[previous.value].workUnit == wu
        else origin == FirstTry)
    && (forall att :: att in seen && db.attempts[att].workUnit == wu ==> db.attempts[att].number < number)
  }

  ghost predicate LeaseFits(db: Db, a: Id, stale: Assignment, leased: bool) {
    && a in db.assignments
    && db.assignments[a].attempt == stale.attempt && db.assignments[a].workUnit == stale.workUnit
    && (leased ==> db.assignments[a].tokenHash.Some?)
  }

  ghost predicate RequestFits(db: Db, r: Request) {
    match r
    case AcceptRequest(a, _, stale) => LeaseFits(db, a, stale, false)
    case ProgressRequest(a, _, stale, _) => LeaseFits(db, a, stale, true)
    case SubmitRequest(a, read, result, late, seen) =>
      read.ReadSubmit? && read.a == a && SubmitFits(db, a, result, late, seen)
    case CreateRequest(wu, previous, number, origin, seen) => CreateFits(db, wu, previous, number, origin, seen)
    case SweepRequest(_, order) => forall a :: a in order ==> a in db.assignments
  }

  ghost predicate Inv(s: State) {
    && Sound(s.db) && VersionsBooked(s.db) && EventSourcing.Faithful(s.db)
    && (forall i :: 0 <= i < |s.requests| ==> RequestFits(s.db, s.requests[i]))
  }

  /** Rows keep their attempt and work unit, a token once issued is never cleared, and attempts
      keep their work unit and number. */
  ghost predicate RowsStay(before: Db, after: Db) {
    && AttemptsGrow(before.attempts, after.attempts)
    && (forall a :: a in before.assignments ==>
          && a in after.assignments
          && after.assignments[a].attempt == before.assignments[a].attempt
          && after.assignments[a].workUnit == before.assignments[a].workUnit
          && (before.assignments[a].tokenHash.Some? ==> after.assignments[a].tokenHash.Some?))
  }

  lemma RequestStays(before: Db, after: Db, r: Request)
    requires RowsStay(before, after) && RequestFits(before, r)
    ensures RequestFits(after, r)
  {
    if r.SubmitRequest? {
      forall newer | newer in r.seen
        ensures NewerThan(before.attempts, newer, r.result.attempt) <==>
                  NewerThan(after.attempts, newer, r.result.attempt)
      {
      }
    }
  }

  /** A step of the interleaving that keeps the tables keeps every open request. */
  lemma RequestsStay(s: State, after: Db, requests: seq<Request>)
    requires Inv(s) && RowsStay(s.db, after)
    requires forall i :: 0 <= i < |requests| ==> requests[i] in s.requests
    ensures forall i :: 0 <= i < |requests| ==> RequestFits(after, requests[i])
  {
    forall i | 0 <= i < |requests| ensures RequestFits(after, requests[i]) { RequestStays(s.db, after, requests[i]); }
  }

  /** The tables after a commit are sound, booked and faithful, and no row a request relies on moved. */
  ghost predicate CommitKeeps(db: Db, out: Outcome) {
    out.Committed? ==> Sound(out.db) && VersionsBooked(out.db) && EventSourcing.Faithful(out.db) && RowsStay(db, out.db)
  }

  lemma AcceptCommitOk(db: Db, r: Request, expected: int, token: LeaseToken, expiresAt: string)
    requires Sound(db) && VersionsBooked(db) && EventSourcing.Faithful(db) && r.AcceptRequest? && RequestFits(db, r)
    ensures CommitKeeps(db, AcceptCommit(db, r.a, r.stale, r.worker, expected, token, expiresAt))
  {
    AcceptCommitSound(db, r.a, r.stale, r.worker, expected, token, expiresAt);
    AcceptCommitBooked(db, r.a, r.stale, r.worker, expected, token, expiresAt);
    EventSourcing.AcceptCommitFaithful(db, r.a, r.stale, r.worker, expected, token, expiresAt);
  }

  lemma ProgressCommitOk(db: Db, r: Request, expected: int, expiresAt: string)
    requires Sound(db) && VersionsBooked(db) && EventSourcing.Faithful(db) && r.ProgressRequest? && RequestFits(db, r)
    ensures CommitKeeps(db, ProgressCommit(db, r.a, r.stale, r.worker, expected, expiresAt))
  {
    ProgressCommitKeeps(db, r.a, r.stale, r.worker, expected, expiresAt);
    ProgressCommitBooked(db, r.a, r.stale, r.worker, expected, expiresAt);
    EventSourcing.ProgressCommitFaithful(db, r.a, r.stale, r.worker, expected, expiresAt);
  }

  lemma SubmitCommitOk(db: Db, r: Request)
    requires Sound(db) && VersionsBooked(db) && EventSourcing.Faithful(db) && r.SubmitRequest? && RequestFits(db, r)
    ensures CommitKeeps(db, SubmitCommit(db, r))
  {
    StoreKeeps(db, r.a, r.result, r.late);
    StoreBooked(db, r.a, r.result, r.late);
    EventSourcing.StoreFaithful(db, r.a, r.result, r.late);
  }

  lemma CreateCommitOk(db: Db, att: Id, r: Request)
    requires Sound(db) && VersionsBooked(db) && EventSourcing.Faithful(db) && r.CreateRequest?
    ensures CommitKeeps(db, InsertAttempt(db, att, r.wu, r.number, r.origin))
  {
    InsertKeeps(db, att, r.wu, r.number, r.origin);
    InsertBooked(db, att, r.wu, r.number, r.origin);
    EventSourcing.InsertFaithful(db, att, r.wu, r.number, r.origin);
  }

  lemma SweepCommitOk(db: Db, order: seq<Id>)
    requires Sound(db) && VersionsBooked(db) && EventSourcing.Faithful(db)
    ensures CommitKeeps(db, SweepCommit(db, order))
  {
    if SweepCommit(db, order).Committed? {
      ExpireAllKeeps(db, order);
      ExpireAllBooked(db, order);
      EventSourcing.ExpireAllFaithful(db, order);
    }
  }

  lemma CommittingOk(s: State, split: Split, at: nat)
    requires Inv(s) && CommitsAt(s, split, at)
    ensures CommitKeeps(s.db, Committing(s, split, at))
  {
    var r := s.requests[at];
    assert RequestFits(s.db, r);
    match split
    case CommitAccept(_, expected, token, expiresAt) => AcceptCommitOk(s.db, r, expected, token, expiresAt);
    case CommitProgress(_, expected, expiresAt) => ProgressCommitOk(s.db, r, expected, expiresAt);
    case CommitSubmit(_) => SubmitCommitOk(s.db, r);
    case CommitCreate(_, att) => CreateCommitOk(s.db, att, r);
    case CommitSweep(_) => SweepCommitOk(s.db, r.order);
  }

  lemma CommitInv(s: State, split: Split)
    requires Inv(s) && !split.Whole? && CommitsAt(s, split, At(split))
    ensures Inv(NextSplit(s, split))
  {
    CommittingOk(s, split, At(split));
    var after := NextSplit(s, split);
    assert RowsStay(s.db, after.db);
    RequestsStay(s, after.db, after.requests);
  }

  lemma WholeInv(s: State, step: Step)
    requires Inv(s)
    ensures Inv(s.(db := Next(s.db, step)))
  {
    StepKeeps(s.db, step);
    StepBooked(s.db, step);
    EventSourcing.StepFaithful(s.db, step);
    RequestsStay(s, Next(s.db, step), s.requests);
  }

  /** Whatever is read fits the tables it was read from. */
  lemma ReadingFits(db: Db, split: Split)
    requires Sound(db) && Reading(db, split).Some?
    ensures RequestFits(db, Reading(db, split).value)
  {
    var r := Reading(db, split).value;
    if split.ReadSubmit? {
      SubmitReadingFits(db, split);
    } else if split.ReadCreate? || split.ReadAgain? {
      forall att | att in db.attempts && db.attempts[att].workUnit == r.wu ensures db.attempts[att].number < r.number {
        assert db.attempts[att].number in Numbers(db.attempts, r.wu);
      }
    } else if split.ReadProgress? {
      assert RowSound(db, db.assignments[split.a]);
    }
  }

  lemma SubmitReadingFits(db: Db, split: Split)
    requires Sound(db) && split.ReadSubmit? && Reading(db, split).Some?
    ensures RequestFits(db, Reading(db, split).value)
  {
    var r := Reading(db, split).value;
    var att := db.assignments[split.a].attempt;
    assert RowSound(db, db.assignments[split.a]);
    if r.late {
      var newer :| newer in db.attempts && db.attempts[newer].workUnit == db.attempts[att].workUnit
                   && db.attempts[newer].number > db.attempts[att].number;
      assert NewerThan(db.attempts, newer, att);
    }
  }

  lemma SplitInv(s: State, split: Split)
    requires Inv(s)
    ensures Inv(NextSplit(s, split))
  {
    if split.Whole? {
      WholeInv(s, split.step);
    } else if CommitsAt(s, split, At(split)) {
      CommitInv(s, split);
    } else if Reading(s.db, split).Some? {
      ReadingFits(s.db, split);
    }
  }

  lemma {:induction false} RunSplitInv(s: State, splits: seq<Split>)
    requires Inv(s)
    ensures Inv(RunSplit(s, splits))
    decreases |splits|
  {
    if splits != [] {
      SplitInv(s, splits[0]);
      RunSplitInv(NextSplit(s, splits[0]), splits[1..]);
    }
  }

  lemma StartInv()
    ensures Inv(START)
  {
    assert EventSourcing.StatusColumns(EMPTY_DB) == EventSourcing.Replay([]);
  }

  /////// Each version has one winner

  lemma {:induction false} VersionsPrefix(log: seq<Event>, a: Id, i: nat)
    requires i <= |log|
    ensures LeaseVersions(log[..i], a) <= LeaseVersions(log, a)
    decreases |log| - i
  {
    if i == |log| {
      assert log[..i] == log;
    } else {
      VersionsPrefix(log, a, i + 1);
      assert log[..i + 1] == log[..i] + [log[i]];
      VersionsAppend(log[..i], log[i], a);
    }
  }

  lemma CommitVersion(log: seq<Event>, a: Id, n: nat, k: nat)
    requires LeaseVersions(log, a) == Upto(n) && k < |log| && IsLeaseCommit(log[k], a)
    ensures log[k].version == |LeaseVersions(log[..k], a)| + 1 == |LeaseVersions(log[..k + 1], a)| <= n
  {
    assert log[..k + 1] == log[..k] + [log[k]];
    VersionsAppend(log[..k], log[k], a);
    VersionsPrefix(log, a, k + 1);
    assert LeaseVersions(log[..k + 1], a)[|LeaseVersions(log[..k], a)|] == log[k].version;
  }

  lemma CommitsIncrease(log: seq<Event>, a: Id, n: nat, i: nat, j: nat)
    requires LeaseVersions(log, a) == Upto(n)
    requires i < j < |log| && IsLeaseCommit(log[i], a) && IsLeaseCommit(log[j], a)
    ensures log[i].version < log[j].version
  {
    CommitVersion(log, a, n, i);
    CommitVersion(log, a, n, j);
    VersionsPrefix(log[..j], a, i + 1);
    assert log[..j][..i + 1] == log[..i + 1];
  }

  /** Main result: in every interleaving the versions committed for an assignment are
      1, 2, ..., lease_version in log order, each won by exactly one commit, so at most one
      accept that expected version 0 ever commits; the log still rebuilds every status. */
  lemma OneWinnerPerVersion(splits: seq<Split>, a: Id)
    ensures var db := RunSplit(START, splits).db;
            && LeaseVersions(db.log, a) == Upto(CurrentVersion(db, a))
            && (forall i, j :: 0 <= i < j < |db.log| && IsLeaseCommit(db.log[i], a) && IsLeaseCommit(db.log[j], a) ==>
                  db.log[i].version < db.log[j].version)
            && (forall i, j ::
                  AcceptAt(db.log, a, i) && AcceptAt(db.log, a, j) && db.log[i].version == db.log[j].version ==> i == j)
            && EventSourcing.Replay(db.log) == EventSourcing.StatusColumns(db)
  {
    StartInv();
    RunSplitInv(START, splits);
    var db := RunSplit(START, splits).db;
    assert LeaseVersions(db.log, a) == Upto(CurrentVersion(db, a));
    forall i, j | 0 <= i < j < |db.log| && IsLeaseCommit(db.log[i], a) && IsLeaseCommit(db.log[j], a)
      ensures db.log[i].version < db.log[j].version
    {
      CommitsIncrease(db.log, a, CurrentVersion(db, a), i, j);
    }
  }

  /** The client behind this step expects version 0 if it accepts at all, as the worker
      and the control-plane gateway both do. */
  predicate ExpectsZero(split: Split) {
    && (split.CommitAccept? ==> split.expected == 0)
    && (split.Whole? && split.step.DoAccept? ==> split.step.expected == 0)
  }

  ghost predicate AcceptsAreFirst(log: seq<Event>) {
    forall i :: 0 <= i < |log| && log[i].AssignmentAccepted? ==> log[i].version == 1
  }

  lemma OnlyAcceptAccepts(db: Db, step: Step)
    requires !step.DoAccept?
    ensures var log := Next(db, step).log; forall i :: |db.log| <= i < |log| ==> !log[i].AssignmentAccepted?
  {
    if step.DoSweep? && Lists(step.order, db, step.now) { ExpireAllQuiet(db, step.order); }
  }

  lemma WholeAccepts(db: Db, step: Step)
    requires Grows(db, Next(db, step)) && AcceptsAreFirst(db.log) && (step.DoAccept? ==> step.expected == 0)
    ensures AcceptsAreFirst(Next(db, step).log)
  {
    if !step.DoAccept? { OnlyAcceptAccepts(db, step); }
    var log := Next(db, step).log;
    assert forall i :: 0 <= i < |db.log| ==> log[i] == db.log[i];
  }

  lemma CommitAcceptsFirst(s: State, split: Split, at: nat)
    requires Inv(s) && AcceptsAreFirst(s.db.log) && CommitsAt(s, split, at) && ExpectsZero(split)
    ensures var out := Committing(s, split, at); out.Committed? ==> AcceptsAreFirst(out.db.log)
  {
    if split.CommitSweep? && Committing(s, split, at).Committed? { ExpireAllQuiet(s.db, s.requests[at].order); }
  }

  lemma {:induction false} RunAcceptsFirst(s: State, splits: seq<Split>)
    requires Inv(s) && AcceptsAreFirst(s.db.log) && forall i :: 0 <= i < |splits| ==> ExpectsZero(splits[i])
    ensures AcceptsAreFirst(RunSplit(s, splits).db.log)
    decreases |splits|
  {
    if splits != [] {
      var split := splits[0];
      if split.Whole? {
        StepKeeps(s.db, split.step);
        WholeAccepts(s.db, split.step);
      } else if CommitsAt(s, split, At(split)) {
        CommitAcceptsFirst(s, split, At(split));
      }
      SplitInv(s, split);
      RunAcceptsFirst(NextSplit(s, split), splits[1..]);
    }
  }

  /** With such clients at most one accept per assignment ever commits, whatever was read when. */
  lemma AtMostOneAccept(splits: seq<Split>, a: Id, i: int, j: int)
    requires forall k :: 0 <= k < |splits| ==> ExpectsZero(splits[k])
    requires var log := RunSplit(START, splits).db.log; AcceptAt(log, a, i) && AcceptAt(log, a, j)
    ensures i == j
  {
    StartInv();
    RunAcceptsFirst(START, splits);
    OneWinnerPerVersion(splits, a);
  }

  /////// What a client-chosen expected version can do

  /** An accept that commits takes over a lease already issued exactly when it did not expect version 0. */
  lemma TakeoverIffNonZero(splits: seq<Split>, at: nat, expected: int, token: LeaseToken, expiresAt: string)
    requires var s := RunSplit(START, splits); at < |s.requests| && s.requests[at].AcceptRequest?
    ensures var s := RunSplit(START, splits);
            var r := s.requests[at];
            AcceptCommit(s.db, r.a, r.stale, r.worker, expected, token, expiresAt).Committed? ==>
              r.a in s.db.assignments && (s.db.assignments[r.a].tokenHash.Some? <==> expected != 0)
  {
    StartInv();
    RunSplitInv(START, splits);
    var s := RunSplit(START, splits);
    assert RequestFits(s.db, s.requests[at]);
    assert RowSound(s.db, s.db.assignments[s.requests[at].a]);
  }

  /////// What a stale lateness can do

  /** Main result. A lateness that was read is never wrong, and one that was not read is missed
      exactly when an attempt newer than the submitted one was created between read and commit;
      a submit that commits then succeeds for a late attempt. */
  lemma FenceBreaksExactly(splits: seq<Split>, at: nat)
    requires var s := RunSplit(START, splits); at < |s.requests| && s.requests[at].SubmitRequest?
    ensures var s := RunSplit(START, splits);
            var r := s.requests[at];
            var att := r.result.attempt;
            && att in s.db.attempts
            && (r.late ==> Late(s.db, att))
            && (!r.late && Late(s.db, att) <==>
                  !r.late && exists newer :: newer !in r.seen && NewerThan(s.db.attempts, newer, att))
            && (SubmitCommit(s.db, r).Committed? ==> StoredAs(s.db, SubmitCommit(s.db, r).db, r))
  {
    StartInv();
    RunSplitInv(START, splits);
    var s := RunSplit(START, splits);
    var r := s.requests[at];
    assert RequestFits(s.db, r);
    assert RowSound(s.db, s.db.assignments[r.a]);
    LateIsNewer(s.db, r.result.attempt);
  }

  lemma LateIsNewer(db: Db, att: Id)
    requires att in db.attempts
    ensures Late(db, att) <==> exists newer :: NewerThan(db.attempts, newer, att)
  {
    if Late(db, att) {
      var newer :| newer in db.attempts && db.attempts[newer].workUnit == db.attempts[att].workUnit
                   && db.attempts[newer].number > db.attempts[att].number;
      assert NewerThan(db.attempts, newer, att);
    }
  }

  /** A commit stores the row it built; only one that missed no lateness lets the work unit succeed. */
  ghost predicate StoredAs(before: Db, after: Db, r: Request)
    requires r.SubmitRequest?
  {
    && after.results == before.results + [r.result]
    && r.result.workUnit in before.workUnits && r.result.workUnit in after.workUnits
    && if r.late
       then after.workUnits == before.workUnits && r.result.status == ResultQuarantined
         && r.result.id in after.quarantine
       else after.workUnits[r.result.workUnit] == WuSucceeded && after.quarantine == before.quarantine
  }

  /** Without stale numbers, any attempt of the work unit created in between is a newer one. */
  ghost predicate FreshAreNewer(s: State) {
    forall i :: 0 <= i < |s.requests| && s.requests[i].SubmitRequest? ==>
      UnseenAreNewer(s.db.attempts, s.requests[i].seen, s.requests[i].result.attempt)
  }

  ghost predicate UnseenAreNewer(attempts: map<Id, Attempt>, seen: set<Id>, att: Id) {
    att in attempts ==>
      forall b :: b in attempts && b !in seen && attempts[b].workUnit == attempts[att].workUnit ==>
        NewerThan(attempts, b, att)
  }

  /** A whole step numbers a new attempt above every other of its work unit. */
  lemma WholeNumbers(db: Db, step: Step, b: Id, att: Id)
    requires b in Next(db, step).attempts && b !in db.attempts && att in db.attempts
    requires Next(db, step).attempts[b].workUnit == db.attempts[att].workUnit
    ensures db.attempts[att].number < Next(db, step).attempts[b].number
  {
    if !step.DoSubmit? && !step.DoCreateAttempt? && !step.DoReschedule? { PlainSteps(db, step); }
    assert db.attempts[att].number in Numbers(db.attempts, db.attempts[att].workUnit);
  }

  lemma WholeFresh(s: State, step: Step)
    requires Inv(s) && FreshAreNewer(s)
    ensures FreshAreNewer(s.(db := Next(s.db, step)))
  {
    var after := Next(s.db, step);
    StepKeeps(s.db, step);
    forall i | 0 <= i < |s.requests| && s.requests[i].SubmitRequest?
      ensures UnseenAreNewer(after.attempts, s.requests[i].seen, s.requests[i].result.attempt)
    {
      var r := s.requests[i];
      assert RequestFits(s.db, r);
      forall b | b in after.attempts && b !in r.seen
        && after.attempts[b].workUnit == after.attempts[r.result.attempt].workUnit
        ensures NewerThan(after.attempts, b, r.result.attempt)
      {
        if b in s.db.attempts {
          assert NewerThan(s.db.attempts, b, r.result.attempt);
        } else {
          WholeNumbers(s.db, step, b, r.result.attempt);
        }
      }
    }
  }

  lemma CommitAddsNoAttempt(s: State, split: Split, at: nat)
    requires !split.CommitCreate? && CommitsAt(s, split, at)
    ensures var out := Committing(s, split, at); out.Committed? ==> out.db.attempts.Keys == s.db.attempts.Keys
  {
    if split.CommitSweep? && Committing(s, split, at).Committed? { ExpireAllQuiet(s.db, s.requests[at].order); }
  }

  lemma CommitFresh(s: State, split: Split)
    requires Inv(s) && FreshAreNewer(s) && !split.Whole? && !split.CommitCreate? && CommitsAt(s, split, At(split))
    ensures FreshAreNewer(NextSplit(s, split))
  {
    CommittingOk(s, split, At(split));
    CommitAddsNoAttempt(s, split, At(split));
    var after := NextSplit(s, split);
    assert RowsStay(s.db, after.db) && after.db.attempts.Keys == s.db.attempts.Keys;
    forall i | 0 <= i < |after.requests| && after.requests[i].SubmitRequest?
      ensures UnseenAreNewer(after.db.attempts, after.requests[i].seen, after.requests[i].result.attempt)
    {
      var r := after.requests[i];
      assert r in s.requests;
      assert UnseenAreNewer(s.db.attempts, r.seen, r.result.attempt);
    }
  }

  lemma {:induction false} RunFresh(s: State, splits: seq<Split>)
    requires Inv(s) && FreshAreNewer(s) && forall k :: 0 <= k < |splits| ==> !splits[k].CommitCreate?
    ensures Inv(RunSplit(s, splits)) && FreshAreNewer(RunSplit(s, splits))
    decreases |splits|
  {
    if splits != [] {
      var split := splits[0];
      SplitInv(s, split);
      if split.Whole? {
        WholeFresh(s, split.step);
      } else if CommitsAt(s, split, At(split)) {
        CommitFresh(s, split);
      }
      RunFresh(NextSplit(s, split), splits[1..]);
    }
  }

  /** When attempts are numbered in one step, a submit succeeds for a late attempt if and only if
      it read no lateness and any attempt of its work unit was created in between. */
  lemma StaleIffAttemptCreated(splits: seq<Split>, at: nat)
    requires forall k :: 0 <= k < |splits| ==> !splits[k].CommitCreate?
    requires var s := RunSplit(START, splits); at < |s.requests| && s.requests[at].SubmitRequest?
    ensures var s := RunSplit(START, splits);
            var r := s.requests[at];
            && r.result.attempt in s.db.attempts
            && (!r.late && Late(s.db, r.result.attempt) <==>
                  !r.late && exists b ::
                    b in s.db.attempts && b !in r.seen && s.db.attempts[b].workUnit == r.result.workUnit)
  {
    StartInv();
    RunFresh(START, splits);
    FenceBreaksExactly(splits, at);
    var s := RunSplit(START, splits);
    var r := s.requests[at];
    assert RequestFits(s.db, r) && RowSound(s.db, s.db.assignments[r.a]);
    assert UnseenAreNewer(s.db.attempts, r.seen, r.result.attempt);
  }

  /////// What a stale number can do

  /** A committed attempt repeats a number of its work unit exactly when an attempt with that
      number was created between read and commit. */
  lemma NumberRepeatsExactly(splits: seq<Split>, at: nat)
    requires var s := RunSplit(START, splits); at < |s.requests| && s.requests[at].CreateRequest?
    ensures var s := RunSplit(START, splits);
            var r := s.requests[at];
            (exists b ::
               b in s.db.attempts && s.db.attempts[b].workUnit == r.wu && s.db.attempts[b].number == r.number) <==>
            exists b ::
              b in s.db.attempts && b !in r.seen && s.db.attempts[b].workUnit == r.wu
                && s.db.attempts[b].number == r.number
  {
    StartInv();
    RunSplitInv(START, splits);
    var s := RunSplit(START, splits);
    assert RequestFits(s.db, s.requests[at]);
  }

  /////// Reads that are still true

  /** What was read still holds at the commit. */
  ghost predicate Fresh(s: State, split: Split) {
    !split.Whole? && CommitsAt(s, split, At(split)) ==>
      match s.requests[At(split)]
      case AcceptRequest(a, worker, _) => AcceptRead(s.db, a, worker).Row?
      case ProgressRequest(a, worker, _, token) => ProgressRead(s.db, a, worker, token).Row?
      case SubmitRequest(a, read, result, late, _) =>
        Reading(s.db, read) == Some(SubmitRequest(a, read, result, late, s.db.attempts.Keys))
      case CreateRequest(wu, _, number, _, _) => number == NextAttemptNumber(s.db.attempts, wu)
      case SweepRequest(now, order) => Lists(order, s.db, now)
  }

  ghost predicate AllFresh(s: State, splits: seq<Split>)
    decreases |splits|
  {
    splits == [] || (Fresh(s, splits[0]) && AllFresh(NextSplit(s, splits[0]), splits[1..]))
  }

  /** The whole operation a fresh commit amounts to. */
  ghost function WholeOf(s: State, split: Split): Step
    requires !split.Whole? && CommitsAt(s, split, At(split))
  {
    var r := s.requests[At(split)];
    match split
    case CommitAccept(_, expected, token, expiresAt) => DoAccept(r.a, r.worker, expected, token, expiresAt)
    case CommitProgress(_, expected, expiresAt) => DoProgress(r.a, r.worker, r.token, expected, expiresAt)
    case CommitSubmit(_) =>
      if r.read.ReadSubmit? then DoSubmit(r.a, r.read.worker, r.read.cred, r.read.output, r.read.envelope,
                                          r.read.freshId)
      else DoNote("")
    case CommitCreate(_, att) =>
      if r.previous.Some? then DoReschedule(att, r.previous.value, r.origin) else DoCreateAttempt(att, r.wu)
    case CommitSweep(_) => DoSweep(r.now, r.order)
  }

  lemma FreshCommitIsWhole(s: State, split: Split)
    requires !split.Whole? && CommitsAt(s, split, At(split)) && RequestFits(s.db, s.requests[At(split)])
             && Fresh(s, split)
    ensures NextSplit(s, split).db == Next(s.db, WholeOf(s, split))
  {
    var r := s.requests[At(split)];
    match split
    case CommitAccept(_, expected, token, expiresAt) => FreshAcceptIsWhole(s.db, r, expected, token, expiresAt);
    case CommitProgress(_, expected, expiresAt) => FreshProgressIsWhole(s.db, r, expected, expiresAt);
    case CommitSubmit(_) => FreshSubmitIsWhole(s.db, r);
    case CommitCreate(_, att) => FreshCreateIsWhole(s.db, r, att);
    case CommitSweep(_) => assert SweepCommit(s.db, r.order) == Sweep(s.db, r.now, r.order);
  }

  lemma FreshCreateIsWhole(db: Db, r: Request, att: Id)
    requires r.CreateRequest? && RequestFits(db, r) && r.number == NextAttemptNumber(db.attempts, r.wu)
    ensures InsertAttempt(db, att, r.wu, r.number, r.origin) ==
            if r.previous.Some? then Reschedule(db, att, r.previous.value, r.origin)
            else CreateAttempt(db, att, r.wu, FirstTry)
  {
  }

  lemma FreshAcceptIsWhole(db: Db, r: Request, expected: int, token: LeaseToken, expiresAt: string)
    requires r.AcceptRequest? && RequestFits(db, r) && AcceptRead(db, r.a, r.worker).Row?
    ensures AcceptCommit(db, r.a, r.stale, r.worker, expected, token, expiresAt)
            == Accept(db, r.a, r.worker, expected, token, expiresAt)
  {
  }

  lemma FreshProgressIsWhole(db: Db, r: Request, expected: int, expiresAt: string)
    requires r.ProgressRequest? && RequestFits(db, r) && ProgressRead(db, r.a, r.worker, r.token).Row?
    ensures ProgressCommit(db, r.a, r.stale, r.worker, expected, expiresAt)
            == Progress(db, r.a, r.worker, r.token, expected, expiresAt)
  {
  }

  lemma FreshSubmitIsWhole(db: Db, r: Request)
    requires r.SubmitRequest? && r.read.ReadSubmit? && r.read.a == r.a
    requires Reading(db, r.read) == Some(SubmitRequest(r.a, r.read, r.result, r.late, db.attempts.Keys))
    ensures SubmitCommit(db, r) == Submit(db, r.a, r.read.worker, r.read.cred, r.read.output, r.read.envelope,
                                          r.read.freshId)
  {
  }

  /** An interleaving in which every read is still true at its commit is a run of whole operations,
      so everything proved of those runs holds of it: the fence, the lease history, the log. */
  lemma {:induction false} FreshRunsSerialise(s: State, splits: seq<Split>, before: seq<Step>)
    returns (steps: seq<Step>)
    requires Inv(s) && AllFresh(s, splits) && s.db == Run(EMPTY_DB, before)
    ensures RunSplit(s, splits).db == Run(EMPTY_DB, steps)
    decreases |splits|
  {
    if splits == [] {
      steps := before;
    } else {
      var split := splits[0];
      var after := before;
      if split.Whole? {
        after := before + [split.step];
        RunThen(EMPTY_DB, before, split.step);
      } else if CommitsAt(s, split, At(split)) {
        FreshCommitIsWhole(s, split);
        after := before + [WholeOf(s, split)];
        RunThen(EMPTY_DB, before, WholeOf(s, split));
      }
      SplitInv(s, split);
      steps := FreshRunsSerialise(NextSplit(s, split), splits[1..], after);
    }
  }

  lemma FreshRunsFenced(splits: seq<Split>)
    requires AllFresh(START, splits)
    ensures var db := RunSplit(START, splits).db; ResultsOrdered(db) && CompletionsOrdered(db) && ResultsAnnounced(db)
  {
    StartInv();
    var steps := FreshRunsSerialise(START, splits, []);
    FenceHolds(steps);
  }

  /////// It does happen: runs from the empty database

  lemma {:induction false} SplitThen(s: State, splits: seq<Split>, split: Split)
    ensures RunSplit(s, splits + [split]) == NextSplit(RunSplit(s, splits), split)
    decreases |splits|
  {
    if splits == [] {
      assert RunSplit(NextSplit(s, split), []) == NextSplit(s, split);
    } else {
      assert (splits + [split])[1..] == splits[1..] + [split];
      SplitThen(NextSplit(s, splits[0]), splits[1..], split);
    }
  }

  function Opening(c: Cast): seq<Split> { [Whole(CreateUnit(c))] + [Whole(CreateTry(c))] + [Whole(Assign(c))] }

  lemma OpeningState(c: Cast)
    ensures RunSplit(START, Opening(c)) == State(FirstDb(c), [])
  {
    SplitThen(START, [], Whole(CreateUnit(c)));
    assert [] + [Whole(CreateUnit(c))] == [Whole(CreateUnit(c))];
    SplitThen(START, [Whole(CreateUnit(c))], Whole(CreateTry(c)));
    SplitThen(START, [Whole(CreateUnit(c))] + [Whole(CreateTry(c))], Whole(Assign(c)));
    FirstDbReached(c);
  }

  function TwoReads(c: Cast): seq<Split> { Opening(c) + [ReadAccept(c.a, c.worker)] + [ReadAccept(c.a, c.worker)] }

  lemma TwoReadsState(c: Cast)
    ensures var row := FirstDb(c).assignments[c.a];
            RunSplit(START, TwoReads(c)) == State(FirstDb(c),
                                                  [AcceptRequest(c.a, c.worker, row),
                                                   AcceptRequest(c.a, c.worker, row)])
  {
    OpeningState(c);
    SplitThen(START, Opening(c), ReadAccept(c.a, c.worker));
    SplitThen(START, Opening(c) + [ReadAccept(c.a, c.worker)], ReadAccept(c.a, c.worker));
  }

  /** Two requests read the same created row; the second commits after the first by expecting
      version 1. Two accepts are logged and the first token is dead. */
  lemma TakeoverHappens(c: Cast, t1: LeaseToken, t2: LeaseToken)
    ensures var end := RunSplit(START, TwoReads(c) + [CommitAccept(0, 0, t1, "")] + [CommitAccept(0, 1, t2, "")]).db;
            && c.a in end.assignments && end.assignments[c.a].tokenHash == Some(TokenHash(t2))
            && AcceptAt(end.log, c.a, 6) && AcceptAt(end.log, c.a, 8)
  {
    var row := FirstDb(c).assignments[c.a];
    var first, second := CommitAccept(0, 0, t1, ""), CommitAccept(0, 1, t2, "");
    TwoReadsState(c);
    SplitThen(START, TwoReads(c), first);
    SplitThen(START, TwoReads(c) + [first], second);
    LeasedDbReached(c, t1, "");
    var mid := RunSplit(START, TwoReads(c) + [first]);
    assert mid == State(LeasedDb(c, t1, ""), [AcceptRequest(c.a, c.worker, row)]);
  }

  function StaleSubmit(c: Cast, token: LeaseToken, output: Json, freshId: Id): Split {
    ReadSubmit(c.a, c.worker, ByToken(Some(token)), output, None, freshId)
  }

  function Leasing(c: Cast, token: LeaseToken): seq<Split> {
    Opening(c) + [Whole(DoAccept(c.a, c.worker, 0, token, ""))]
  }

  lemma LeasingState(c: Cast, token: LeaseToken)
    ensures RunSplit(START, Leasing(c, token)) == State(LeasedDb(c, token, ""), [])
  {
    OpeningState(c);
    LeasedDbReached(c, token, "");
    SplitThen(START, Opening(c), Whole(DoAccept(c.a, c.worker, 0, token, "")));
  }

  lemma FirstIsCurrent(c: Cast, token: LeaseToken)
    ensures !Late(LeasedDb(c, token, ""), c.att)
  {
  }

  ghost function OpenSubmit(c: Cast, token: LeaseToken, output: Json, freshId: Id): Request {
    var row := LeasedDb(c, token, "").assignments[c.a];
    SubmitRequest(c.a, StaleSubmit(c, token, output, freshId), BuildResultRow(c.a, row, output, None, freshId, false),
                  false, {c.att})
  }

  lemma StaleSubmitState(c: Cast, token: LeaseToken, output: Json, freshId: Id)
    ensures RunSplit(START, Leasing(c, token) + [StaleSubmit(c, token, output, freshId)])
            == State(LeasedDb(c, token, ""), [OpenSubmit(c, token, output, freshId)])
  {
    LeasingState(c, token);
    FirstIsCurrent(c, token);
    SplitThen(START, Leasing(c, token), StaleSubmit(c, token, output, freshId));
    assert LeasedDb(c, token, "").attempts.Keys == {c.att};
  }

  function StaleRetry(c: Cast, token: LeaseToken, output: Json, freshId: Id, retry: Id): seq<Split> {
    Leasing(c, token) + [StaleSubmit(c, token, output, freshId)] + [Whole(DoReschedule(retry, c.att, Retry))]
    + [CommitSubmit(0)]
  }

  /** A retry is created while a submit of the first attempt is between its read and its commit:
      the late attempt's result is stored as succeeded and the work unit marked succeeded. */
  lemma FenceBreaks(c: Cast, token: LeaseToken, output: Json, freshId: Id, retry: Id)
    requires retry != c.att
    ensures var splits := StaleRetry(c, token, output, freshId, retry);
            var end := RunSplit(START, splits).db;
            && c.att in end.attempts && Late(end, c.att)
            && end.workUnits == map[c.wu := WuSucceeded]
            && |end.results| == 1 && end.results[0].attempt == c.att && end.results[0].status == ResultSucceeded
            && end.results[0].id == freshId && end.results[0].workUnit == c.wu && end.results[0].assignment == c.a
            && end.quarantine == {} && c.a in end.assignments
  {
    var db, r := LeasedDb(c, token, ""), OpenSubmit(c, token, output, freshId);
    var begun, create := Leasing(c, token)
      + [StaleSubmit(c, token, output, freshId)], Whole(DoReschedule(retry, c.att, Retry));
    StaleSubmitState(c, token, output, freshId);
    SplitThen(START, begun, create);
    SplitThen(START, begun + [create], CommitSubmit(0));
    RetryIsNewer(db, c, retry);
    var mid := Next(db, create.step);
    assert RunSplit(START, begun + [create]) == State(mid, [r]);
    StaleStore(mid, c, r);
    var end := RunSplit(START, begun + [create] + [CommitSubmit(0)]).db;
    assert NewerThan(end.attempts, retry, c.att);
    LateIsNewer(end, c.att);
  }

  lemma RetryIsNewer(db: Db, c: Cast, retry: Id)
    requires c.att in db.attempts && retry !in db.attempts && db.attempts[c.att].workUnit in db.workUnits
    ensures var after := Next(db, DoReschedule(retry, c.att, Retry));
            && NewerThan(after.attempts, retry, c.att)
            && after.workUnits == db.workUnits && after.assignments == db.assignments && after.results == db.results
            && after.quarantine == db.quarantine
  {
    assert db.attempts[c.att].number in Numbers(db.attempts, db.attempts[c.att].workUnit);
  }

  /** Committing a request that read no lateness, whatever has happened to the attempts. */
  lemma StaleStore(db: Db, c: Cast, r: Request)
    requires r.SubmitRequest? && !r.late && r.a == c.a && db.results == [] && db.quarantine == {}
             && db.workUnits.Keys == {c.wu}
    requires c.a in db.assignments && db.assignments[c.a].workUnit == c.wu
    ensures var out := SubmitCommit(db, r);
            && out.Committed? && out.db.results == [r.result] && out.db.quarantine == {}
            && out.db.workUnits == map[c.wu := WuSucceeded]
            && (forall b, att :: NewerThan(db.attempts, b, att) ==> NewerThan(out.db.attempts, b, att))
  {
    assert db.workUnits[c.wu := WuSucceeded] == map[c.wu := WuSucceeded];
  }

  function TwoNumbers(wu: Id): seq<Split> { [Whole(DoCreateWorkUnit(wu))] + [ReadCreate(wu)] + [ReadCreate(wu)] }

  lemma TwoNumbersState(wu: Id)
    ensures var r := CreateRequest(wu, None, 1, FirstTry, {});
            RunSplit(START, TwoNumbers(wu)) == State(Next(EMPTY_DB, DoCreateWorkUnit(wu)), [r, r])
  {
    var unit, db := [Whole(DoCreateWorkUnit(wu))], Next(EMPTY_DB, DoCreateWorkUnit(wu));
    SplitThen(START, [], Whole(DoCreateWorkUnit(wu)));
    assert [] + unit == unit;
    FirstNumber(db, wu);
    SplitThen(START, unit, ReadCreate(wu));
    SplitThen(START, unit + [ReadCreate(wu)], ReadCreate(wu));
  }

  /** Two creates that read before either commits number two attempts alike. */
  lemma NumbersCollide(wu: Id, one: Id, two: Id)
    requires one != two
    ensures var end := RunSplit(START, TwoNumbers(wu) + [CommitCreate(0, one)] + [CommitCreate(0, two)]).db;
            end.attempts == map[one := Attempt(wu, 1, AttCreated), two := Attempt(wu, 1, AttCreated)]
  {
    TwoNumbersState(wu);
    SplitThen(START, TwoNumbers(wu), CommitCreate(0, one));
    SplitThen(START, TwoNumbers(wu) + [CommitCreate(0, one)], CommitCreate(0, two));
  }

  lemma FirstNumber(db: Db, wu: Id)
    requires db.attempts == map[]
    ensures Reading(db, ReadCreate(wu)) == Some(CreateRequest(wu, None, 1, FirstTry, {}))
  {
    assert Numbers(db.attempts, wu) == {} && db.attempts.Keys == {};
  }
}
