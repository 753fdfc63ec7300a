// The worker against the control plane: a lease is accepted and executed once,
// its output is submitted, spooled when the submit fails, and replayed after
// restarts. A call may be lost on the way or its answer lost on the way back, an
// answer may be an error status, and the worker may crash between any two steps.

module Worker {
  import opened Common
  import opened Hashes
  import opened Scheduler
  import opened Integrity
  import opened Fencing
  import opened FirstLease

  datatype SpoolEntry = SpoolEntry(assignment: Id, worker: Id, tokenHash: TokenHash, output: Json)

  /** Where handle_assignment or the replay loop of the worker process stands. */
  datatype Phase =
    | Idle
    | Holding(a: Id, token: LeaseToken, version: nat)         // accepted, not executed
    | Executed(a: Id, token: LeaseToken, version: nat, envelope: Envelope)  // executed, progress not answered
    | Reported(a: Id, token: LeaseToken, envelope: Envelope)  // progress answered, submit not answered
    | Unspooled(a: Id, token: LeaseToken, output: Json)       // submit refused, spool file not in place
    | Removing(a: Id)                                         // replay answered, spool file not removed

  /** What comes back from a call: the answer of the control plane, an error status from whoever
      answers in its place, or nothing. Only an error status is a ControlPlaneRequestError; a
      refused connection or a timeout raises another exception, which nobody here catches. */
  datatype Answer = Returned | ErrorStatus | NoAnswer

  /** `produced` and `settled` record history: the output each assignment's one execution
      gave, and the assignments whose submit returned or whose failure was spooled. */
  datatype World = World(db: Db, phase: Phase, spool: map<Id, SpoolEntry>, produced: map<Id, Json>, settled: set<Id>)

  datatype Move =
    | Other(step: Step)
    | AcceptMove(a: Id, token: LeaseToken, expiresAt: string, answered: bool)
    | ExecuteMove(envelope: Envelope)
    | ProgressMove(expiresAt: string, delivered: bool, answered: bool)
    | SubmitMove(delivered: bool, answer: Answer)
    | SpoolMove
    | ReplayMove(a: Id, freshId: Id, delivered: bool, answered: bool)
    | RemoveMove
    | Crash

  /** Other clients do not act as this worker and do not hold its lease tokens. */
  ghost predicate Foreign(w: Id, db: Db, step: Step) {
    && (step.DoAccept? ==> step.worker != w)
    && (step.DoSubmit? && step.a in db.assignments && db.assignments[step.a].worker == w ==>
          !CredentialMatches(db.assignments[step.a].tokenHash, step.cred))
  }

  ghost function DirectSubmit(w: Id, s: World): Outcome
    requires s.phase.Reported?
  {
    Submit(s.db, s.phase.a, w, ByToken(Some(s.phase.token)), s.phase.envelope.output, Some(s.phase.envelope),
           s.phase.envelope.id)
  }

  ghost function ReplaySubmit(s: World, a: Id, freshId: Id): Outcome
    requires a in s.spool
  {
    var e := s.spool[a];
    Submit(s.db, e.assignment, e.worker, ByHash(e.tokenHash), e.output, None, freshId)
  }

  ghost function NextWorld(w: Id, s: World, move: Move): World {
    match move
    case Other(step) => if Foreign(w, s.db, step) then s.(db := Next(s.db, step)) else s
    case AcceptMove(a, token, expiresAt, answered) =>
      var out := Accept(s.db, a, w, 0, token, expiresAt);
      if !s.phase.Idle? || !out.Committed? then s
      else
        var held := Holding(a, token, out.db.assignments[a].leaseVersion);
        s.(db := out.db, phase := if answered then held else Idle)
    case ExecuteMove(envelope) =>
      if s.phase.Holding? then
        s.(phase := Executed(s.phase.a, s.phase.token, s.phase.version, envelope),
           produced := s.produced[s.phase.a := envelope.output])
      else s
    case ProgressMove(expiresAt, delivered, answered) =>
      if !s.phase.Executed? then s
      else
        var out := Progress(s.db, s.phase.a, w, s.phase.token, s.phase.version, expiresAt);
        var landed := delivered && out.Committed?;
        // a failure here is raised outside the try: the output is dropped
        s.(db := if landed then out.db else s.db,
           phase := if landed && answered then Reported(s.phase.a, s.phase.token, s.phase.envelope) else Idle)
    case SubmitMove(delivered, answer) =>
      if !s.phase.Reported? then s
      else
        var out := DirectSubmit(w, s);
        var landed := delivered && out.Committed?;
        var db := if landed then out.db else s.db;
        if answer.NoAnswer? then s.(db := db, phase := Idle)   // escapes the except clause
        else if landed && answer.Returned? then s.(db := db, phase := Idle, settled := s.settled + {s.phase.a})
        else s.(db := db, phase := Unspooled(s.phase.a, s.phase.token, s.phase.envelope.output))
    case SpoolMove =>
      if !s.phase.Unspooled? then s
      else
        var entry := SpoolEntry(s.phase.a, w, TokenHash(s.phase.token), s.phase.output);
        s.(spool := s.spool[s.phase.a := entry], phase := Idle, settled := s.settled + {s.phase.a})
    case ReplayMove(a, freshId, delivered, answered) =>
      if !s.phase.Idle? || a !in s.spool then s
      else
        var out := ReplaySubmit(s, a, freshId);
        if delivered && out.Committed? then s.(db := out.db, phase := if answered then Removing(a) else Idle) else s
    case RemoveMove =>
      if s.phase.Removing? then s.(spool := s.spool - {s.phase.a}, phase := Idle) else s
    case Crash => s.(phase := Idle)
  }

  ghost function RunWorld(w: Id, s: World, moves: seq<Move>): World
    decreases |moves|
  {
    if moves == [] then s else RunWorld(w, NextWorld(w, s, moves[0]), moves[1..])
  }

  const FIRST_WORLD := World(EMPTY_DB, Idle, map[], map[], {})

  /////// The protocol invariant

  ghost predicate HasResult(db: Db, a: Id) {
    exists k :: 0 <= k < |db.results| && db.results[k].assignment == a
  }

  ghost predicate Leased(w: Id, db: Db, a: Id, hash: TokenHash) {
    a in db.assignments && db.assignments[a].worker == w && db.assignments[a].tokenHash == Some(hash)
  }

  ghost predicate Owned(w: Id, db: Db, r: ResultRow) {
    r.assignment in db.assignments && db.assignments[r.assignment].worker == w
  }

  /** A result of this worker's assignment carries what its execution produced. */
  ghost predicate RowFaithful(w: Id, db: Db, produced: map<Id, Json>, r: ResultRow) {
    && r.assignment in db.assignments
    && (Owned(w, db, r) ==> r.assignment in produced && r.output == produced[r.assignment])
  }

  ghost predicate RowsFaithful(w: Id, db: Db, produced: map<Id, Json>) {
    forall k :: 0 <= k < |db.results| ==> RowFaithful(w, db, produced, db.results[k])
  }

  ghost predicate SpoolFaithful(w: Id, s: World) {
    forall a :: a in s.spool ==>
      && s.spool[a].assignment == a && s.spool[a].worker == w && Leased(w, s.db, a, s.spool[a].tokenHash)
      && a in s.produced && s.spool[a].output == s.produced[a]
  }

  ghost predicate PhaseFaithful(w: Id, s: World) {
    match s.phase
    case Idle => true
    case Holding(a, token, _) => Leased(w, s.db, a, TokenHash(token)) && a !in s.produced
    case Executed(a, token, _, env) =>
      Leased(w, s.db, a, TokenHash(token)) && a in s.produced && s.produced[a] == env.output
    case Reported(a, token, env) =>
      Leased(w, s.db, a, TokenHash(token)) && a in s.produced && s.produced[a] == env.output
    case Unspooled(a, token, output) =>
      Leased(w, s.db, a, TokenHash(token)) && a in s.produced && s.produced[a] == output
    case Removing(a) => HasResult(s.db, a)
  }

  ghost predicate ProducedLeased(w: Id, s: World) {
    forall a :: a in s.produced ==>
      a in s.db.assignments && s.db.assignments[a].worker == w && s.db.assignments[a].tokenHash.Some?
  }

  ghost predicate NothingLost(s: World) {
    forall a :: a in s.settled ==> a in s.spool || HasResult(s.db, a)
  }

  ghost predicate Inv(w: Id, s: World) {
    && Reachable(s.db) && RowsFaithful(w, s.db, s.produced) && SpoolFaithful(w, s)
    && PhaseFaithful(w, s) && ProducedLeased(w, s) && NothingLost(s)
  }

  lemma ResultStays(before: Db, after: Db, a: Id)
    requires Grows(before, after) && HasResult(before, a)
    ensures HasResult(after, a)
  {
    var k :| 0 <= k < |before.results| && before.results[k].assignment == a;
    assert after.results[k].assignment == a;
  }

  lemma OldRowsFaithful(w: Id, before: Db, after: Db, produced: map<Id, Json>, k: int)
    requires Grows(before, after) && RowsFaithful(w, before, produced) && 0 <= k < |before.results|
    ensures RowFaithful(w, after, produced, after.results[k])
  {
    assert after.results[k] == before.results[k];
    assert RowFaithful(w, before, produced, before.results[k]);
  }

  /** The database moved on and its new rows, if any, are faithful. */
  lemma DatabaseMoves(w: Id, s: World, after: Db)
    requires Inv(w, s) && Reachable(after) && Grows(s.db, after)
    requires forall k :: |s.db.results| <= k < |after.results| ==> RowFaithful(w, after, s.produced, after.results[k])
    ensures Inv(w, s.(db := after))
  {
    forall k | 0 <= k < |after.results| ensures RowFaithful(w, after, s.produced, after.results[k]) {
      if k < |s.db.results| { OldRowsFaithful(w, s.db, after, s.produced, k); }
    }
    forall a | a in s.settled && a !in s.spool ensures HasResult(after, a) { ResultStays(s.db, after, a); }
    if s.phase.Removing? { ResultStays(s.db, after, s.phase.a); }
  }

  /** Only the phase moved on. */
  lemma PhaseMoves(w: Id, s: World, phase: Phase)
    requires Inv(w, s) && PhaseFaithful(w, s.(phase := phase))
    ensures Inv(w, s.(phase := phase))
  {
    assert RowsFaithful(w, s.(phase := phase).db, s.(phase := phase).produced);
  }

  /** A step of anyone else stores no result for this worker's assignments. */
  lemma ForeignRows(w: Id, db: Db, step: Step, produced: map<Id, Json>)
    requires Foreign(w, db, step) && Grows(db, Next(db, step))
    ensures var after := Next(db, step);
            forall k :: |db.results| <= k < |after.results| ==> RowFaithful(w, after, produced, after.results[k])
  {
    if step.DoSubmit? {
      if Apply(db, step).Committed? {
        SubmitAppends(db, step.a, step.worker, step.cred, step.output, step.envelope, step.freshId);
      }
    } else {
      OnlySubmitStores(db, step);
    }
  }

  lemma OtherInv(w: Id, s: World, step: Step)
    requires Inv(w, s) && Foreign(w, s.db, step)
    ensures Inv(w, s.(db := Next(s.db, step)))
  {
    NextReachable(s.db, step);
    ForeignRows(w, s.db, step, s.produced);
    DatabaseMoves(w, s, Next(s.db, step));
  }

  lemma SubmitReachable(db: Db, a: Id, worker: Id, cred: Credential, output: Json, envelope: Option<Envelope>,
                        freshId: Id)
    requires Reachable(db) && Submit(db, a, worker, cred, output, envelope, freshId).Committed?
    ensures var after := Submit(db, a, worker, cred, output, envelope, freshId).db; Reachable(after) && Grows(db, after)
  {
    CommitReachable(db, DoSubmit(a, worker, cred, output, envelope, freshId),
                    Submit(db, a, worker, cred, output, envelope, freshId));
  }

  /** Any submit of this worker for `a` stores exactly one row, with the output it carried. */
  lemma OwnSubmitInv(w: Id, s: World, a: Id, cred: Credential, output: Json, envelope: Option<Envelope>, freshId: Id)
    requires Inv(w, s) && a in s.produced && s.produced[a] == output
    requires envelope.Some? ==> envelope.value.output == output
    requires Submit(s.db, a, w, cred, output, envelope, freshId).Committed?
    ensures var after := Submit(s.db, a, w, cred, output, envelope, freshId).db;
            Inv(w, s.(db := after)) && HasResult(after, a)
  {
    var after := Submit(s.db, a, w, cred, output, envelope, freshId).db;
    SubmitReachable(s.db, a, w, cred, output, envelope, freshId);
    SubmitAppends(s.db, a, w, cred, output, envelope, freshId);
    OwnRowInv(w, s, after, a, output);
  }

  lemma OwnRowInv(w: Id, s: World, after: Db, a: Id, output: Json)
    requires Inv(w, s) && a in s.produced && s.produced[a] == output && a in s.db.assignments
    requires Reachable(after) && Grows(s.db, after) && |after.results| == |s.db.results| + 1
    requires after.results[|s.db.results|].assignment == a && after.results[|s.db.results|].output == output
    ensures Inv(w, s.(db := after)) && HasResult(after, a)
  {
    assert after.results[|s.db.results|].assignment == a;
    DatabaseMoves(w, s, after);
  }

  lemma AcceptLeases(w: Id, db: Db, a: Id, token: LeaseToken, expiresAt: string)
    requires Reachable(db) && Accept(db, a, w, 0, token, expiresAt).Committed?
    ensures a in db.assignments && db.assignments[a].tokenHash.None?
    ensures var after := Accept(db, a, w, 0, token, expiresAt).db;
            Leased(w, after, a, TokenHash(token)) && after.results == db.results
  {
    ReachableSound(db);
    assert RowSound(db, db.assignments[a]);
  }

  lemma AcceptReachable(w: Id, db: Db, a: Id, token: LeaseToken, expiresAt: string)
    requires Reachable(db) && Accept(db, a, w, 0, token, expiresAt).Committed?
    ensures var after := Accept(db, a, w, 0, token, expiresAt).db; Reachable(after) && Grows(db, after)
  {
    CommitReachable(db, DoAccept(a, w, 0, token, expiresAt), Accept(db, a, w, 0, token, expiresAt));
  }

  lemma AcceptInv(w: Id, s: World, after: Db, a: Id, token: LeaseToken, version: nat, answered: bool)
    requires Inv(w, s) && s.phase.Idle? && Reachable(after) && Grows(s.db, after) && after.results == s.db.results
    requires a in s.db.assignments && s.db.assignments[a].tokenHash.None? && Leased(w, after, a, TokenHash(token))
    ensures Inv(w, s.(db := after, phase := if answered then Holding(a, token, version) else Idle))
  {
    DatabaseMoves(w, s, after);
    assert a !in s.produced;
    if answered { PhaseMoves(w, s.(db := after), Holding(a, token, version)); }
  }

  lemma AcceptMoveInv(w: Id, s: World, a: Id, token: LeaseToken, expiresAt: string, answered: bool)
    requires Inv(w, s) && s.phase.Idle? && Accept(s.db, a, w, 0, token, expiresAt).Committed?
    ensures Inv(w, NextWorld(w, s, AcceptMove(a, token, expiresAt, answered)))
  {
    AcceptLeases(w, s.db, a, token, expiresAt);
    AcceptReachable(w, s.db, a, token, expiresAt);
    var after := Accept(s.db, a, w, 0, token, expiresAt).db;
    AcceptInv(w, s, after, a, token, after.assignments[a].leaseVersion, answered);
  }

  /** A progress call moves the lease and stores nothing. */
  lemma ProgressReachable(w: Id, db: Db, a: Id, token: LeaseToken, version: nat, expiresAt: string)
    requires Reachable(db) && Progress(db, a, w, token, version, expiresAt).Committed?
    ensures var after := Progress(db, a, w, token, version, expiresAt).db;
            Reachable(after) && Grows(db, after) && after.results == db.results
  {
    CommitReachable(db, DoProgress(a, w, token, version, expiresAt), Progress(db, a, w, token, version, expiresAt));
  }

  lemma ProgressMoveInv(w: Id, s: World, expiresAt: string, delivered: bool, answered: bool)
    requires Inv(w, s) && s.phase.Executed?
    ensures Inv(w, NextWorld(w, s, ProgressMove(expiresAt, delivered, answered)))
  {
    var p := s.phase;
    var out := Progress(s.db, p.a, w, p.token, p.version, expiresAt);
    if delivered && out.Committed? {
      ProgressReachable(w, s.db, p.a, p.token, p.version, expiresAt);
      DatabaseMoves(w, s, out.db);
      PhaseMoves(w, s.(db := out.db), if answered then Reported(p.a, p.token, p.envelope) else Idle);
    } else {
      PhaseMoves(w, s, Idle);
    }
  }

  lemma ExecuteInv(w: Id, s: World, envelope: Envelope)
    requires Inv(w, s)
    ensures Inv(w, NextWorld(w, s, ExecuteMove(envelope)))
  {
    if s.phase.Holding? {
      var after := NextWorld(w, s, ExecuteMove(envelope));
      forall k | 0 <= k < |s.db.results| ensures RowFaithful(w, s.db, after.produced, s.db.results[k]) {
        assert RowFaithful(w, s.db, s.produced, s.db.results[k]);
      }
    }
  }

  lemma SubmitMoveInv(w: Id, s: World, delivered: bool, answer: Answer)
    requires Inv(w, s) && s.phase.Reported?
    ensures Inv(w, NextWorld(w, s, SubmitMove(delivered, answer)))
  {
    var p := s.phase;
    if delivered && DirectSubmit(w, s).Committed? {
      OwnSubmitInv(w, s, p.a, ByToken(Some(p.token)), p.envelope.output, Some(p.envelope), p.envelope.id);
    }
  }

  lemma ReplayMoveInv(w: Id, s: World, a: Id, freshId: Id, delivered: bool, answered: bool)
    requires Inv(w, s) && s.phase.Idle? && a in s.spool
    ensures Inv(w, NextWorld(w, s, ReplayMove(a, freshId, delivered, answered)))
  {
    if delivered && ReplaySubmit(s, a, freshId).Committed? {
      var e := s.spool[a];
      assert e.assignment == a && e.worker == w && a in s.produced && e.output == s.produced[a];
      OwnSubmitInv(w, s, a, ByHash(e.tokenHash), e.output, None, freshId);
      if answered { PhaseMoves(w, s.(db := ReplaySubmit(s, a, freshId).db), Removing(a)); }
    }
  }

  lemma MoveInv(w: Id, s: World, move: Move)
    requires Inv(w, s)
    ensures Inv(w, NextWorld(w, s, move))
  {
    match move
    case Other(step) => if Foreign(w, s.db, step) { OtherInv(w, s, step); }
    case AcceptMove(a, token, expiresAt, answered) =>
      if s.phase.Idle? && Accept(s.db, a, w, 0, token, expiresAt).Committed? {
        AcceptMoveInv(w, s, a, token, expiresAt, answered);
      }
    case ExecuteMove(envelope) => ExecuteInv(w, s, envelope);
    case ProgressMove(expiresAt, delivered, answered) =>
      if s.phase.Executed? { ProgressMoveInv(w, s, expiresAt, delivered, answered); }
    case SubmitMove(delivered, answer) => if s.phase.Reported? { SubmitMoveInv(w, s, delivered, answer); }
    case ReplayMove(a, freshId, delivered, answered) =>
      if s.phase.Idle? && a in s.spool { ReplayMoveInv(w, s, a, freshId, delivered, answered); }
    case SpoolMove =>
    case RemoveMove =>
    case Crash =>
  }

  lemma FirstInv(w: Id)
    ensures Inv(w, FIRST_WORLD)
  {
    assert EMPTY_DB == Run(EMPTY_DB, []);
  }

  lemma {:induction false} RunWorldInv(w: Id, s: World, moves: seq<Move>)
    requires Inv(w, s)
    ensures Inv(w, RunWorld(w, s, moves))
    decreases |moves|
  {
    if moves != [] {
      MoveInv(w, s, moves[0]);
      RunWorldInv(w, NextWorld(w, s, moves[0]), moves[1..]);
    }
  }

  /** Main result. In every run: an output whose submit returned, or whose failure was
      spooled, is in the spool or stored; all rows of one assignment, however often it was
      delivered, carry the output of its single execution; so does its spool entry. */
  lemma NoLossSingleContent(w: Id, moves: seq<Move>)
    ensures var s := RunWorld(w, FIRST_WORLD, moves);
            && (forall a :: a in s.settled ==> a in s.spool || HasResult(s.db, a))
            && (forall k, l ::
                  (0 <= k < |s.db.results| && 0 <= l < |s.db.results| && Owned(w, s.db, s.db.results[k])
                   && s.db.results[k].assignment == s.db.results[l].assignment) ==>
                  s.db.results[k].output == s.db.results[l].output)
            && (forall a, k :: a in s.spool && 0 <= k < |s.db.results| && s.db.results[k].assignment == a ==>
                  s.db.results[k].output == s.spool[a].output)
  {
    FirstInv(w);
    RunWorldInv(w, FIRST_WORLD, moves);
    var s := RunWorld(w, FIRST_WORLD, moves);
    forall k | 0 <= k < |s.db.results| ensures RowFaithful(w, s.db, s.produced, s.db.results[k]) {}
  }

  /////// A spooled entry stays deliverable

  /** Whatever happens to the assignment later, the lease hash it was spooled with is
      accepted, and the stored result is succeeded or quarantined. */
  lemma DeliverableForever(db: Db, steps: seq<Step>, a: Id, hash: TokenHash, output: Json, freshId: Id)
    requires Sound(db) && a in db.assignments && db.assignments[a].tokenHash == Some(hash)
    requires !ResultExists(Run(db, steps), freshId)
    ensures var later := Run(db, steps);
            var out := Submit(later, a, db.assignments[a].worker, ByHash(hash), output, None, freshId);
            && out.Committed?
            && var row := out.db.results[|later.results|];
            && row.assignment == a && row.output == output && row.attempt in later.attempts
            && row.status == (if Late(later, row.attempt) then ResultQuarantined else ResultSucceeded)
  {
    RunKeeps(db, steps);
    var later := Run(db, steps);
    assert RowSound(later, later.assignments[a]);
    SubmitFences(later, a, db.assignments[a].worker, ByHash(hash), output, None, freshId);
  }

  /** In every reachable state every spool entry can be delivered now. */
  lemma SpoolAlwaysDeliverable(w: Id, moves: seq<Move>, a: Id, freshId: Id)
    requires var s := RunWorld(w, FIRST_WORLD, moves); a in s.spool && !ResultExists(s.db, freshId)
    ensures ReplaySubmit(RunWorld(w, FIRST_WORLD, moves), a, freshId).Committed?
  {
    FirstInv(w);
    RunWorldInv(w, FIRST_WORLD, moves);
    var s := RunWorld(w, FIRST_WORLD, moves);
    ReachableSound(s.db);
    DeliverableForever(s.db, [], a, s.spool[a].tokenHash, s.spool[a].output, freshId);
  }

  /////// When an output is lost

  /** The process holds this assignment's output in memory. */
  ghost predicate InHand(s: World, a: Id) {
    match s.phase
    case Executed(b, _, _, _) => a == b
    case Reported(b, _, _) => a == b
    case Unspooled(b, _, _) => a == b
    case _ => false
  }

  ghost predicate Kept(s: World, a: Id) { a in s.spool || HasResult(s.db, a) || InHand(s, a) }

  /** The move takes the only copy, in memory and neither spooled nor stored: a crash, a progress
      call that raises, or a submit that never lands and gets no answer. */
  ghost predicate Drops(w: Id, s: World, move: Move, a: Id) {
    && InHand(s, a) && a !in s.spool && !HasResult(s.db, a)
    && (|| move.Crash?
        || (move.ProgressMove? && s.phase.Executed? && !ProgressReturns(w, s, move))
        || (move.SubmitMove? && s.phase.Reported? && SubmitVanishes(w, s, move)))
  }

  ghost predicate SubmitVanishes(w: Id, s: World, move: Move)
    requires move.SubmitMove? && s.phase.Reported?
  {
    move.answer.NoAnswer? && !(move.delivered && DirectSubmit(w, s).Committed?)
  }

  ghost predicate ProgressReturns(w: Id, s: World, move: Move)
    requires move.ProgressMove? && s.phase.Executed?
  {
    && move.delivered && move.answered
    && Progress(s.db, s.phase.a, w, s.phase.token, s.phase.version, move.expiresAt).Committed?
  }

  ghost predicate Dropped(w: Id, s: World, moves: seq<Move>, a: Id)
    decreases |moves|
  {
    moves != [] && (Drops(w, s, moves[0], a) || Dropped(w, NextWorld(w, s, moves[0]), moves[1..], a))
  }

  /** Nobody else stores a result for an assignment this worker has executed. */
  lemma ForeignStoresNone(w: Id, s: World, step: Step, a: Id)
    requires Inv(w, s) && Foreign(w, s.db, step) && a in s.produced
    ensures HasResult(Next(s.db, step), a) <==> HasResult(s.db, a)
  {
    NextReachable(s.db, step);
    if HasResult(s.db, a) {
      ResultStays(s.db, Next(s.db, step), a);
    } else if step.DoSubmit? {
      if Apply(s.db, step).Committed? {
        SubmitAppends(s.db, step.a, step.worker, step.cred, step.output, step.envelope, step.freshId);
        AppendedElsewhere(s.db, Next(s.db, step), step.a, a);
      }
    } else {
      OnlySubmitStores(s.db, step);
    }
  }

  /** One more row, for `b`: another assignment has a result only if it had one. */
  lemma AppendedElsewhere(before: Db, after: Db, b: Id, a: Id)
    requires Grows(before, after) && |after.results| == |before.results| + 1
    requires after.results[|before.results|].assignment == b && a != b
    ensures HasResult(after, a) <==> HasResult(before, a)
  {
    if HasResult(before, a) { ResultStays(before, after, a); }
    if HasResult(after, a) {
      var k :| 0 <= k < |after.results| && after.results[k].assignment == a;
      assert before.results[k] == after.results[k];
    }
  }

  /** This worker's own submit stores for the assignment submitted and no other. */
  lemma OwnSubmitStores(w: Id, db: Db, b: Id, cred: Credential, output: Json, envelope: Option<Envelope>, freshId: Id,
                        a: Id)
    requires Reachable(db) && Submit(db, b, w, cred, output, envelope, freshId).Committed?
    ensures HasResult(Submit(db, b, w, cred, output, envelope, freshId).db, a) <==> a == b || HasResult(db, a)
  {
    var after := Submit(db, b, w, cred, output, envelope, freshId).db;
    SubmitReachable(db, b, w, cred, output, envelope, freshId);
    SubmitAppends(db, b, w, cred, output, envelope, freshId);
    if a == b { assert after.results[|db.results|].assignment == a; } else { AppendedElsewhere(db, after, b, a); }
  }

  lemma SubmitMoveKept(w: Id, s: World, move: Move, a: Id)
    requires Inv(w, s) && move.SubmitMove? && s.phase.Reported?
    ensures Kept(NextWorld(w, s, move), a) <==> Kept(s, a) && !Drops(w, s, move, a)
  {
    var p := s.phase;
    if move.delivered && DirectSubmit(w, s).Committed? {
      OwnSubmitStores(w, s.db, p.a, ByToken(Some(p.token)), p.envelope.output, Some(p.envelope), p.envelope.id, a);
    }
  }

  lemma ReplayMoveKept(w: Id, s: World, b: Id, freshId: Id, delivered: bool, answered: bool, a: Id)
    requires Inv(w, s) && s.phase.Idle? && b in s.spool
    ensures Kept(NextWorld(w, s, ReplayMove(b, freshId, delivered, answered)), a) <==> Kept(s, a)
  {
    if delivered && ReplaySubmit(s, b, freshId).Committed? {
      var e := s.spool[b];
      assert e.assignment == b && e.worker == w;
      OwnSubmitStores(w, s.db, b, ByHash(e.tokenHash), e.output, None, freshId, a);
    }
  }

  lemma AcceptMoveKept(w: Id, s: World, b: Id, token: LeaseToken, expiresAt: string, answered: bool, a: Id)
    requires Inv(w, s)
    ensures Kept(NextWorld(w, s, AcceptMove(b, token, expiresAt, answered)), a) <==> Kept(s, a)
  {
    if s.phase.Idle? && Accept(s.db, b, w, 0, token, expiresAt).Committed? {
      AcceptLeases(w, s.db, b, token, expiresAt);
    }
  }

  lemma SameResults(before: Db, after: Db, a: Id)
    requires after.results == before.results
    ensures HasResult(after, a) <==> HasResult(before, a)
  {
  }

  lemma ProgressMoveKept(w: Id, s: World, move: Move, a: Id)
    requires Inv(w, s) && move.ProgressMove? && s.phase.Executed?
    ensures Kept(NextWorld(w, s, move), a) <==> Kept(s, a) && !Drops(w, s, move, a)
  {
    var p := s.phase;
    var out := Progress(s.db, p.a, w, p.token, p.version, move.expiresAt);
    if move.delivered && out.Committed? {
      ProgressReachable(w, s.db, p.a, p.token, p.version, move.expiresAt);
      SameResults(s.db, out.db, a);
      assert NextWorld(w, s, move) == s.(db := out.db,
                                         phase := if move.answered then Reported(p.a, p.token, p.envelope) else Idle);
    } else {
      assert NextWorld(w, s, move) == s.(phase := Idle) && !ProgressReturns(w, s, move);
    }
  }

  /** One move keeps an output that was kept unless it drops it, and never brings a lost one back. */
  lemma MoveKept(w: Id, s: World, move: Move, a: Id)
    requires Inv(w, s) && a in s.produced
    ensures Kept(NextWorld(w, s, move), a) <==> Kept(s, a) && !Drops(w, s, move, a)
  {
    match move
    case Other(step) => if Foreign(w, s.db, step) { ForeignStoresNone(w, s, step, a); }
    case AcceptMove(b, token, expiresAt, answered) => AcceptMoveKept(w, s, b, token, expiresAt, answered, a);
    case ExecuteMove(envelope) =>
    case ProgressMove(_, _, _) => if s.phase.Executed? { ProgressMoveKept(w, s, move, a); }
    case SubmitMove(_, _) => if s.phase.Reported? { SubmitMoveKept(w, s, move, a); }
    case ReplayMove(b, freshId, delivered, answered) =>
      if s.phase.Idle? && b in s.spool { ReplayMoveKept(w, s, b, freshId, delivered, answered, a); }
    case SpoolMove =>
    case RemoveMove =>
    case Crash =>
  }

  /** What is produced stays produced, and what a move produces is in hand. */
  lemma MoveProduces(w: Id, s: World, move: Move, a: Id)
    requires Inv(w, s)
    ensures a in s.produced ==> a in NextWorld(w, s, move).produced
    ensures a !in s.produced ==> !Drops(w, s, move, a)
    ensures a !in s.produced && a in NextWorld(w, s, move).produced ==> Kept(NextWorld(w, s, move), a)
  {
  }

  /** From any state of the protocol: an executed output is kept at the end exactly when it was
      kept at the start, if it existed, and nothing dropped it on the way. */
  lemma {:induction false} RunKept(w: Id, s: World, moves: seq<Move>, a: Id)
    requires Inv(w, s) && a in RunWorld(w, s, moves).produced
    ensures Kept(RunWorld(w, s, moves), a) <==> (a in s.produced ==> Kept(s, a)) && !Dropped(w, s, moves, a)
    decreases |moves|
  {
    if moves != [] {
      MoveInv(w, s, moves[0]);
      MoveProduces(w, s, moves[0], a);
      if a in s.produced { MoveKept(w, s, moves[0], a); }
      RunKept(w, NextWorld(w, s, moves[0]), moves[1..], a);
    }
  }

  /** Main result: in every run an executed output is spooled, stored or still in memory if and
      only if no crash, no failed progress call and no vanished submit took its only copy. */
  lemma KeptIffNotDropped(w: Id, moves: seq<Move>, a: Id)
    requires a in RunWorld(w, FIRST_WORLD, moves).produced
    ensures Kept(RunWorld(w, FIRST_WORLD, moves), a) <==> !Dropped(w, FIRST_WORLD, moves, a)
  {
    FirstInv(w);
    RunKept(w, FIRST_WORLD, moves, a);
  }

  /** A lost output stays lost, whatever happens later. */
  lemma LostForever(w: Id, moves: seq<Move>, later: seq<Move>, a: Id)
    requires a in RunWorld(w, FIRST_WORLD, moves).produced && !Kept(RunWorld(w, FIRST_WORLD, moves), a)
    ensures var end := RunWorld(w, RunWorld(w, FIRST_WORLD, moves), later); a in end.produced && !Kept(end, a)
  {
    FirstInv(w);
    RunWorldInv(w, FIRST_WORLD, moves);
    StaysProduced(w, RunWorld(w, FIRST_WORLD, moves), later, a);
    RunKept(w, RunWorld(w, FIRST_WORLD, moves), later, a);
  }

  lemma {:induction false} StaysProduced(w: Id, s: World, moves: seq<Move>, a: Id)
    requires Inv(w, s) && a in s.produced
    ensures a in RunWorld(w, s, moves).produced
    decreases |moves|
  {
    if moves != [] {
      MoveInv(w, s, moves[0]);
      MoveProduces(w, s, moves[0], a);
      StaysProduced(w, NextWorld(w, s, moves[0]), moves[1..], a);
    }
  }

  /////// It does happen: runs from nothing

  lemma {:induction false} WorldThen(w: Id, s: World, moves: seq<Move>, move: Move)
    ensures RunWorld(w, s, moves + [move]) == NextWorld(w, RunWorld(w, s, moves), move)
    decreases |moves|
  {
    if moves == [] {
      assert RunWorld(w, NextWorld(w, s, move), []) == NextWorld(w, s, move);
    } else {
      assert (moves + [move])[1..] == moves[1..] + [move];
      WorldThen(w, NextWorld(w, s, moves[0]), moves[1..], move);
    }
  }

  function Prologue(c: Cast, token: LeaseToken, envelope: Envelope): seq<Move> {
    [Other(CreateUnit(c))] + [Other(CreateTry(c))] + [Other(Assign(c))] + [AcceptMove(c.a, token, "", true)]
      + [ExecuteMove(envelope)]
  }

  lemma PrologueState(c: Cast, token: LeaseToken, envelope: Envelope)
    ensures RunWorld(c.worker, FIRST_WORLD, Prologue(c, token, envelope)) ==
            World(LeasedDb(c, token, ""), Executed(c.a, token, 1, envelope), map[], map[c.a := envelope.output], {})
  {
    var w := c.worker;
    var m1, m2, m3 := Other(CreateUnit(c)), Other(CreateTry(c)), Other(Assign(c));
    WorldThen(w, FIRST_WORLD, [], m1);
    assert [] + [m1] == [m1];
    WorldThen(w, FIRST_WORLD, [m1], m2);
    WorldThen(w, FIRST_WORLD, [m1] + [m2], m3);
    FirstDbReached(c);
    WorldThen(w, FIRST_WORLD, [m1] + [m2] + [m3], AcceptMove(c.a, token, "", true));
    LeasedDbReached(c, token, "");
    WorldThen(w, FIRST_WORLD, [m1] + [m2] + [m3] + [AcceptMove(c.a, token, "", true)], ExecuteMove(envelope));
  }

  /** Two ways to lose an output before it was submitted: a crash, and a progress call that fails. */
  lemma LossBeforeSubmit(c: Cast, token: LeaseToken, envelope: Envelope)
    ensures Lost(c, Prologue(c, token, envelope) + [Crash])
    ensures Lost(c, Prologue(c, token, envelope) + [ProgressMove("", false, false)])
  {
    PrologueState(c, token, envelope);
    WorldThen(c.worker, FIRST_WORLD, Prologue(c, token, envelope), Crash);
    WorldThen(c.worker, FIRST_WORLD, Prologue(c, token, envelope), ProgressMove("", false, false));
  }

  /** Progress reported, then a submit that does not arrive. */
  function Submitted(c: Cast, token: LeaseToken, envelope: Envelope, answer: Answer): seq<Move> {
    Prologue(c, token, envelope) + [ProgressMove("", true, true)] + [SubmitMove(false, answer)]
  }

  lemma SubmittedState(c: Cast, token: LeaseToken, envelope: Envelope, answer: Answer)
    ensures var s := RunWorld(c.worker, FIRST_WORLD, Submitted(c, token, envelope, answer));
            && s.phase == (if answer.NoAnswer? then Idle else Unspooled(c.a, token, envelope.output))
            && s.db.results == [] && s.spool == map[] && s.produced == map[c.a := envelope.output]
  {
    var executed := Prologue(c, token, envelope);
    PrologueState(c, token, envelope);
    WorldThen(c.worker, FIRST_WORLD, executed, ProgressMove("", true, true));
    WorldThen(c.worker, FIRST_WORLD, executed + [ProgressMove("", true, true)], SubmitMove(false, answer));
  }

  /** The third way: the submit is lost and nothing comes back, with no crash at all. */
  lemma LossInSubmit(c: Cast, token: LeaseToken, envelope: Envelope)
    ensures Lost(c, Submitted(c, token, envelope, NoAnswer))
  {
    SubmittedState(c, token, envelope, NoAnswer);
  }

  /** The fourth: a crash after an error status came back and before the spool file is in place.
      Had the file been written, the output would be safe. */
  lemma LossBeforeSpool(c: Cast, token: LeaseToken, envelope: Envelope)
    ensures Lost(c, Submitted(c, token, envelope, ErrorStatus) + [Crash])
    ensures var kept := RunWorld(c.worker, FIRST_WORLD, Submitted(c, token, envelope, ErrorStatus) + [SpoolMove]);
            c.a in kept.spool && kept.spool[c.a].output == envelope.output && c.a in kept.settled
  {
    SubmittedState(c, token, envelope, ErrorStatus);
    WorldThen(c.worker, FIRST_WORLD, Submitted(c, token, envelope, ErrorStatus), Crash);
    WorldThen(c.worker, FIRST_WORLD, Submitted(c, token, envelope, ErrorStatus), SpoolMove);
  }

  ghost predicate Lost(c: Cast, moves: seq<Move>) {
    var s := RunWorld(c.worker, FIRST_WORLD, moves);
    c.a in s.produced && !Kept(s, c.a)
  }
}
