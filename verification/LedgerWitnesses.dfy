// Two runs worth knowing: a receipt that names the usage of another result, and
// a receipt for a result that was stored after its attempt had become late.

module LedgerWitnesses {
  import opened Common
  import opened Hashes
  import opened TimeText
  import opened Scheduler
  import opened FirstLease
  import opened StaleReads
  import opened StaleResults
  import opened Ledger
  import opened LedgerRuns
  import V = Verifier

  /////// Scheduler steps alone

  function Scheds(splits: seq<Split>, now: string): seq<LedgerStep> {
    seq(|splits|, i requires 0 <= i < |splits| => Sched(splits[i], now))
  }

  function Times(n: nat, now: string): seq<string> { seq(n, _ => now) }

  /** The machine after scheduler steps that all happened at `now`. */
  ghost function Scheduled(s: State, now: string): Machine {
    Machine(EMPTY_WORLD.(db := s.db, times := Times(|s.db.results|, now)), s.requests, [])
  }

  lemma {:induction false} SchedsOnly(splits: seq<Split>, now: string, rank: UsageId -> int) returns (ms: seq<Machine>)
    ensures Trace(ms, Scheds(splits, now), rank) && ms[|splits|] == Scheduled(RunSplit(START, splits), now)
  {
    if splits == [] {
      ms := [FIRST_MACHINE];
      assert Times(0, now) == [];
    } else {
      var init, last := splits[..|splits| - 1], splits[|splits| - 1];
      var before := SchedsOnly(init, now, rank);
      var s := RunSplit(START, init);
      assert splits == init + [last];
      SplitThen(START, init, last);
      SchedOne(s, last, now);
      ms := before + [Scheduled(NextSplit(s, last), now)];
      TraceThen(before, Scheds(init, now), Sched(last, now), ms[|splits|], rank);
      assert Scheds(splits, now) == Scheds(init, now) + [Sched(last, now)];
    }
  }

  lemma SchedOne(s: State, split: Split, now: string)
    requires Reached(s)
    ensures SchedStep(Scheduled(s, now), split, now) == Scheduled(NextSplit(s, split), now)
  {
    NextReached(s, split);
    var before, after := |s.db.results|, |NextSplit(s, split).db.results|;
    assert after == before || Times(after, now) == Times(before, now) + [now];
  }

  /////// A receipt for a late attempt

  function LatePicks(): Picks { Picks(Some(0), Some(0), Some(0), None, None) }

  function LateReceiptSteps(c: Cast, token: LeaseToken, result: Id, retry: Id, plan: Id, report: Id): seq<LedgerStep> {
    Scheds(StaleRetry(c, token, Null, result, retry), "1")
    + [DoPlan(plan, c.wu, Null, "")] + [DoReport(report, result, V.Accept, "")]
    + [DoReceipt(Call(c.wu, None, None, ""), "", "", LatePicks())]
  }

  /** A retry that comes between the read and the commit of a submit: the result of the attempt that is
      late by then is stored as succeeded and gets a receipt. */
  lemma LateReceiptReached(c: Cast, token: LeaseToken, result: Id, retry: Id, plan: Id, report: Id,
                           rank: UsageId -> int)
    returns (ms: seq<Machine>)
    requires retry != c.att
    ensures Trace(ms, LateReceiptSteps(c, token, result, retry, plan, report), rank)
    ensures var w := ms[|ms| - 1].world;
            && |w.receipts| == 1 && w.receipts[0].payload.result == result
            && w.receipts[0].payload.resultRow.attempt == c.att
            && c.att in w.db.attempts && Late(w.db, c.att)
  {
    var splits := StaleRetry(c, token, Null, result, retry);
    FenceBreaks(c, token, Null, result, retry);
    ms := SchedsOnly(splits, "1", rank);
    var steps, end := Scheds(splits, "1"), RunSplit(START, splits);
    var m1 := LatePlanned(c, end, plan, rank);
    TraceThen(ms, steps, DoPlan(plan, c.wu, Null, ""), m1, rank);
    ms, steps := ms + [m1], steps + [DoPlan(plan, c.wu, Null, "")];
    var m2 := LateReported(c, m1, result, plan, report, rank);
    TraceThen(ms, steps, DoReport(report, result, V.Accept, ""), m2, rank);
    ms, steps := ms + [m2], steps + [DoReport(report, result, V.Accept, "")];
    var m3 := LateReceipted(m2, c, result, plan, report, rank);
    TraceThen(ms, steps, DoReceipt(Call(c.wu, None, None, ""), "", "", LatePicks()), m3, rank);
    ms := ms + [m3];
  }

  /** One succeeded result of the work unit, with these plans and reports, and nothing else. */
  ghost predicate LateReady(w: World, c: Cast, result: Id, plans: seq<PlanRow>, reports: seq<ReportRow>) {
    && c.wu in w.db.workUnits && |w.db.results| == 1 && w.times == ["1"] && w.receipts == [] && w.usage == []
    && w.db.results[0].id == result && w.db.results[0].status == ResultSucceeded && w.db.results[0].workUnit == c.wu
    && w.db.results[0].assignment == c.a && c.a in w.db.assignments && w.db.results[0].attempt == c.att
    && w.plans == plans && w.reports == reports
  }

  function PlanOf(c: Cast, plan: Id): PlanRow { PlanRow(plan, c.wu, "", Null) }
  function ReportOf(report: Id, result: Id): ReportRow { ReportRow(report, result, "", ReportBody(report, V.Accept)) }

  lemma LatePlanned(c: Cast, s: State, plan: Id, rank: UsageId -> int) returns (m: Machine)
    requires s.db.workUnits == map[c.wu := WuSucceeded] && |s.db.results| == 1 && c.a in s.db.assignments
    requires var row := s.db.results[0];
             && row.status == ResultSucceeded && row.workUnit == c.wu && row.assignment == c.a && row.attempt == c.att
    ensures m == StepLedger(Scheduled(s, "1"), DoPlan(plan, c.wu, Null, ""), rank)
    ensures LateReady(m.world, c, s.db.results[0].id, [PlanOf(c, plan)], []) && m.world.db.attempts == s.db.attempts
  {
    m := StepLedger(Scheduled(s, "1"), DoPlan(plan, c.wu, Null, ""), rank);
    assert m.world.db == Note(s.db, OtherEvent("route_plan.created"));
    assert m.world.plans == [PlanOf(c, plan)];
  }

  lemma LateReported(c: Cast, m: Machine, result: Id, plan: Id, report: Id, rank: UsageId -> int)
    returns (next: Machine)
    requires LateReady(m.world, c, result, [PlanOf(c, plan)], [])
    ensures next == StepLedger(m, DoReport(report, result, V.Accept, ""), rank)
    ensures LateReady(next.world, c, result, [PlanOf(c, plan)], [ReportOf(report, result)])
    ensures next.world.db == m.world.db
  {
    next := StepLedger(m, DoReport(report, result, V.Accept, ""), rank);
    assert ResultExists(m.world.db, result) by { assert m.world.db.results[0].id == result; }
    assert next.world.reports == [ReportOf(report, result)];
  }

  lemma LatePicked(w: World, c: Cast, result: Id, plan: Id, report: Id, rank: UsageId -> int)
    requires LateReady(w, c, result, [PlanOf(c, plan)], [ReportOf(report, result)])
    ensures Picked(w, c.wu, LatePicks(), rank) && Accepted(w, c.wu, LatePicks())
  {
    assert ResultStamps(w, c.wu) == [Some(Stamp("1", 0))];
    assert PlanStamps(w.plans, c.wu) == [Some(Stamp("", 0))];
    assert ReportStamps(w.reports, result) == [Some(Stamp("", 0))];
  }

  lemma LateReceipted(m: Machine, c: Cast, result: Id, plan: Id, report: Id, rank: UsageId -> int)
    returns (next: Machine)
    requires LateReady(m.world, c, result, [PlanOf(c, plan)], [ReportOf(report, result)])
    ensures next == StepLedger(m, DoReceipt(Call(c.wu, None, None, ""), "", "", LatePicks()), rank)
    ensures var after := next.world;
            && |after.receipts| == 1 && after.receipts[0].payload.result == result
            && after.receipts[0].payload.resultRow.attempt == c.att && after.db.attempts == m.world.db.attempts
  {
    next := StepLedger(m, DoReceipt(Call(c.wu, None, None, ""), "", "", LatePicks()), rank);
    LatePicked(m.world, c, result, plan, report, rank);
    assert forall id, k :: !ReceiptAt(m.world.receipts, id, k);
  }

  /////// A receipt that names the usage of another result

  /** The lease is held and the attempt is the newest: a submit goes through. */
  ghost predicate Ready(c: Cast, token: LeaseToken, db: Db) {
    && c.a in db.assignments && c.wu in db.workUnits && c.att in db.attempts && !Late(db, c.att)
    && var row := db.assignments[c.a];
       row.worker == c.worker && row.tokenHash == Some(TokenHash(token)) && row.attempt == c.att && row.workUnit == c.wu
  }

  function Submitting(c: Cast, token: LeaseToken, id: Id): Step {
    DoSubmit(c.a, c.worker, ByToken(Some(token)), Null, None, id)
  }

  lemma SubmitReady(c: Cast, token: LeaseToken, db: Db, id: Id)
    requires Ready(c, token, db) && !ResultExists(db, id)
    ensures var after := Next(db, Submitting(c, token, id));
            && Ready(c, token, after) && |after.results| == |db.results| + 1
            && after.results[..|db.results|] == db.results
            && var row := after.results[|db.results|];
               row.id == id && row.status == ResultSucceeded && row.workUnit == c.wu && row.assignment == c.a
  {
    var after := Next(db, Submitting(c, token, id));
    assert after.attempts.Keys == db.attempts.Keys;
    assert forall att :: att in db.attempts ==> after.attempts[att].number == db.attempts[att].number
                                                && after.attempts[att].workUnit == db.attempts[att].workUnit;
  }

  function FirstPicks(): Picks { Picks(Some(0), None, Some(0), None, None) }
  function LaterPicks(): Picks { Picks(Some(1), Some(0), Some(0), Some(0), None) }

  /** Lease, first result, plan, usage of the first result, second result, its report. */
  function TwoResults(c: Cast, token: LeaseToken, one: Id, two: Id, plan: Id, report: Id): seq<LedgerStep> {
    Scheds(Leasing(c, token), "") + [Sched(Whole(Submitting(c, token, one)), "1")]
    + [DoPlan(plan, c.wu, Null, "")] + [DoUsage(c.wu, None, "", "", FirstPicks())]
    + [Sched(Whole(Submitting(c, token, two)), "2")] + [DoReport(report, two, V.Accept, "")]
  }

  /** The entry recorded for the first result. */
  function FirstEntry(c: Cast, one: Id): UsageId { UsageId(c.wu, one, None, None) }

  /** What the world is like once the first result has its usage entry. */
  ghost predicate Entered1(w: World, c: Cast, token: LeaseToken, one: Id, plan: Id) {
    && Ready(c, token, w.db) && |w.db.results| == 1 && w.times == ["1"] && w.reports == [] && w.receipts == []
    && w.db.results[0].id == one && w.db.results[0].status == ResultSucceeded && w.db.results[0].workUnit == c.wu
    && w.db.results[0].assignment == c.a
    && w.plans == [PlanRow(plan, c.wu, "", Null)]
    && |w.usage| == 1 && w.usage[0].id == FirstEntry(c, one) && w.usage[0].body.id == FirstEntry(c, one)
  }

  /** One good result at "1", the given plans, nothing else. */
  ghost predicate OneResult(w: World, c: Cast, token: LeaseToken, one: Id, plans: seq<PlanRow>) {
    && Ready(c, token, w.db) && |w.db.results| == 1 && w.times == ["1"] && w.reports == [] && w.receipts == []
    && w.db.results[0].id == one && w.db.results[0].status == ResultSucceeded && w.db.results[0].workUnit == c.wu
    && w.db.results[0].assignment == c.a && w.plans == plans && w.usage == []
  }

  lemma FirstSubmit(m: Machine, c: Cast, token: LeaseToken, one: Id, rank: UsageId -> int)
    returns (next: Machine)
    requires m == Machine(EMPTY_WORLD.(db := m.world.db), [], []) && m.world.db.results == []
    requires Ready(c, token, m.world.db)
    ensures next == StepLedger(m, Sched(Whole(Submitting(c, token, one)), "1"), rank)
    ensures OneResult(next.world, c, token, one, [])
  {
    next := StepLedger(m, Sched(Whole(Submitting(c, token, one)), "1"), rank);
    SubmitReady(c, token, m.world.db, one);
  }

  lemma FirstPlan(m: Machine, c: Cast, token: LeaseToken, one: Id, plan: Id, rank: UsageId -> int)
    returns (next: Machine)
    requires OneResult(m.world, c, token, one, [])
    ensures next == StepLedger(m, DoPlan(plan, c.wu, Null, ""), rank)
    ensures OneResult(next.world, c, token, one, [PlanRow(plan, c.wu, "", Null)])
  {
    next := StepLedger(m, DoPlan(plan, c.wu, Null, ""), rank);
    assert next.world.db == Note(m.world.db, OtherEvent("route_plan.created"));
  }

  lemma FirstUsage(m: Machine, c: Cast, token: LeaseToken, one: Id, plan: Id, rank: UsageId -> int)
    returns (next: Machine)
    requires OneResult(m.world, c, token, one, [PlanRow(plan, c.wu, "", Null)])
    ensures next == StepLedger(m, DoUsage(c.wu, None, "", "", FirstPicks()), rank)
    ensures Entered1(next.world, c, token, one, plan)
  {
    next := StepLedger(m, DoUsage(c.wu, None, "", "", FirstPicks()), rank);
    FirstPicked(m.world, c, plan);
    assert forall k :: !UsageAt(m.world.usage, FirstEntry(c, one), k);
    assert next.world.db == Note(m.world.db, OtherEvent("usage_ledger_entry.recorded"));
  }

  lemma FirstPicked(w: World, c: Cast, plan: Id)
    requires |w.db.results| == 1 && w.times == ["1"] && w.reports == [] && w.plans == [PlanRow(plan, c.wu, "", Null)]
    requires w.db.results[0].workUnit == c.wu && w.db.results[0].status == ResultSucceeded
    ensures ContextPicked(w, c.wu, FirstPicks())
  {
    assert ResultStamps(w, c.wu) == [Some(Stamp("1", 0))];
    assert PlanStamps(w.plans, c.wu) == [Some(Stamp("", 0))];
  }

  lemma SecondPicked(w: World, c: Cast, one: Id, two: Id, plan: Id, report: Id, rank: UsageId -> int)
    requires |w.db.results| == 2 && w.times == ["1", "2"] && w.plans == [PlanRow(plan, c.wu, "", Null)]
    requires w.db.results[0].workUnit == c.wu && w.db.results[0].status == ResultSucceeded
    requires w.db.results[1].workUnit == c.wu && w.db.results[1].status == ResultSucceeded && w.db.results[1].id == two
    requires w.reports == [ReportRow(report, two, "", ReportBody(report, V.Accept))] && w.receipts == []
    requires |w.usage| == 1 && w.usage[0].id == FirstEntry(c, one)
    ensures Picked(w, c.wu, LaterPicks(), rank)
  {
    assert !TextLess("2", "1");
    assert ResultStamps(w, c.wu) == [Some(Stamp("1", 0)), Some(Stamp("2", 0))];
    assert PlanStamps(w.plans, c.wu) == [Some(Stamp("", 0))];
    assert ReportStamps(w.reports, two) == [Some(Stamp("", 0))];
    var stamp := Stamp(w.usage[0].createdAt, rank(w.usage[0].id));
    assert UsageStamps(w.usage, c.wu, rank) == [Some(stamp)];
    Irreflexive(stamp.createdAt);
  }

  /** A work unit whose second result is the accepted one: the receipt for it, asked for without
      naming an entry, names the usage entry of the first. */
  lemma WrongUsageReached(c: Cast, token: LeaseToken, one: Id, two: Id, plan: Id, report: Id, rank: UsageId -> int)
    returns (ms: seq<Machine>)
    requires one != two
    ensures Trace(ms, TwoResults(c, token, one, two, plan, report), rank)
    ensures var w := ms[|ms| - 1].world;
            && Picked(w, c.wu, LaterPicks(), rank)
            && var out := CreateReceipt(w, c.wu, None, None, "", "", "", LaterPicks(), rank);
               out.Receipted? && out.payload.result == two && out.payload.usage.result == one
  {
    LeasingState(c, token);
    ms := SchedsOnly(Leasing(c, token), "", rank);
    assert Ready(c, token, LeasedDb(c, token, "")) && Times(0, "") == [];
    var steps := Scheds(Leasing(c, token), "");
    var submit, save, record := Sched(Whole(Submitting(c, token, one)), "1"), DoPlan(plan, c.wu, Null, ""),
                                DoUsage(c.wu, None, "", "", FirstPicks());
    var m1 := FirstSubmit(ms[|steps|], c, token, one, rank);
    TraceThen(ms, steps, submit, m1, rank);
    var m2 := FirstPlan(m1, c, token, one, plan, rank);
    TraceThen(ms + [m1], steps + [submit], save, m2, rank);
    var m3 := FirstUsage(m2, c, token, one, plan, rank);
    TraceThen(ms + [m1] + [m2], steps + [submit] + [save], record, m3, rank);
    ms := SecondTrace(ms + [m1] + [m2] + [m3], steps + [submit] + [save] + [record],
                      c, token, one, two, plan, report, rank);
  }

  lemma SecondTrace(before: seq<Machine>, steps: seq<LedgerStep>, c: Cast, token: LeaseToken,
                    one: Id, two: Id, plan: Id, report: Id, rank: UsageId -> int)
    returns (ms: seq<Machine>)
    requires Trace(before, steps, rank) && Entered1(before[|steps|].world, c, token, one, plan) && one != two
    ensures Trace(ms,
                  steps + [Sched(Whole(Submitting(c, token, two)), "2")] + [DoReport(report, two, V.Accept, "")],
                  rank)
    ensures var w := ms[|ms| - 1].world;
            && Picked(w, c.wu, LaterPicks(), rank)
            && var out := CreateReceipt(w, c.wu, None, None, "", "", "", LaterPicks(), rank);
               out.Receipted? && out.payload.result == two && out.payload.usage.result == one
  {
    var submit, judge := Sched(Whole(Submitting(c, token, two)), "2"), DoReport(report, two, V.Accept, "");
    var m1 := StepLedger(before[|steps|], submit, rank);
    TraceThen(before, steps, submit, m1, rank);
    var m2 := StepLedger(m1, judge, rank);
    TraceThen(before + [m1], steps + [submit], judge, m2, rank);
    ms := before + [m1] + [m2];
    SecondReceipted(before[|steps|], c, token, one, two, plan, report, rank);
  }

  lemma SecondReceipted(m: Machine, c: Cast, token: LeaseToken, one: Id, two: Id, plan: Id, report: Id,
                        rank: UsageId -> int)
    requires Entered1(m.world, c, token, one, plan) && one != two
    ensures var w2 := StepLedger(StepLedger(m, Sched(Whole(Submitting(c, token, two)), "2"), rank),
                                 DoReport(report, two, V.Accept, ""), rank).world;
            && Picked(w2, c.wu, LaterPicks(), rank)
            && var out := CreateReceipt(w2, c.wu, None, None, "", "", "", LaterPicks(), rank);
               out.Receipted? && out.payload.result == two && out.payload.usage.result == one
  {
    SubmitReady(c, token, m.world.db, two);
    var m1 := StepLedger(m, Sched(Whole(Submitting(c, token, two)), "2"), rank);
    var w1 := m1.world;
    assert w1.times == ["1", "2"] && w1.db.results[0] == m.world.db.results[0];
    assert w1.db.results[1].id == two;
    var w2 := StepLedger(m1, DoReport(report, two, V.Accept, ""), rank).world;
    assert w2.reports == [ReportRow(report, two, "", ReportBody(report, V.Accept))];
    SecondPicked(w2, c, one, two, plan, report, rank);
    assert forall id, k :: !ReceiptAt(w2.receipts, id, k);
  }
}
