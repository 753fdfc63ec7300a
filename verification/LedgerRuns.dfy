// Runs of the whole control plane: scheduler operations, split into read and
// commit where the code reads ahead, and the ledger's own operations, whole or
// split in the same way. create_for_work_unit reads its context, finds or records
// a usage entry, looks for an existing receipt and for the previous one, and only
// then opens the transaction that inserts the receipt.

module LedgerRuns {
  import opened Common
  import opened Scheduler
  import opened StaleReads
  import opened Ledger
  import V = Verifier

  /** A ledger call between two of its reads or commits. */
  datatype Draft =
    | UsageRead(body: UsageBody, receipt: Option<Gathered>)   // the entry to record, for a receipt or on its own
    | ContextRead(call: Call, got: Gathered)
    | EntryFound(got: Gathered, usage: UsageBody)
    | ReceiptReady(got: Gathered, payload: Payload)

  datatype Call = Call(wu: Id, named: Option<UsageId>, account: Option<Id>, routebook: string)

  datatype Machine = Machine(world: World, requests: seq<Request>, drafts: seq<Draft>)

  const FIRST_MACHINE := Machine(EMPTY_WORLD, [], [])

  ghost function StateOf(m: Machine): State { State(m.world.db, m.requests) }

  datatype LedgerStep =
    | Sched(split: Split, now: string)
    | DoReport(id: Id, result: Id, recommendation: V.Recommendation, reportNow: string)
    | DoPlan(plan: Id, wu: Id, body: Json, planNow: string)
    | DoAccount(account: Id)
    | DoUsage(usageWu: Id, usageAccount: Option<Id>, usageRoutebook: string, usageTime: string, usagePicks: Picks)
    | DoReceipt(call: Call, entryTime: string, receiptTime: string, picks: Picks)
    | ReadUsage(usageWu: Id, usageAccount: Option<Id>, usageRoutebook: string, usagePicks: Picks)
    | ReadContext(call: Call, picks: Picks)
    | FindEntry(at: nat, picks: Picks)
    | CommitUsage(at: nat, commitTime: string)
    | FindPrevious(at: nat, pick: Option<nat>)
    | CommitReceipt(at: nat, commitTime: string)

  ghost function Without(drafts: seq<Draft>, at: nat): seq<Draft>
    requires at < |drafts|
  {
    drafts[..at] + drafts[at + 1..]
  }

  /** A draft moves on, or its call has ended. */
  ghost function Become(drafts: seq<Draft>, at: nat, next: Option<Draft>): seq<Draft>
    requires at < |drafts|
  {
    if next.Some? then drafts[at := next.value] else Without(drafts, at)
  }

  ghost predicate CanRecord(w: World, wu: Id, p: Picks) {
    ContextPicked(w, wu, p) && wu in w.db.workUnits && p.result.Some? && p.plan.Some?
  }

  /** _ensure_usage_entry up to the point where it would write. */
  ghost function AfterContext(w: World, call: Call, got: Gathered, p: Picks, rank: UsageId -> int): Option<Draft>
    requires Chosen(UsageStamps(w.usage, call.wu, rank), p.usage)
  {
    if call.named.Some? then
      if HasUsage(w.usage, call.named.value) then
        var k :| UsageAt(w.usage, call.named.value, k);
        Some(EntryFound(got, w.usage[k].body))
      else None
    else if p.usage.Some? && (call.account.None? || w.usage[p.usage.value].body.id.account == call.account) then
      Some(EntryFound(got, w.usage[p.usage.value].body))
    else if CanRecord(w, call.wu, p) then
      Some(UsageRead(UsageBodyFor(w, call.wu, call.account, call.routebook, p), Some(got)))
    else None
  }

  /** The transaction of upsert_entry. */
  ghost function UsageCommitted(w: World, body: UsageBody, now: string): World {
    w.(usage := Upsert(w.usage, body, now), db := Note(w.db, OtherEvent("usage_ledger_entry.recorded")))
  }

  /** The transaction of insert_receipt. */
  ghost function ReceiptCommitted(w: World, payload: Payload, now: string): World {
    w.(receipts := w.receipts + [ReceiptRow(payload, ReceiptHash(payload), now)],
       db := Note(w.db, OtherEvent("audit_receipt.created")))
  }

  ghost predicate AccountKnown(w: World, body: UsageBody) {
    body.id.account.Some? ==> body.id.account.value in w.accounts
  }

  ghost function CommitUsageAt(m: Machine, at: nat, now: string): Machine
    requires at < |m.drafts| && m.drafts[at].UsageRead?
  {
    var d := m.drafts[at];
    if !AccountKnown(m.world, d.body) then m.(drafts := Without(m.drafts, at))
    else
      var next := if d.receipt.Some? then Some(EntryFound(d.receipt.value, d.body)) else None;
      m.(world := UsageCommitted(m.world, d.body, now), drafts := Become(m.drafts, at, next))
  }

  ghost function FindPreviousAt(m: Machine, at: nat, pick: Option<nat>): Machine
    requires at < |m.drafts| && m.drafts[at].EntryFound?
    requires Chosen(ReceiptStamps(m.world.receipts, m.drafts[at].got.row.id), pick)
  {
    var d := m.drafts[at];
    if HasReceipt(m.world.receipts, ReceiptId(d.got.row.id, d.usage.id)) then m.(drafts := Without(m.drafts, at))
    else
      var previous := if pick.None? then None else Some(m.world.receipts[pick.value].hash);
      m.(drafts := m.drafts[at := ReceiptReady(d.got, PayloadFrom(d.got, d.usage, previous))])
  }

  /** A receipt that appeared meanwhile under the same id makes the insert fail. */
  ghost function CommitReceiptAt(m: Machine, at: nat, now: string): Machine
    requires at < |m.drafts| && m.drafts[at].ReceiptReady?
  {
    var d := m.drafts[at];
    if HasReceipt(m.world.receipts, d.payload.id) then m.(drafts := Without(m.drafts, at))
    else m.(world := ReceiptCommitted(m.world, d.payload, now), drafts := Without(m.drafts, at))
  }

  ghost function WholeReceipt(w: World, call: Call, entryTime: string, receiptTime: string, p: Picks,
                              rank: UsageId -> int): World {
    if !Picked(w, call.wu, p, rank) then w
    else CreateReceipt(w, call.wu, call.named, call.account, call.routebook, entryTime, receiptTime, p, rank).world
  }

  ghost function WholeUsage(w: World, wu: Id, account: Option<Id>, routebook: string, now: string, p: Picks): World {
    if !ContextPicked(w, wu, p) then w
    else
      var out := RecordUsage(w, wu, account, routebook, now, p);
      if out.Entered? then out.world else w
  }

  ghost function SchedStep(m: Machine, split: Split, now: string): Machine {
    var w, next := m.world, NextSplit(StateOf(m), split);
    var times := if |next.db.results| > |w.db.results| then w.times + [now] else w.times;
    m.(world := w.(db := next.db, times := times), requests := next.requests)
  }

  ghost function StepLedger(m: Machine, step: LedgerStep, rank: UsageId -> int): Machine {
    var w := m.world;
    match step
    case Sched(split, now) => SchedStep(m, split, now)
    case DoReport(id, result, recommendation, now) => m.(world := SaveReport(w, id, result, recommendation, now))
    case DoPlan(id, wu, body, now) => m.(world := SavePlan(w, id, wu, body, now))
    case DoAccount(account) => m.(world := w.(accounts := w.accounts + {account}))
    case DoUsage(wu, account, routebook, now, p) => m.(world := WholeUsage(w, wu, account, routebook, now, p))
    case DoReceipt(call, entryTime, receiptTime, p) =>
      m.(world := WholeReceipt(w, call, entryTime, receiptTime, p, rank))
    case ReadUsage(wu, account, routebook, p) =>
      if CanRecord(w, wu, p) then
        m.(drafts := m.drafts + [UsageRead(UsageBodyFor(w, wu, account, routebook, p), None)])
      else m
    case ReadContext(call, p) =>
      if ContextPicked(w, call.wu, p) && Accepted(w, call.wu, p) then
        m.(drafts := m.drafts + [ContextRead(call, Gather(w, call.wu, call.routebook, p))])
      else m
    case FindEntry(at, p) =>
      if at < |m.drafts| && m.drafts[at].ContextRead?
         && Chosen(UsageStamps(w.usage, m.drafts[at].call.wu, rank), p.usage) then
        var d := m.drafts[at];
        m.(drafts := Become(m.drafts, at, AfterContext(w, d.call, d.got, p, rank)))
      else m
    case CommitUsage(at, now) =>
      if at < |m.drafts| && m.drafts[at].UsageRead? then CommitUsageAt(m, at, now) else m
    case FindPrevious(at, pick) =>
      if at < |m.drafts| && m.drafts[at].EntryFound?
         && Chosen(ReceiptStamps(w.receipts, m.drafts[at].got.row.id), pick) then
        FindPreviousAt(m, at, pick)
      else m
    case CommitReceipt(at, now) =>
      if at < |m.drafts| && m.drafts[at].ReceiptReady? then CommitReceiptAt(m, at, now) else m
  }

  /////// Runs

  /** Step `n` leads from one machine of the run to the next. */
  ghost predicate Follows(ms: seq<Machine>, steps: seq<LedgerStep>, rank: UsageId -> int, n: int) {
    0 <= n < |steps| && n + 1 < |ms| && ms[n + 1] == StepLedger(ms[n], steps[n], rank)
  }

  /** The machines a run goes through: `ms[n]` is the one before step `n`. */
  ghost predicate Trace(ms: seq<Machine>, steps: seq<LedgerStep>, rank: UsageId -> int) {
    |ms| == |steps| + 1 && ms[0] == FIRST_MACHINE && forall n :: 0 <= n < |steps| ==> Follows(ms, steps, rank, n)
  }

  /** A run goes on. */
  lemma TraceThen(ms: seq<Machine>, steps: seq<LedgerStep>, step: LedgerStep, next: Machine, rank: UsageId -> int)
    requires Trace(ms, steps, rank) && next == StepLedger(ms[|steps|], step, rank)
    ensures Trace(ms + [next], steps + [step], rank)
  {
    forall n | 0 <= n < |steps + [step]| ensures Follows(ms + [next], steps + [step], rank, n) {
      if n < |steps| { FollowsStill(ms, steps, step, next, rank, n); }
    }
  }

  lemma FollowsStill(ms: seq<Machine>, steps: seq<LedgerStep>, step: LedgerStep, next: Machine, rank: UsageId -> int,
                     n: nat)
    requires Trace(ms, steps, rank) && n < |steps|
    ensures Follows(ms + [next], steps + [step], rank, n)
  {
    assert Follows(ms, steps, rank, n);
  }

  /** Every sequence of steps is a run. */
  lemma {:induction false} TraceExists(steps: seq<LedgerStep>, rank: UsageId -> int) returns (ms: seq<Machine>)
    ensures Trace(ms, steps, rank)
  {
    if steps == [] {
      ms := [FIRST_MACHINE];
    } else {
      var init, last := steps[..|steps| - 1], steps[|steps| - 1];
      var before := TraceExists(init, rank);
      ms := before + [StepLedger(before[|init|], last, rank)];
      TraceThen(before, init, last, ms[|steps|], rank);
      assert steps == init + [last];
    }
  }
}
