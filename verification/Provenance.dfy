// Every receipt of every run, traced back: to the context it was built from, to
// the submit of its result, to the accept that issued the token. Reads and
// commits are separate, in the scheduler and in the ledger.

module Provenance {
  import opened Common
  import opened Hashes
  import opened Scheduler
  import opened Integrity
  import opened StaleReads
  import opened StaleResults
  import opened Ledger
  import opened LedgerRuns
  import opened Contexts
  import opened Receipts

  /////// What every draft says

  /** The context a call holds is still true of the tables, as far as they never change. */
  ghost predicate GotSound(db: Db, got: Gathered) {
    && (exists j :: GoodResult(db, got.row.id, got.wu, j) && db.results[j] == got.row)
    && AcceptedRecommendation(got.report.recommendation)
  }

  ghost predicate UsageGood(db: Db, id: UsageId) { exists j :: GoodResult(db, id.result, id.workUnit, j) }

  ghost predicate PreviousKnown(receipts: seq<ReceiptRow>, payload: Payload) {
    payload.previous.Some? ==>
      exists j :: 0 <= j < |receipts| && receipts[j].hash == payload.previous.value
                  && receipts[j].payload.result != payload.result
  }

  ghost predicate DraftSound(w: World, d: Draft) {
    match d
    case UsageRead(body, receipt) => UsageGood(w.db, body.id) && (receipt.Some? ==> GotSound(w.db, receipt.value))
    case ContextRead(_, got) => GotSound(w.db, got)
    case EntryFound(got, usage) => GotSound(w.db, got) && HasUsage(w.usage, usage.id)
    case ReceiptReady(got, payload) =>
      && GotSound(w.db, got) && payload == PayloadFrom(got, payload.usageBody, payload.previous)
      && HasUsage(w.usage, payload.usage) && PreviousKnown(w.receipts, payload)
  }

  ghost predicate MachineInv(m: Machine) {
    && LedgerInv(m.world) && Reached(StateOf(m))
    && (forall i :: 0 <= i < |m.drafts| ==> DraftSound(m.world, m.drafts[i]))
  }

  /** Tables only grow where drafts look. */
  ghost predicate WorldGrows(w: World, after: World) {
    ResultsGrow(w.db, after.db) && UsageGrows(w.usage, after.usage) && w.receipts <= after.receipts
  }

  lemma GotStays(before: Db, after: Db, got: Gathered)
    requires ResultsGrow(before, after) && GotSound(before, got)
    ensures GotSound(after, got)
  {
    var j :| GoodResult(before, got.row.id, got.wu, j) && before.results[j] == got.row;
    GoodStays(before, after, got.row.id, got.wu, j);
  }

  lemma DraftStays(w: World, after: World, d: Draft)
    requires WorldGrows(w, after) && DraftSound(w, d)
    ensures DraftSound(after, d)
  {
    match d
    case UsageRead(body, receipt) =>
      var j :| GoodResult(w.db, body.id.result, body.id.workUnit, j);
      GoodStays(w.db, after.db, body.id.result, body.id.workUnit, j);
      if receipt.Some? { GotStays(w.db, after.db, receipt.value); }
    case ContextRead(_, got) => GotStays(w.db, after.db, got);
    case EntryFound(got, usage) => GotStays(w.db, after.db, got);
    case ReceiptReady(got, payload) =>
      GotStays(w.db, after.db, got);
      if payload.previous.Some? {
        var j :| 0 <= j < |w.receipts| && w.receipts[j].hash == payload.previous.value
                 && w.receipts[j].payload.result != payload.result;
        assert after.receipts[j] == w.receipts[j];
      }
  }

  /** The drafts after a step are old ones or sound ones. */
  lemma DraftsStay(m: Machine, after: Machine)
    requires MachineInv(m) && WorldGrows(m.world, after.world)
    requires forall i :: 0 <= i < |after.drafts| ==>
               after.drafts[i] in m.drafts || DraftSound(after.world, after.drafts[i])
    ensures forall i :: 0 <= i < |after.drafts| ==> DraftSound(after.world, after.drafts[i])
  {
    forall i | 0 <= i < |after.drafts| ensures DraftSound(after.world, after.drafts[i]) {
      if after.drafts[i] in m.drafts { DraftStays(m.world, after.world, after.drafts[i]); }
    }
  }

  /////// One step

  lemma SchedInv(m: Machine, split: Split, now: string)
    requires MachineInv(m)
    ensures MachineInv(SchedStep(m, split, now)) && WorldGrows(m.world, SchedStep(m, split, now).world)
  {
    var after := SchedStep(m, split, now);
    NextReached(StateOf(m), split);
    ReachedInterleaved(StateOf(after));
    DbMoves(m.world, after.world);
    DraftsStay(m, after);
  }

  lemma ReachedInterleaved(s: State)
    requires Reached(s)
    ensures Interleaved(s.db)
  {
    var splits :| s == RunSplit(START, splits);
  }

  /** A step of the ledger tables that leaves the scheduler's tables, the entries and the receipts alone. */
  lemma QuietInv(m: Machine, after: World)
    requires MachineInv(m) && after.usage == m.world.usage && after.receipts == m.world.receipts
    requires after.times == m.world.times
    requires after.db == m.world.db || after.db == Note(m.world.db, OtherEvent("route_plan.created"))
    ensures MachineInv(m.(world := after)) && WorldGrows(m.world, after)
  {
    if after.db != m.world.db {
      NoteReached(StateOf(m), "route_plan.created");
      ReachedInterleaved(State(after.db, m.requests));
    }
    DbMoves(m.world, after);
    DraftsStay(m, m.(world := after));
  }

  /** The ledger noted something: the scheduler's state is still one an interleaving leads to. */
  lemma NotedReached(m: Machine, db: Db)
    requires Reached(StateOf(m)) && OnlyNotes(m.world.db, db)
    ensures Reached(State(db, m.requests))
  {
    if db != m.world.db {
      var one, first :| || db == Note(m.world.db, OtherEvent(one))
                        || db == Note(Note(m.world.db, OtherEvent(first)), OtherEvent(one));
      if db == Note(m.world.db, OtherEvent(one)) {
        NoteReached(StateOf(m), one);
      } else {
        NoteReached(StateOf(m), first);
        NoteReached(State(Note(m.world.db, OtherEvent(first)), m.requests), one);
      }
    }
  }

  /** At most two events more. */
  ghost predicate OnlyNotes(before: Db, after: Db) {
    || after == before
    || exists one, first ::
         after == Note(before, OtherEvent(one)) || after == Note(Note(before, OtherEvent(first)), OtherEvent(one))
  }

  lemma WholeUsageNotes(w: World, wu: Id, account: Option<Id>, routebook: string, now: string, p: Picks)
    requires LedgerInv(w)
    ensures var after := WholeUsage(w, wu, account, routebook, now, p);
            && LedgerInv(after) && OnlyNotes(w.db, after.db) && after.receipts == w.receipts
            && UsageGrows(w.usage, after.usage)
  {
    var after := WholeUsage(w, wu, account, routebook, now, p);
    if ContextPicked(w, wu, p) {
      RecordKeeps(w, wu, account, routebook, now, p);
      var out := RecordUsage(w, wu, account, routebook, now, p);
      if out.Entered? {
        UpsertRows(w.usage, out.body, now);
        assert after.db == Note(w.db, OtherEvent("usage_ledger_entry.recorded"));
      }
    }
  }

  lemma EnsureNotes(w: World, call: Call, now: string, p: Picks, rank: UsageId -> int)
    requires LedgerInv(w) && Picked(w, call.wu, p, rank)
    ensures var out := EnsureUsage(w, call.wu, call.named, call.account, call.routebook, now, p, rank);
            out.Entered? ==>
              && UsageGrows(w.usage, out.world.usage) && out.world.receipts == w.receipts
              && (out.world.db == w.db || out.world.db == Note(w.db, OtherEvent("usage_ledger_entry.recorded")))
  {
    var out := EnsureUsage(w, call.wu, call.named, call.account, call.routebook, now, p, rank);
    if out.Entered? && out.world != w { UpsertRows(w.usage, out.body, now); }
  }

  lemma WholeReceiptNotes(w: World, call: Call, entryTime: string, receiptTime: string, p: Picks, rank: UsageId -> int)
    requires LedgerInv(w)
    ensures var after := WholeReceipt(w, call, entryTime, receiptTime, p, rank);
            && LedgerInv(after) && OnlyNotes(w.db, after.db) && w.receipts <= after.receipts
            && UsageGrows(w.usage, after.usage)
  {
    if Picked(w, call.wu, p, rank) {
      ReceiptKeeps(w, call.wu, call.named, call.account, call.routebook, entryTime, receiptTime, p, rank);
      CreateNotes(w, call, entryTime, receiptTime, p, rank);
    }
  }

  lemma CreateNotes(w: World, call: Call, entryTime: string, receiptTime: string, p: Picks, rank: UsageId -> int)
    requires LedgerInv(w) && Picked(w, call.wu, p, rank)
    ensures var after := WholeReceipt(w, call, entryTime, receiptTime, p, rank);
            OnlyNotes(w.db, after.db) && w.receipts <= after.receipts && UsageGrows(w.usage, after.usage)
  {
    if Accepted(w, call.wu, p) {
      EnsureNotes(w, call, entryTime, p, rank);
      var out := EnsureUsage(w, call.wu, call.named, call.account, call.routebook, entryTime, p, rank);
      var after := WholeReceipt(w, call, entryTime, receiptTime, p, rank);
      if out.Entered? { FinishNotes(w, out.world, call, p, out.body, receiptTime, rank); }
    }
  }

  lemma FinishNotes(w: World, mid: World, call: Call, p: Picks, usage: UsageBody, now: string, rank: UsageId -> int)
    requires LedgerInv(w) && Picked(w, call.wu, p, rank) && Accepted(w, call.wu, p) && mid.receipts == w.receipts
    requires mid.db == w.db || mid.db == Note(w.db, OtherEvent("usage_ledger_entry.recorded"))
    ensures p.previous.Some? ==> p.previous.value < |w.receipts|
    ensures var after := FinishReceipt(w, mid, call.wu, p, usage, call.routebook, now).world;
            OnlyNotes(w.db, after.db) && w.receipts <= after.receipts && after.usage == mid.usage
  {
    if p.previous.Some? { PreviousExists(w, call.wu, p, rank); }
    var after := FinishReceipt(w, mid, call.wu, p, usage, call.routebook, now).world;
    assert after.db == mid.db || after.db == Note(mid.db, OtherEvent("audit_receipt.created"));
  }

  lemma NotesGrow(before: Db, after: Db)
    requires OnlyNotes(before, after)
    ensures ResultsGrow(before, after) && SameTables(before, after)
  {
  }

  lemma WholeInv(m: Machine, after: World)
    requires MachineInv(m) && LedgerInv(after) && OnlyNotes(m.world.db, after.db)
    requires m.world.receipts <= after.receipts && UsageGrows(m.world.usage, after.usage)
    ensures MachineInv(m.(world := after)) && WorldGrows(m.world, after)
  {
    NotesGrow(m.world.db, after.db);
    NotedReached(m, after.db);
    DraftsStay(m, m.(world := after));
  }

  lemma BecomeIn(drafts: seq<Draft>, at: nat, next: Option<Draft>)
    requires at < |drafts|
    ensures forall i :: 0 <= i < |Become(drafts, at, next)| ==>
              Become(drafts, at, next)[i] in drafts || next == Some(Become(drafts, at, next)[i])
  {
  }

  /** Only the drafts move. */
  lemma DraftInv(m: Machine, drafts: seq<Draft>)
    requires MachineInv(m)
    requires forall i :: 0 <= i < |drafts| ==> drafts[i] in m.drafts || DraftSound(m.world, drafts[i])
    ensures MachineInv(m.(drafts := drafts)) && WorldGrows(m.world, m.world)
  {
    DraftsStay(m, m.(drafts := drafts));
  }

  lemma PickedGood(w: World, wu: Id, p: Picks)
    requires LedgerInv(w) && ContextPicked(w, wu, p) && p.result.Some?
    ensures GoodResult(w.db, w.db.results[p.result.value].id, wu, p.result.value)
  {
    PickedIsGood(w, wu, p);
  }

  lemma ReadInv(m: Machine, step: LedgerStep, rank: UsageId -> int)
    requires MachineInv(m) && (step.ReadUsage? || step.ReadContext?)
    ensures MachineInv(StepLedger(m, step, rank)) && WorldGrows(m.world, StepLedger(m, step, rank).world)
  {
    var w, after := m.world, StepLedger(m, step, rank);
    if step.ReadUsage? && CanRecord(w, step.usageWu, step.usagePicks) { PickedGood(w, step.usageWu, step.usagePicks); }
    if step.ReadContext? && ContextPicked(w, step.call.wu, step.picks) && Accepted(w, step.call.wu, step.picks) {
      PickedGood(w, step.call.wu, step.picks);
    }
    DraftInv(m, after.drafts);
  }

  lemma AfterContextSound(w: World, call: Call, got: Gathered, p: Picks, rank: UsageId -> int)
    requires LedgerInv(w) && GotSound(w.db, got) && Chosen(UsageStamps(w.usage, call.wu, rank), p.usage)
    ensures var next := AfterContext(w, call, got, p, rank); next.Some? ==> DraftSound(w, next.value)
  {
    if call.named.Some? {
      forall k | UsageAt(w.usage, call.named.value, k) ensures w.usage[k].body.id == call.named.value {
        assert UsageSound(w.db, w.usage[k]);
      }
    } else if p.usage.Some? && (call.account.None? || w.usage[p.usage.value].body.id.account == call.account) {
      var row := w.usage[p.usage.value];
      assert UsageSound(w.db, row) && UsageAt(w.usage, row.body.id, p.usage.value);
    } else if CanRecord(w, call.wu, p) {
      PickedGood(w, call.wu, p);
    }
  }

  lemma FindEntryInv(m: Machine, at: nat, p: Picks, rank: UsageId -> int)
    requires MachineInv(m) && at < |m.drafts| && m.drafts[at].ContextRead?
    requires Chosen(UsageStamps(m.world.usage, m.drafts[at].call.wu, rank), p.usage)
    ensures MachineInv(StepLedger(m, FindEntry(at, p), rank))
  {
    var d := m.drafts[at];
    assert DraftSound(m.world, d);
    AfterContextSound(m.world, d.call, d.got, p, rank);
    BecomeIn(m.drafts, at, AfterContext(m.world, d.call, d.got, p, rank));
    DraftInv(m, Become(m.drafts, at, AfterContext(m.world, d.call, d.got, p, rank)));
  }

  lemma UsageCommittedInv(w: World, body: UsageBody, now: string)
    requires LedgerInv(w) && UsageGood(w.db, body.id)
    ensures var after := UsageCommitted(w, body, now);
            && LedgerInv(after) && OnlyNotes(w.db, after.db)
            && UsageGrows(w.usage, after.usage) && HasUsage(after.usage, body.id)
  {
    var after := UsageCommitted(w, body, now);
    NoteInterleaved(w.db, "usage_ledger_entry.recorded");
    UpsertRows(w.usage, body, now);
    forall k | 0 <= k < |after.usage| ensures UsageSound(after.db, after.usage[k]) {
      if after.usage[k].id == body.id {
        var j :| GoodResult(w.db, body.id.result, body.id.workUnit, j);
        assert GoodResult(after.db, body.id.result, body.id.workUnit, j);
      } else {
        UsageStays(w.db, after.db, after.usage[k]);
      }
    }
    forall i | 0 <= i < |after.receipts| ensures ReceiptSound(after.db, after.usage, after.receipts[i]) {
      ReceiptStays(w.db, after.db, w.usage, after.usage, w.receipts[i]);
    }
  }

  lemma CommitUsageInv(m: Machine, at: nat, now: string)
    requires MachineInv(m) && at < |m.drafts| && m.drafts[at].UsageRead?
    ensures MachineInv(CommitUsageAt(m, at, now)) && WorldGrows(m.world, CommitUsageAt(m, at, now).world)
  {
    var d, after := m.drafts[at], CommitUsageAt(m, at, now);
    assert DraftSound(m.world, d);
    if AccountKnown(m.world, d.body) {
      UsageCommittedInv(m.world, d.body, now);
      WholeInv(m, after.world);
      var next := if d.receipt.Some? then Some(EntryFound(d.receipt.value, d.body)) else None;
      if d.receipt.Some? { GotStays(m.world.db, after.world.db, d.receipt.value); }
      BecomeIn(m.drafts, at, next);
      DraftsStay(m, after);
    } else {
      BecomeIn(m.drafts, at, None);
      DraftInv(m, Without(m.drafts, at));
    }
  }

  lemma FindPreviousInv(m: Machine, at: nat, pick: Option<nat>)
    requires MachineInv(m) && at < |m.drafts| && m.drafts[at].EntryFound?
    requires Chosen(ReceiptStamps(m.world.receipts, m.drafts[at].got.row.id), pick)
    ensures MachineInv(FindPreviousAt(m, at, pick)) && FindPreviousAt(m, at, pick).world == m.world
  {
    var d, after := m.drafts[at], FindPreviousAt(m, at, pick);
    assert DraftSound(m.world, d);
    if pick.Some? { assert ReceiptStamps(m.world.receipts, d.got.row.id)[pick.value].Some?; }
    BecomeIn(m.drafts, at, None);
    DraftInv(m, after.drafts);
  }

  lemma ReceiptCommittedInv(w: World, d: Draft, now: string)
    requires LedgerInv(w) && d.ReceiptReady? && DraftSound(w, d) && !HasReceipt(w.receipts, d.payload.id)
    ensures var after := ReceiptCommitted(w, d.payload, now);
            LedgerInv(after) && OnlyNotes(w.db, after.db) && w.receipts <= after.receipts && after.usage == w.usage
  {
    var after := ReceiptCommitted(w, d.payload, now);
    NoteInterleaved(w.db, "audit_receipt.created");
    ReadySound(w, after.db, d, now);
    AppendReceipt(w, after, ReceiptRow(d.payload, ReceiptHash(d.payload), now));
  }

  lemma CommitReceiptInv(m: Machine, at: nat, now: string)
    requires MachineInv(m) && at < |m.drafts| && m.drafts[at].ReceiptReady?
    ensures MachineInv(CommitReceiptAt(m, at, now)) && WorldGrows(m.world, CommitReceiptAt(m, at, now).world)
  {
    var d, after := m.drafts[at], CommitReceiptAt(m, at, now);
    assert DraftSound(m.world, d);
    BecomeIn(m.drafts, at, None);
    if HasReceipt(m.world.receipts, d.payload.id) {
      DraftInv(m, after.drafts);
    } else {
      ReceiptCommittedInv(m.world, d, now);
      WholeInv(m, after.world);
      DraftsStay(m, after);
    }
  }

  lemma ReadySound(w: World, db: Db, d: Draft, now: string)
    requires d.ReceiptReady? && DraftSound(w, d) && db == Note(w.db, OtherEvent("audit_receipt.created"))
    ensures ReceiptSound(db, w.usage, ReceiptRow(d.payload, ReceiptHash(d.payload), now))
  {
    var j :| GoodResult(w.db, d.got.row.id, d.got.wu, j) && w.db.results[j] == d.got.row;
    assert ResultNamed(db, d.payload, j);
  }

  lemma StepInv(m: Machine, step: LedgerStep, rank: UsageId -> int)
    requires MachineInv(m)
    ensures MachineInv(StepLedger(m, step, rank)) && WorldGrows(m.world, StepLedger(m, step, rank).world)
  {
    match step
    case Sched(split, now) => SchedInv(m, split, now);
    case DoReport(id, result, recommendation, now) => QuietInv(m, SaveReport(m.world, id, result, recommendation, now));
    case DoPlan(id, wu, body, now) => QuietInv(m, SavePlan(m.world, id, wu, body, now));
    case DoAccount(account) => QuietInv(m, m.world.(accounts := m.world.accounts + {account}));
    case DoUsage(wu, account, routebook, now, p) =>
      WholeUsageNotes(m.world, wu, account, routebook, now, p);
      WholeInv(m, WholeUsage(m.world, wu, account, routebook, now, p));
    case DoReceipt(call, entryTime, receiptTime, p) =>
      WholeReceiptNotes(m.world, call, entryTime, receiptTime, p, rank);
      WholeInv(m, WholeReceipt(m.world, call, entryTime, receiptTime, p, rank));
    case _ => DraftStepInv(m, step, rank);
  }

  lemma DraftStepInv(m: Machine, step: LedgerStep, rank: UsageId -> int)
    requires MachineInv(m)
    requires || step.ReadUsage? || step.ReadContext? || step.FindEntry?
             || step.CommitUsage? || step.FindPrevious? || step.CommitReceipt?
    ensures MachineInv(StepLedger(m, step, rank)) && WorldGrows(m.world, StepLedger(m, step, rank).world)
  {
    if step.ReadUsage? || step.ReadContext? {
      ReadInv(m, step, rank);
    } else if step.FindEntry? || step.FindPrevious? {
      FindInv(m, step, rank);
    } else {
      CommitInv(m, step, rank);
    }
  }

  lemma FindInv(m: Machine, step: LedgerStep, rank: UsageId -> int)
    requires MachineInv(m) && (step.FindEntry? || step.FindPrevious?)
    ensures MachineInv(StepLedger(m, step, rank)) && StepLedger(m, step, rank).world == m.world
  {
    if step.at < |m.drafts| {
      var d := m.drafts[step.at];
      if step.FindEntry? {
        if d.ContextRead? && Chosen(UsageStamps(m.world.usage, d.call.wu, rank), step.picks.usage) {
          FindEntryInv(m, step.at, step.picks, rank);
        }
      } else if d.EntryFound? && Chosen(ReceiptStamps(m.world.receipts, d.got.row.id), step.pick) {
        FindPreviousInv(m, step.at, step.pick);
      }
    }
  }

  lemma CommitInv(m: Machine, step: LedgerStep, rank: UsageId -> int)
    requires MachineInv(m) && (step.CommitUsage? || step.CommitReceipt?)
    ensures MachineInv(StepLedger(m, step, rank)) && WorldGrows(m.world, StepLedger(m, step, rank).world)
  {
    if step.at < |m.drafts| {
      if step.CommitUsage? && m.drafts[step.at].UsageRead? { CommitUsageInv(m, step.at, step.commitTime); }
      if step.CommitReceipt? && m.drafts[step.at].ReceiptReady? { CommitReceiptInv(m, step.at, step.commitTime); }
    }
  }

  /////// Whole runs, step by step

  lemma FirstInv()
    ensures MachineInv(FIRST_MACHINE)
  {
    assert START == RunSplit(START, []);
    ReachedInterleaved(START);
  }

  lemma {:induction false} TraceInv(ms: seq<Machine>, steps: seq<LedgerStep>, rank: UsageId -> int, n: nat)
    requires Trace(ms, steps, rank) && n <= |steps|
    ensures MachineInv(ms[n])
  {
    if n == 0 {
      FirstInv();
    } else {
      TraceInv(ms, steps, rank, n - 1);
      assert Follows(ms, steps, rank, n - 1);
      StepInv(ms[n - 1], steps[n - 1], rank);
    }
  }

  /** Every machine of a run is one an interleaving leads to, and a step only adds results and receipts. */
  lemma OneStep(ms: seq<Machine>, steps: seq<LedgerStep>, rank: UsageId -> int, n: nat)
    requires Trace(ms, steps, rank) && n < |steps|
    ensures Reached(StateOf(ms[n])) && ResultsGrow(ms[n].world.db, ms[n + 1].world.db)
    ensures ms[n].world.receipts <= ms[n + 1].world.receipts
  {
    TraceInv(ms, steps, rank, n);
    assert Follows(ms, steps, rank, n);
    StepInv(ms[n], steps[n], rank);
  }

  lemma OtherStep(ms: seq<Machine>, steps: seq<LedgerStep>, rank: UsageId -> int, n: nat)
    requires Trace(ms, steps, rank) && n < |steps| && !steps[n].Sched?
    ensures SameTables(ms[n].world.db, ms[n + 1].world.db) && ms[n + 1].requests == ms[n].requests
  {
    TraceInv(ms, steps, rank, n);
    assert Follows(ms, steps, rank, n);
    LedgerLeavesTables(ms[n], steps[n], rank);
  }

  lemma SchedulerStep(ms: seq<Machine>, steps: seq<LedgerStep>, rank: UsageId -> int, n: nat)
    requires Trace(ms, steps, rank) && n < |steps| && steps[n].Sched?
    ensures StateOf(ms[n + 1]) == NextSplit(StateOf(ms[n]), steps[n].split)
  {
    assert Follows(ms, steps, rank, n);
  }

  /** A step of the ledger leaves the scheduler's tables and requests alone. */
  lemma LedgerLeavesTables(m: Machine, step: LedgerStep, rank: UsageId -> int)
    requires MachineInv(m) && !step.Sched?
    ensures var after := StepLedger(m, step, rank);
            SameTables(m.world.db, after.world.db) && after.requests == m.requests
  {
    match step
    case DoUsage(wu, account, routebook, now, p) =>
      WholeUsageNotes(m.world, wu, account, routebook, now, p);
      NotesGrow(m.world.db, WholeUsage(m.world, wu, account, routebook, now, p).db);
    case DoReceipt(call, entryTime, receiptTime, p) =>
      WholeReceiptNotes(m.world, call, entryTime, receiptTime, p, rank);
      NotesGrow(m.world.db, WholeReceipt(m.world, call, entryTime, receiptTime, p, rank).db);
    case _ => PlainLeavesTables(m, step, rank);
  }

  lemma PlainLeavesTables(m: Machine, step: LedgerStep, rank: UsageId -> int)
    requires !step.Sched? && !step.DoUsage? && !step.DoReceipt?
    ensures var after := StepLedger(m, step, rank);
            SameTables(m.world.db, after.world.db) && after.requests == m.requests
  {
    if step.CommitUsage? || step.CommitReceipt? {
      CommitLeavesTables(m, step, rank);
    } else if step.DoReport? || step.DoPlan? || step.DoAccount? {
      SaveLeavesTables(m, step, rank);
    } else {
      ReadLeavesTables(m, step, rank);
    }
  }

  lemma CommitLeavesTables(m: Machine, step: LedgerStep, rank: UsageId -> int)
    requires step.CommitUsage? || step.CommitReceipt?
    ensures var after := StepLedger(m, step, rank);
            SameTables(m.world.db, after.world.db) && after.requests == m.requests
  {
  }

  lemma SaveLeavesTables(m: Machine, step: LedgerStep, rank: UsageId -> int)
    requires step.DoReport? || step.DoPlan? || step.DoAccount?
    ensures var after := StepLedger(m, step, rank);
            SameTables(m.world.db, after.world.db) && after.requests == m.requests
  {
  }

  lemma ReadLeavesTables(m: Machine, step: LedgerStep, rank: UsageId -> int)
    requires step.ReadUsage? || step.ReadContext? || step.FindEntry? || step.FindPrevious?
    ensures StepLedger(m, step, rank).world == m.world && StepLedger(m, step, rank).requests == m.requests
  {
  }

  /////// Where a result came from

  /** Step `t` read what became request `r`, or is the whole submit with that read. */
  ghost predicate ReadAt(ms: seq<Machine>, steps: seq<LedgerStep>, r: Request, t: int) {
    && 0 <= t < |steps| && t < |ms| && steps[t].Sched? && AsRead(steps[t].split).ReadSubmit?
    && Reading(ms[t].world.db, AsRead(steps[t].split)) == Some(r)
  }

  /** Step `s` stored result `k`. */
  ghost predicate StoredAt(ms: seq<Machine>, k: int, s: int) {
    0 <= s && s + 1 < |ms| && k == |ms[s].world.db.results| < |ms[s + 1].world.db.results|
  }

  /** A submit that is open before step `n` was read by an earlier step. */
  lemma {:induction false} RequestOrigin(ms: seq<Machine>, steps: seq<LedgerStep>, rank: UsageId -> int,
                                         n: nat, r: Request)
    returns (t: int)
    requires Trace(ms, steps, rank) && n <= |steps| && r in ms[n].requests && r.SubmitRequest?
    ensures t < n && ReadAt(ms, steps, r, t)
  {
    if r in ms[n - 1].requests {
      t := RequestOrigin(ms, steps, rank, n - 1, r);
    } else if steps[n - 1].Sched? {
      SchedulerStep(ms, steps, rank, n - 1);
      NewRequest(StateOf(ms[n - 1]), steps[n - 1].split, r);
      t := n - 1;
    } else {
      OtherStep(ms, steps, rank, n - 1);
    }
  }

  lemma NewRequest(s: State, split: Split, r: Request)
    requires r in NextSplit(s, split).requests && r !in s.requests && r.SubmitRequest?
    ensures split.ReadSubmit? && AsRead(split) == split && Reading(s.db, split) == Some(r)
  {
  }

  /** Every row stored before step `n` was settled when its submit read, from what was sent, and then
      stored as it was. */
  lemma {:induction false} ResultOrigin(ms: seq<Machine>, steps: seq<LedgerStep>, rank: UsageId -> int, n: nat, k: int)
    returns (r: Request, t: int, s: int)
    requires Trace(ms, steps, rank) && n <= |steps| && 0 <= k < |ms[n].world.db.results|
    ensures r.SubmitRequest? && r.result == ms[n].world.db.results[k]
    ensures 0 <= t < |steps| && steps[t].Sched? && Sent(ms[t].world.db, AsRead(steps[t].split), r.result)
    ensures t <= s < n && ReadAt(ms, steps, r, t) && StoredAt(ms, k, s) && (t == s || r in ms[s].requests)
  {
    OneStep(ms, steps, rank, n - 1);
    if k < |ms[n - 1].world.db.results| {
      r, t, s := ResultOrigin(ms, steps, rank, n - 1, k);
    } else {
      r, t := StoreStep(ms, steps, rank, n - 1);
      ReadSent(ms[t].world.db, AsRead(steps[t].split));
      s := n - 1;
    }
  }

  /** A step that stores a row stores that of a submit read by then. */
  lemma StoreStep(ms: seq<Machine>, steps: seq<LedgerStep>, rank: UsageId -> int, n: nat) returns (r: Request, t: int)
    requires Trace(ms, steps, rank) && n < |steps| && |ms[n + 1].world.db.results| > |ms[n].world.db.results|
    ensures r.SubmitRequest? && ms[n + 1].world.db.results == ms[n].world.db.results + [r.result]
    ensures t <= n && ReadAt(ms, steps, r, t) && (t == n || r in ms[n].requests)
  {
    OneStep(ms, steps, rank, n);
    if !steps[n].Sched? { OtherStep(ms, steps, rank, n); }
    SchedulerStep(ms, steps, rank, n);
    NextReached(StateOf(ms[n]), steps[n].split);
    r := Source(StateOf(ms[n]), steps[n].split).value;
    if steps[n].split.Whole? { t := n; } else { t := RequestOrigin(ms, steps, rank, n, r); }
  }

  /////// Where a token came from

  /** Step `u` was the accept that issued the token with this hash for the assignment. */
  ghost predicate IssuedBy(ms: seq<Machine>, steps: seq<LedgerStep>, a: Id, hash: TokenHash, u: int) {
    0 <= u < |steps| && u < |ms| && steps[u].Sched? && Issues(StateOf(ms[u]), steps[u].split, a, hash)
  }

  ghost predicate TokenIs(db: Db, a: Id, hash: TokenHash) {
    a in db.assignments && db.assignments[a].tokenHash == Some(hash)
  }

  lemma {:induction false} TokenOrigin(ms: seq<Machine>, steps: seq<LedgerStep>, rank: UsageId -> int,
                                       n: nat, a: Id, hash: TokenHash)
    returns (u: int)
    requires Trace(ms, steps, rank) && n <= |steps| && TokenIs(ms[n].world.db, a, hash)
    ensures u < n && IssuedBy(ms, steps, a, hash, u)
  {
    if TokenIs(ms[n - 1].world.db, a, hash) {
      u := TokenOrigin(ms, steps, rank, n - 1, a, hash);
    } else if steps[n - 1].Sched? {
      SchedulerStep(ms, steps, rank, n - 1);
      SplitTokens(StateOf(ms[n - 1]), steps[n - 1].split, a);
      u := n - 1;
    } else {
      OtherStep(ms, steps, rank, n - 1);
    }
  }

  /////// Where a receipt came from

  /** The context a step reads, if it does. */
  ghost function ContextIn(w: World, step: LedgerStep): Option<Gathered> {
    if (step.ReadContext? || step.DoReceipt?)
       && ContextPicked(w, step.call.wu, step.picks) && Accepted(w, step.call.wu, step.picks) then
      Some(Gather(w, step.call.wu, step.call.routebook, step.picks))
    else None
  }

  /** Step `c` gathered this context: the latest succeeded result of the work unit, and the latest
      report on it, which recommends acceptance. */
  ghost predicate ContextAt(ms: seq<Machine>, steps: seq<LedgerStep>, got: Gathered, c: int) {
    0 <= c < |steps| && c < |ms| && ContextIn(ms[c].world, steps[c]) == Some(got)
  }

  function GotOf(d: Draft): Option<Gathered> {
    match d
    case UsageRead(_, receipt) => receipt
    case ContextRead(_, got) => Some(got)
    case EntryFound(got, _) => Some(got)
    case ReceiptReady(got, _) => Some(got)
  }

  /** The context of a draft after a step is that of a draft before it, or was just read. */
  lemma DraftsCarry(m: Machine, step: LedgerStep, rank: UsageId -> int, d: Draft)
    requires d in StepLedger(m, step, rank).drafts && GotOf(d).Some?
    ensures || (exists e :: e in m.drafts && GotOf(e) == GotOf(d))
            || ContextIn(m.world, step) == GotOf(d)
  {
    if d in m.drafts {
    } else if && (step.FindEntry? || step.CommitUsage? || step.FindPrevious? || step.CommitReceipt?)
              && step.at < |m.drafts| {
      var e := m.drafts[step.at];
      assert e in m.drafts && GotOf(e) == GotOf(d);
    }
  }

  lemma {:induction false} DraftOrigin(ms: seq<Machine>, steps: seq<LedgerStep>, rank: UsageId -> int, n: nat, d: Draft)
    returns (c: int)
    requires Trace(ms, steps, rank) && n <= |steps| && d in ms[n].drafts && GotOf(d).Some?
    ensures c < n && ContextAt(ms, steps, GotOf(d).value, c)
  {
    assert Follows(ms, steps, rank, n - 1);
    DraftsCarry(ms[n - 1], steps[n - 1], rank, d);
    if ContextIn(ms[n - 1].world, steps[n - 1]) == GotOf(d) {
      c := n - 1;
    } else {
      var e :| e in ms[n - 1].drafts && GotOf(e) == GotOf(d);
      c := DraftOrigin(ms, steps, rank, n - 1, e);
    }
  }

  /** The receipt is built from this context. */
  ghost predicate BuiltFrom(p: Payload, got: Gathered) { p == PayloadFrom(got, p.usageBody, p.previous) }

  /** Step `d` inserted receipt `i`. */
  ghost predicate InsertedAt(ms: seq<Machine>, i: int, d: int) {
    0 <= d && d + 1 < |ms| && i == |ms[d].world.receipts| < |ms[d + 1].world.receipts|
  }

  /** The receipt links to the latest one of another result, if there is any. */
  ghost predicate LinkedIn(receipts: seq<ReceiptRow>, payload: Payload) {
    match payload.previous
    case None => forall j :: !ReceiptOfOther(receipts, payload.result, j)
    case Some(hash) => exists j :: LatestOther(receipts, payload.result, j) && receipts[j].hash == hash
  }

  /** Step `f` looked for the receipt to link to. */
  ghost predicate LinkAt(ms: seq<Machine>, steps: seq<LedgerStep>, payload: Payload, f: int) {
    && 0 <= f < |steps| && f < |ms| && (steps[f].FindPrevious? || steps[f].DoReceipt?)
    && LinkedIn(ms[f].world.receipts, payload)
  }

  /** A receipt ready to be inserted got its link from an earlier step, which found its entry there. */
  lemma {:induction false} LinkOrigin(ms: seq<Machine>, steps: seq<LedgerStep>, rank: UsageId -> int, n: nat, d: Draft)
    returns (f: int, e: Draft)
    requires Trace(ms, steps, rank) && n <= |steps| && d in ms[n].drafts && d.ReceiptReady?
    ensures f < n && LinkAt(ms, steps, d.payload, f) && e in ms[f].drafts && GotOf(e) == GotOf(d)
  {
    assert Follows(ms, steps, rank, n - 1);
    if d in ms[n - 1].drafts {
      f, e := LinkOrigin(ms, steps, rank, n - 1, d);
    } else {
      e := NewLink(ms[n - 1], steps[n - 1], rank, d);
      f := n - 1;
    }
  }

  lemma NewLink(m: Machine, step: LedgerStep, rank: UsageId -> int, d: Draft) returns (e: Draft)
    requires d in StepLedger(m, step, rank).drafts && d !in m.drafts && d.ReceiptReady?
    ensures step.FindPrevious? && LinkedIn(m.world.receipts, d.payload)
    ensures e in m.drafts && GotOf(e) == GotOf(d)
  {
    OnlyLinksReady(m, step, rank, d);
    e := m.drafts[step.at];
    ReceiptsChosen(m.world.receipts, e.got.row.id, step.pick);
  }

  lemma OnlyLinksReady(m: Machine, step: LedgerStep, rank: UsageId -> int, d: Draft)
    requires d in StepLedger(m, step, rank).drafts && d !in m.drafts && d.ReceiptReady?
    ensures step.FindPrevious? && step.at < |m.drafts| && m.drafts[step.at].EntryFound?
    ensures Chosen(ReceiptStamps(m.world.receipts, m.drafts[step.at].got.row.id), step.pick)
    ensures d in FindPreviousAt(m, step.at, step.pick).drafts
  {
  }

  /** A new receipt is built from a context just read, or is the one a draft holds ready. */
  lemma NewReceipt(m: Machine, step: LedgerStep, rank: UsageId -> int)
    requires MachineInv(m) && |StepLedger(m, step, rank).world.receipts| > |m.world.receipts|
    ensures |StepLedger(m, step, rank).world.receipts| == |m.world.receipts| + 1
    ensures var payload := StepLedger(m, step, rank).world.receipts[|m.world.receipts|].payload;
            if step.DoReceipt?
            then ContextIn(m.world, step).Some? && BuiltFrom(payload, ContextIn(m.world, step).value)
                 && LinkedIn(m.world.receipts, payload)
            else exists d :: d in m.drafts && d.ReceiptReady? && d.payload == payload && BuiltFrom(payload, d.got)
  {
    var w := m.world;
    if step.DoReceipt? {
      NewWholeReceipt(w, step.call, step.entryTime, step.receiptTime, step.picks, rank);
    } else {
      if !step.CommitReceipt? { OnlyReceiptsAppend(m, step, rank); }
      var d := m.drafts[step.at];
      assert DraftSound(w, d) && d in m.drafts;
    }
  }

  lemma OnlyReceiptsAppend(m: Machine, step: LedgerStep, rank: UsageId -> int)
    requires MachineInv(m) && !step.DoReceipt? && !step.CommitReceipt?
    ensures StepLedger(m, step, rank).world.receipts == m.world.receipts
  {
    if step.DoUsage? {
      WholeUsageNotes(m.world, step.usageWu, step.usageAccount, step.usageRoutebook, step.usageTime, step.usagePicks);
    }
  }

  lemma NewWholeReceipt(w: World, call: Call, entryTime: string, receiptTime: string, p: Picks, rank: UsageId -> int)
    requires LedgerInv(w) && |WholeReceipt(w, call, entryTime, receiptTime, p, rank).receipts| > |w.receipts|
    ensures ContextPicked(w, call.wu, p) && Accepted(w, call.wu, p)
    ensures var after := WholeReceipt(w, call, entryTime, receiptTime, p, rank);
            && |after.receipts| == |w.receipts| + 1
            && BuiltFrom(after.receipts[|w.receipts|].payload, Gather(w, call.wu, call.routebook, p))
            && LinkedIn(w.receipts, after.receipts[|w.receipts|].payload)
  {
    EnsureNotes(w, call, entryTime, p, rank);
    PicksExactly(w, call.wu, p, rank);
    CreateExactly(w, call.wu, call.named, call.account, call.routebook, entryTime, receiptTime, p, rank);
  }

  /** A step that inserts a receipt does so from a context read by then, and from a link found since. */
  lemma ReceiptStep(ms: seq<Machine>, steps: seq<LedgerStep>, rank: UsageId -> int, n: nat)
    returns (got: Gathered, c: int, f: int)
    requires Trace(ms, steps, rank) && n < |steps| && |ms[n + 1].world.receipts| > |ms[n].world.receipts|
    ensures |ms[n + 1].world.receipts| == |ms[n].world.receipts| + 1
    ensures var payload := ms[n + 1].world.receipts[|ms[n].world.receipts|].payload;
            BuiltFrom(payload, got) && LinkAt(ms, steps, payload, f)
    ensures c <= f <= n && ContextAt(ms, steps, got, c)
  {
    TraceInv(ms, steps, rank, n);
    assert Follows(ms, steps, rank, n);
    NewReceipt(ms[n], steps[n], rank);
    if steps[n].DoReceipt? {
      got, c, f := ContextIn(ms[n].world, steps[n]).value, n, n;
    } else {
      var payload := ms[n + 1].world.receipts[|ms[n].world.receipts|].payload;
      var d :| d in ms[n].drafts && d.ReceiptReady? && d.payload == payload && BuiltFrom(payload, d.got);
      var e;
      f, e := LinkOrigin(ms, steps, rank, n, d);
      c := DraftOrigin(ms, steps, rank, f, e);
      got := d.got;
    }
  }

  lemma {:induction false} ReceiptOrigin(ms: seq<Machine>, steps: seq<LedgerStep>, rank: UsageId -> int, n: nat, i: int)
    returns (got: Gathered, c: int, f: int, d: int)
    requires Trace(ms, steps, rank) && n <= |steps| && 0 <= i < |ms[n].world.receipts|
    ensures BuiltFrom(ms[n].world.receipts[i].payload, got) && LinkAt(ms, steps, ms[n].world.receipts[i].payload, f)
    ensures c <= f <= d < n && ContextAt(ms, steps, got, c) && InsertedAt(ms, i, d)
  {
    OneStep(ms, steps, rank, n - 1);
    if i < |ms[n - 1].world.receipts| {
      got, c, f, d := ReceiptOrigin(ms, steps, rank, n - 1, i);
    } else {
      got, c, f := ReceiptStep(ms, steps, rank, n - 1);
      d := n - 1;
    }
  }

  /////// Everything a receipt vouches for

  /** Results only grow from one step to a later one. */
  lemma {:induction false} ResultsKept(ms: seq<Machine>, steps: seq<LedgerStep>, rank: UsageId -> int, t: nat, n: nat)
    requires Trace(ms, steps, rank) && t <= n <= |steps|
    ensures ResultsGrow(ms[t].world.db, ms[n].world.db)
    decreases n
  {
    if t < n {
      ResultsKept(ms, steps, rank, t, n - 1);
      OneStep(ms, steps, rank, n - 1);
      ResultsGrowTransitive(ms[t].world.db, ms[n - 1].world.db, ms[n].world.db);
    }
  }

  lemma ResultsGrowTransitive(a: Db, b: Db, c: Db)
    requires ResultsGrow(a, b) && ResultsGrow(b, c)
    ensures ResultsGrow(a, c)
  {
    forall k | 0 <= k < |a.results| ensures a.results[k].id in c.quarantine <==> a.results[k].id in a.quarantine {
      assert b.results[k] == a.results[k];
    }
  }

  /** What the submit of a row had before it when it read: the lease of its own assignment, under
      this token, and the newest attempt of the work unit. */
  ghost predicate CurrentWhenRead(db: Db, read: Split, row: ResultRow, hash: TokenHash) {
    && read.ReadSubmit? && read.a == row.assignment && TokenIs(db, read.a, hash)
    && db.assignments[read.a].worker == read.worker && CredentialMatches(Some(hash), read.cred)
    && row.attempt in db.attempts && !Late(db, row.attempt)
  }

  /** At the commit the attempt is late exactly when a newer one was created since the read. */
  ghost predicate LateIfOvertaken(read: Db, commit: Db, att: Id) {
    && att in commit.attempts
    && (Late(commit, att) <==> exists newer :: newer !in read.attempts && NewerThan(commit.attempts, newer, att))
  }

  lemma Overtaken(m: Machine, r: Request, read: Db)
    requires Reached(StateOf(m)) && r in m.requests && r.SubmitRequest? && !r.late && r.seen == read.attempts.Keys
    ensures LateIfOvertaken(read, m.world.db, r.result.attempt)
  {
    var splits :| StateOf(m) == RunSplit(START, splits);
    var at :| 0 <= at < |m.requests| && m.requests[at] == r;
    FenceBreaksExactly(splits, at);
  }

  /** Step `c` read, for the receipt's work unit and routebook, the rows the receipt is made from. */
  ghost predicate MadeAt(ms: seq<Machine>, steps: seq<LedgerStep>, payload: Payload, c: int) {
    && 0 <= c < |steps| && c < |ms| && (steps[c].ReadContext? || steps[c].DoReceipt?)
    && steps[c].call.wu == payload.workUnit && steps[c].call.routebook == payload.routebook
    && exists k, r, q :: MadeFrom(ms[c].world, payload, k, r, q)
  }

  /** The steps behind receipt `i` and its result `k`: accept `u`, read and commit of the submit
      `t` and `s`, context `c`, link `f`, insert `d`. */
  ghost predicate Vouched(ms: seq<Machine>, steps: seq<LedgerStep>, w: World, i: int, k: int,
                          hash: TokenHash, u: int, t: int, s: int, c: int, f: int, d: int) {
    && 0 <= i < |w.receipts| && ResultNamed(w.db, w.receipts[i].payload, k)
    && 0 <= u < t <= s < c <= f <= d < |steps| && |ms| == |steps| + 1
    && IssuedBy(ms, steps, w.receipts[i].payload.assignment, hash, u)
    && steps[t].Sched? && CurrentWhenRead(ms[t].world.db, AsRead(steps[t].split), w.receipts[i].payload.resultRow, hash)
    && StoredAt(ms, k, s)
    && LateIfOvertaken(ms[t].world.db, ms[s].world.db, w.receipts[i].payload.resultRow.attempt)
    && MadeAt(ms, steps, w.receipts[i].payload, c)
    && LinkAt(ms, steps, w.receipts[i].payload, f)
    && InsertedAt(ms, i, d)
  }

  /** Main result, for every interleaving: behind every receipt stand, in this order, the accept that
      issued a token for the assignment; a submit that read the result in under that token, by the
      assignment's worker, while the attempt was the newest of its work unit; the commit that
      stored it, when the attempt was late if and only if a newer one had been created since that
      read; the reading of the rows it is made from, the latest succeeded result of the work unit,
      the latest report on that result, which recommended acceptance, and the latest plan; the
      finding of the latest receipt of another result, to which it links; and the insert. */
  lemma ReceiptProvenance(ms: seq<Machine>, steps: seq<LedgerStep>, rank: UsageId -> int, i: int)
    requires Trace(ms, steps, rank) && 0 <= i < |ms[|steps|].world.receipts|
    ensures exists k, hash, u, t, s, c, f, d ::
              Vouched(ms, steps, ms[|steps|].world, i, k, hash, u, t, s, c, f, d)
  {
    var n := |steps|;
    var got, c, f, d := ReceiptOrigin(ms, steps, rank, n, i);
    var k := ContextResult(ms, steps, got, c);
    var hash, u, t, s := ResultHistory(ms, steps, rank, c, k);
    ResultsKept(ms, steps, rank, c, n);
    TraceInv(ms, steps, rank, n);
    ReceiptResult(ms[n].world, i, got, k);
    ContextSays(ms, steps, got, ms[n].world.receipts[i].payload, c);
    assert Vouched(ms, steps, ms[n].world, i, k, hash, u, t, s, c, f, d);
  }

  lemma ContextSays(ms: seq<Machine>, steps: seq<LedgerStep>, got: Gathered, payload: Payload, c: int)
    requires ContextAt(ms, steps, got, c) && BuiltFrom(payload, got)
    ensures MadeAt(ms, steps, payload, c)
  {
    var w, p := ms[c].world, steps[c].picks;
    ContextExactly(w, steps[c].call.wu, p);
    assert MadeFrom(w, payload, p.result.value, p.report.value, p.plan.value);
  }

  /** The row of a context that was read is one of the rows stored by then. */
  lemma ContextResult(ms: seq<Machine>, steps: seq<LedgerStep>, got: Gathered, c: int) returns (k: int)
    requires ContextAt(ms, steps, got, c)
    ensures 0 <= k < |ms[c].world.db.results|
    ensures ms[c].world.db.results[k] == got.row && got.row.status == ResultSucceeded
  {
    k := steps[c].picks.result.value;
    assert ResultStamps(ms[c].world, steps[c].call.wu)[k].Some?;
  }

  /** Behind every stored succeeded result stand its commit, a submit that was current when it
      read, and before that the accept that issued its token. */
  lemma ResultHistory(ms: seq<Machine>, steps: seq<LedgerStep>, rank: UsageId -> int, n: nat, k: int)
    returns (hash: TokenHash, u: int, t: int, s: int)
    requires Trace(ms, steps, rank) && n <= |steps| && 0 <= k < |ms[n].world.db.results|
    requires ms[n].world.db.results[k].status == ResultSucceeded
    ensures 0 <= u < t <= s < n && StoredAt(ms, k, s) && steps[t].Sched?
    ensures var row := ms[n].world.db.results[k];
            && CurrentWhenRead(ms[t].world.db, AsRead(steps[t].split), row, hash)
            && LateIfOvertaken(ms[t].world.db, ms[s].world.db, row.attempt)
            && IssuedBy(ms, steps, row.assignment, hash, u)
  {
    var r;
    r, t, s := ResultOrigin(ms, steps, rank, n, k);
    var db, read := ms[t].world.db, AsRead(steps[t].split);
    ReadWasCurrent(db, read);
    if t < s {
      OneStep(ms, steps, rank, s);
      Overtaken(ms[s], r, db);
    }
    hash := db.assignments[read.a].tokenHash.value;
    u := TokenOrigin(ms, steps, rank, t, read.a, hash);
  }

  lemma ReceiptResult(w: World, i: int, got: Gathered, k: int)
    requires LedgerInv(w) && 0 <= i < |w.receipts| && BuiltFrom(w.receipts[i].payload, got)
    requires 0 <= k < |w.db.results| && w.db.results[k] == got.row
    ensures ResultNamed(w.db, w.receipts[i].payload, k)
  {
    assert ReceiptSound(w.db, w.usage, w.receipts[i]);
    var j :| ResultNamed(w.db, w.receipts[i].payload, j);
    InterleavedRows(w.db);
  }

  /** No result in the quarantine ever gets a receipt or a usage entry. */
  lemma NoLateReceipts(ms: seq<Machine>, steps: seq<LedgerStep>, rank: UsageId -> int)
    requires Trace(ms, steps, rank)
    ensures var w := ms[|steps|].world;
            && (forall i :: 0 <= i < |w.receipts| ==> w.receipts[i].payload.result !in w.db.quarantine)
            && (forall k :: 0 <= k < |w.usage| ==> w.usage[k].id.result !in w.db.quarantine)
  {
    TraceInv(ms, steps, rank, |steps|);
    var w := ms[|steps|].world;
    forall i | 0 <= i < |w.receipts| ensures w.receipts[i].payload.result !in w.db.quarantine {
      assert ReceiptSound(w.db, w.usage, w.receipts[i]);
    }
    forall k | 0 <= k < |w.usage| ensures w.usage[k].id.result !in w.db.quarantine {
      assert UsageSound(w.db, w.usage[k]);
    }
  }

  /** Main result on links, for every interleaving. */
  lemma ReceiptLinks(ms: seq<Machine>, steps: seq<LedgerStep>, rank: UsageId -> int, i: nat)
    requires Trace(ms, steps, rank) && i < |ms[|steps|].world.receipts|
    ensures Linked(ms[|steps|].world.receipts)
    ensures var receipts := ms[|steps|].world.receipts;
            var walk := WalkBack(receipts, i);
            && 1 <= |walk| <= i + 1 && walk[0] == i
            && (forall n :: 0 <= n < |walk| ==> walk[n] <= i)
            && (forall n :: 0 <= n < |walk| - 1 ==> LinkTo(receipts, walk[n], walk[n + 1]))
            && receipts[walk[|walk| - 1]].payload.previous.None?
  {
    TraceInv(ms, steps, rank, |steps|);
    WalkEnds(ms[|steps|].world.receipts, i);
  }
}
