// The ledger repositories as they run: queries that scan for the latest row,
// an upsert, and create_for_work_unit, proved against module Ledger.

module LedgerStore {
  import opened Common
  import opened TimeText
  import opened Scheduler
  import opened Ledger
  import opened Contexts
  import V = Verifier

  datatype Reply<T> = Ok(value: T) | Raised(trouble: Trouble)

  lemma BeatsTransitive(s: Stamp, t: Stamp, u: Stamp)
    requires Beats(s, t) && Beats(t, u)
    ensures Beats(s, u)
  {
    if TextLess(t.createdAt, s.createdAt) && TextLess(u.createdAt, t.createdAt) {
      TextTransitive(u.createdAt, t.createdAt, s.createdAt);
    }
  }

  /** ORDER BY created_at DESC, id LIMIT 1. */
  method FindLatest(stamps: seq<Option<Stamp>>) returns (pick: Option<nat>)
    ensures Chosen(stamps, pick)
  {
    pick := None;
    for i := 0 to |stamps|
      invariant Chosen(stamps[..i], pick)
    {
      if stamps[i].Some? && (pick.None? || Beats(stamps[i].value, stamps[pick.value].value)) {
        if pick.Some? {
          forall j | 0 <= j < i && stamps[j].Some? ensures !Beats(stamps[j].value, stamps[i].value) {
            assert stamps[..i][j] == stamps[j];
            if Beats(stamps[j].value, stamps[i].value) {
              BeatsTransitive(stamps[j].value, stamps[i].value, stamps[pick.value].value);
            }
          }
        }
        SelfUnbeaten(stamps[i].value);
        pick := Some(i);
      }
      assert stamps[..i + 1] == stamps[..i] + [stamps[i]];
    }
    assert stamps[..|stamps|] == stamps;
  }

  lemma SelfUnbeaten(s: Stamp)
    ensures !Beats(s, s)
  {
    Irreflexive(s.createdAt);
  }

  class LedgerRepository {
    const rank: UsageId -> int
    var db: Db
    var times: seq<string>
    var reports: seq<ReportRow>
    var plans: seq<PlanRow>
    var accounts: set<Id>
    var usage: seq<UsageRow>
    var receipts: seq<ReceiptRow>

    ghost function View(): World reads this { World(db, times, reports, plans, accounts, usage, receipts) }

    ghost predicate Valid() reads this {
      && |times| == |db.results|
      && (forall i, j :: 0 <= i < j < |usage| ==> usage[i].id != usage[j].id)
      && (forall i, j :: 0 <= i < j < |receipts| ==> receipts[i].payload.id != receipts[j].payload.id)
    }

    constructor (order: UsageId -> int)
      ensures Valid() && View() == EMPTY_WORLD && rank == order
    {
      rank := order;
      db, times, reports, plans, accounts, usage, receipts := EMPTY_DB, [], [], [], {}, [], [];
    }

    method GetEntry(id: UsageId) returns (k: Option<nat>)
      ensures k.Some? ==> UsageAt(usage, id, k.value)
      ensures k.None? ==> !HasUsage(usage, id)
    {
      for i := 0 to |usage|
        invariant forall j :: 0 <= j < i ==> usage[j].id != id
      {
        if usage[i].id == id { return Some(i); }
      }
      k := None;
    }

    method GetReceipt(id: ReceiptId) returns (k: Option<nat>)
      ensures k.Some? ==> ReceiptAt(receipts, id, k.value)
      ensures k.None? ==> !HasReceipt(receipts, id)
    {
      for i := 0 to |receipts|
        invariant forall j :: 0 <= j < i ==> receipts[j].payload.id != id
      {
        if receipts[i].payload.id == id { return Some(i); }
      }
      k := None;
    }

    /** The queries of both context methods. */
    method QueryContext(wu: Id) returns (p: Picks)
      requires Valid()
      ensures ContextPicked(View(), wu, p) && p.usage == None && p.previous == None
    {
      var w := World(db, times, reports, plans, accounts, usage, receipts);
      var result := FindLatest(ResultStamps(w, wu));
      var report := None;
      if result.Some? { report := FindLatest(ReportStamps(reports, db.results[result.value].id)); }
      var plan := FindLatest(PlanStamps(plans, wu));
      p := Picks(result, report, plan, None, None);
    }

    /** INSERT ... ON CONFLICT DO UPDATE, with its event. */
    method UpsertEntry(body: UsageBody, now: string)
      requires Valid()
      modifies this`usage, this`db
      ensures Valid()
              && View() == old(View()).(usage := Upsert(old(usage), body, now),
                                        db := Note(old(db), OtherEvent("usage_ledger_entry.recorded")))
    {
      var k := GetEntry(body.id);
      if k.Some? {
        usage := usage[k.value := usage[k.value].(body := body)];
      } else {
        forall i | 0 <= i < |usage| ensures usage[i].id != body.id { assert !UsageAt(usage, body.id, i); }
        usage := usage + [UsageRow(body.id, body.plan, now, body)];
      }
      db := db.(log := db.log + [OtherEvent("usage_ledger_entry.recorded")]);
    }

    method RecordForWorkUnit(wu: Id, account: Option<Id>, routebook: string, now: string, p: Picks)
      returns (reply: Reply<UsageBody>)
      requires Valid() && ContextPicked(View(), wu, p)
      modifies this`usage, this`db
      ensures Valid()
      ensures match RecordUsage(old(View()), wu, account, routebook, now, p)
              case Entered(w, body) => reply == Ok(body) && View() == w
              case NoEntry(trouble) => reply == Raised(trouble) && View() == old(View())
      ensures reply.Ok? ==>
                && ContextLatest(old(View()), wu, p) && p.result.Some? && p.plan.Some?
                && EntrySays(old(View()), wu, account, routebook, p, reply.value)
    {
      ContextExactly(View(), wu, p);
      RecordExactly(View(), wu, account, routebook, now, p);
      if wu !in db.workUnits || p.result.None? || p.plan.None? { return Raised(Missing); }
      if account.Some? && account.value !in accounts { return Raised(BadReference); }
      var report := None;
      var recommendation := None;
      if p.report.Some? {
        report, recommendation := Some(reports[p.report.value].id), Some(reports[p.report.value].body.recommendation);
      }
      var body := UsageBody(UsageId(wu, db.results[p.result.value].id, report, account), plans[p.plan.value].id,
                            routebook, recommendation);
      UpsertEntry(body, now);
      reply := Ok(body);
    }

    method EnsureUsageEntry(wu: Id, named: Option<UsageId>, account: Option<Id>, routebook: string, now: string,
                            p: Picks) returns (reply: Reply<UsageBody>)
      requires Valid() && Picked(View(), wu, p, rank)
      modifies this`usage, this`db
      ensures Valid()
      ensures match EnsureUsage(old(View()), wu, named, account, routebook, now, p, rank)
              case Entered(w, body) => reply == Ok(body) && View() == w
              case NoEntry(trouble) => reply == Raised(trouble) && View() == old(View())
    {
      if named.Some? {
        var k := GetEntry(named.value);
        if k.None? { return Raised(Missing); }
        return Ok(usage[k.value].body);
      }
      if p.usage.Some? && (account.None? || usage[p.usage.value].body.id.account == account) {
        return Ok(usage[p.usage.value].body);
      }
      reply := RecordForWorkUnit(wu, account, routebook, now, p);
    }

    method CreateForWorkUnit(wu: Id, named: Option<UsageId>, account: Option<Id>, routebook: string, usageNow: string,
                             now: string)
      returns (reply: Reply<Payload>, p: Picks)
      requires Valid()
      modifies this`usage, this`receipts, this`db
      ensures Valid() && Picked(old(View()), wu, p, rank) && PicksLatest(old(View()), wu, p, rank)
      ensures var out := CreateReceipt(old(View()), wu, named, account, routebook, usageNow, now, p, rank);
              View() == out.world && reply == if out.Receipted? then Ok(out.payload) else Raised(out.trouble)
      ensures reply.Ok? <==>
                Acceptable(old(View()), wu, p) && EntryReady(old(View()), wu, named, account, p, rank)
      ensures reply.Ok? ==>
                || (&& receipts == old(receipts)
                    && OldReceipt(old(View()), wu, named, account, routebook, p, rank, reply.value))
                || (&& receipts == old(receipts) + [ReceiptRow(reply.value, ReceiptHash(reply.value), now)]
                    && NewReceiptSays(old(View()), wu, named, account, routebook, p, rank, reply.value))
    {
      p := Query(wu);
      PicksExactly(View(), wu, p, rank);
      CreateExactly(View(), wu, named, account, routebook, usageNow, now, p, rank);
      var trouble := CheckAccepted(wu, p);
      if trouble.Some? { return Raised(trouble.value), p; }
      reply := CreateAccepted(wu, named, account, routebook, usageNow, now, p);
    }

    method Query(wu: Id) returns (p: Picks)
      requires Valid()
      ensures Picked(View(), wu, p, rank)
    {
      p := QueryContext(wu);
      var latest := FindLatest(UsageStamps(usage, wu, rank));
      var previous := None;
      if p.result.Some? { previous := FindLatest(ReceiptStamps(receipts, db.results[p.result.value].id)); }
      p := p.(usage := latest, previous := previous);
    }

    /** _accepted_context: what is wrong, if anything. */
    method CheckAccepted(wu: Id, p: Picks) returns (trouble: Option<Trouble>)
      requires Valid() && ContextPicked(View(), wu, p)
      ensures trouble == if Accepted(View(), wu, p) then None else Some(ContextTrouble(View(), wu, p))
      ensures ContextLatest(View(), wu, p) && (trouble == None <==> Acceptable(View(), wu, p))
      ensures trouble == Some(NotAccepted) <==>
                && wu in db.workUnits && p.result.Some? && p.report.Some?
                && reports[p.report.value].body.recommendation !in {V.Accept, V.AcceptWithWarning}
    {
      ContextExactly(View(), wu, p);
      AcceptableIff(View(), wu, p);
      if wu !in db.workUnits || p.result.None? || p.report.None? { return Some(Missing); }
      if !AcceptedRecommendation(reports[p.report.value].body.recommendation) { return Some(NotAccepted); }
      if p.plan.None? || db.results[p.result.value].assignment !in db.assignments { return Some(Missing); }
      trouble := None;
    }

    method CreateAccepted(wu: Id, named: Option<UsageId>, account: Option<Id>, routebook: string, usageNow: string,
                          now: string, p: Picks)
      returns (reply: Reply<Payload>)
      requires Valid() && Picked(View(), wu, p, rank) && Accepted(View(), wu, p)
      modifies this`usage, this`receipts, this`db
      ensures Valid()
      ensures var out := CreateReceipt(old(View()), wu, named, account, routebook, usageNow, now, p, rank);
              View() == out.world && reply == if out.Receipted? then Ok(out.payload) else Raised(out.trouble)
    {
      var entry := EnsureUsageEntry(wu, named, account, routebook, usageNow, p);
      if entry.Raised? { return Raised(entry.trouble); }
      reply := InsertReceipt(old(View()), wu, entry.value, routebook, now, p);
    }

    /** The tail of create_for_work_unit: return the receipt with this id, or insert one. */
    method InsertReceipt(ghost w: World, wu: Id, entry: UsageBody, routebook: string, now: string, p: Picks)
      returns (reply: Reply<Payload>)
      requires Valid() && ContextPicked(w, wu, p) && Accepted(w, wu, p)
      requires w.db.results == db.results && w.reports == reports && w.plans == plans && w.receipts == receipts
      requires p.previous.Some? ==> p.previous.value < |receipts|
      modifies this`receipts, this`db
      ensures Valid()
      ensures var out := FinishReceipt(w, old(View()), wu, p, entry, routebook, now);
              View() == out.world && out.Receipted? && reply == Ok(out.payload)
    {
      var row, report, plan := db.results[p.result.value], reports[p.report.value], plans[p.plan.value];
      var id := ReceiptId(row.id, entry.id);
      var k := GetReceipt(id);
      if k.Some? { return Ok(receipts[k.value].payload); }
      forall i | 0 <= i < |receipts| ensures receipts[i].payload.id != id { assert !ReceiptAt(receipts, id, i); }
      var previous := None;
      if p.previous.Some? { previous := Some(receipts[p.previous.value].hash); }
      var payload := Payload(id, wu, plan.id, row.assignment, row.id, report.body.id, entry.id,
                             routebook, report.body.recommendation != V.Accept, plan.body, row, report.body, entry,
                               previous);
      receipts := receipts + [ReceiptRow(payload, ReceiptHash(payload), now)];
      db := db.(log := db.log + [OtherEvent("audit_receipt.created")]);
      reply := Ok(payload);
    }
  }
}
