// What the ledger's queries return, said over the rows: the latest of the rows
// that qualify. And what a usage entry or a receipt made from them says.

module Contexts {
  import opened Common
  import opened Hashes
  import opened TimeText
  import opened Scheduler
  import opened Ledger
  import V = Verifier

  /////// The rows that qualify, and the latest of them

  ghost predicate ResultOf(db: Db, wu: Id, k: int) {
    0 <= k < |db.results| && db.results[k].workUnit == wu && db.results[k].status == ResultSucceeded
  }

  ghost predicate LatestResult(w: World, wu: Id, k: int) {
    && |w.times| == |w.db.results| && ResultOf(w.db, wu, k)
    && forall j :: ResultOf(w.db, wu, j) ==> !TextLess(w.times[k], w.times[j])
  }

  ghost predicate ReportOn(reports: seq<ReportRow>, result: Id, k: int) {
    0 <= k < |reports| && reports[k].result == result
  }

  ghost predicate LatestReport(reports: seq<ReportRow>, result: Id, k: int) {
    && ReportOn(reports, result, k)
    && forall j :: ReportOn(reports, result, j) ==> !TextLess(reports[k].createdAt, reports[j].createdAt)
  }

  ghost predicate PlanFor(plans: seq<PlanRow>, wu: Id, k: int) { 0 <= k < |plans| && plans[k].workUnit == wu }

  ghost predicate LatestPlan(plans: seq<PlanRow>, wu: Id, k: int) {
    && PlanFor(plans, wu, k)
    && forall j :: PlanFor(plans, wu, j) ==> !TextLess(plans[k].createdAt, plans[j].createdAt)
  }

  /** An empty work unit id is no filter. */
  ghost predicate EntryFor(usage: seq<UsageRow>, wu: Id, k: int) {
    0 <= k < |usage| && (wu.text != "" ==> usage[k].id.workUnit == wu)
  }

  /** Among equally late entries the one whose id comes first. */
  ghost predicate LatestEntry(usage: seq<UsageRow>, wu: Id, rank: UsageId -> int, k: int) {
    && EntryFor(usage, wu, k)
    && forall j :: EntryFor(usage, wu, j) ==>
         && !TextLess(usage[k].createdAt, usage[j].createdAt)
         && (usage[k].createdAt == usage[j].createdAt ==> rank(usage[k].id) <= rank(usage[j].id))
  }

  ghost predicate ReceiptOfOther(receipts: seq<ReceiptRow>, result: Id, k: int) {
    0 <= k < |receipts| && receipts[k].payload.result != result
  }

  ghost predicate LatestOther(receipts: seq<ReceiptRow>, result: Id, k: int) {
    && ReceiptOfOther(receipts, result, k)
    && forall j :: ReceiptOfOther(receipts, result, j) ==> !TextLess(receipts[k].createdAt, receipts[j].createdAt)
  }

  /////// The picks of a call

  ghost predicate ContextLatest(w: World, wu: Id, p: Picks) {
    && |w.times| == |w.db.results|
    && (if p.result.Some? then LatestResult(w, wu, p.result.value) else forall k :: !ResultOf(w.db, wu, k))
    && (p.result.Some? ==>
          var result := w.db.results[p.result.value].id;
          if p.report.Some? then LatestReport(w.reports, result, p.report.value)
          else forall k :: !ReportOn(w.reports, result, k))
    && (if p.plan.Some? then LatestPlan(w.plans, wu, p.plan.value) else forall k :: !PlanFor(w.plans, wu, k))
  }

  ghost predicate PicksLatest(w: World, wu: Id, p: Picks, rank: UsageId -> int) {
    && ContextLatest(w, wu, p)
    && (if p.usage.Some? then LatestEntry(w.usage, wu, rank, p.usage.value) else forall k :: !EntryFor(w.usage, wu, k))
    && (p.result.Some? ==>
          var result := w.db.results[p.result.value].id;
          if p.previous.Some? then LatestOther(w.receipts, result, p.previous.value)
          else forall k :: !ReceiptOfOther(w.receipts, result, k))
  }

  lemma ResultsChosen(w: World, wu: Id, pick: Option<nat>)
    requires |w.times| == |w.db.results|
    ensures Chosen(ResultStamps(w, wu), pick) <==>
            if pick.Some? then LatestResult(w, wu, pick.value) else forall k :: !ResultOf(w.db, wu, k)
  {
    var stamps := ResultStamps(w, wu);
    forall k | 0 <= k < |stamps| ensures stamps[k].Some? <==> ResultOf(w.db, wu, k) {}
  }

  lemma ReportsChosen(reports: seq<ReportRow>, result: Id, pick: Option<nat>)
    ensures Chosen(ReportStamps(reports, result), pick) <==>
            if pick.Some? then LatestReport(reports, result, pick.value) else forall k :: !ReportOn(reports, result, k)
  {
    var stamps := ReportStamps(reports, result);
    forall k | 0 <= k < |stamps| ensures stamps[k].Some? <==> ReportOn(reports, result, k) {}
  }

  lemma PlansChosen(plans: seq<PlanRow>, wu: Id, pick: Option<nat>)
    ensures Chosen(PlanStamps(plans, wu), pick) <==>
            if pick.Some? then LatestPlan(plans, wu, pick.value) else forall k :: !PlanFor(plans, wu, k)
  {
    var stamps := PlanStamps(plans, wu);
    forall k | 0 <= k < |stamps| ensures stamps[k].Some? <==> PlanFor(plans, wu, k) {}
  }

  lemma EntriesChosen(usage: seq<UsageRow>, wu: Id, rank: UsageId -> int, pick: Option<nat>)
    ensures Chosen(UsageStamps(usage, wu, rank), pick) <==>
            if pick.Some? then LatestEntry(usage, wu, rank, pick.value) else forall k :: !EntryFor(usage, wu, k)
  {
    var stamps := UsageStamps(usage, wu, rank);
    forall k | 0 <= k < |stamps| ensures stamps[k].Some? <==> EntryFor(usage, wu, k) {}
  }

  lemma ReceiptsChosen(receipts: seq<ReceiptRow>, result: Id, pick: Option<nat>)
    ensures Chosen(ReceiptStamps(receipts, result), pick) <==>
            if pick.Some? then LatestOther(receipts, result, pick.value)
            else forall k :: !ReceiptOfOther(receipts, result, k)
  {
    var stamps := ReceiptStamps(receipts, result);
    forall k | 0 <= k < |stamps| ensures stamps[k].Some? <==> ReceiptOfOther(receipts, result, k) {}
  }

  /** The context queries return the latest of the rows that qualify, and nothing only if none does. */
  lemma ContextExactly(w: World, wu: Id, p: Picks)
    ensures ContextPicked(w, wu, p) <==> ContextLatest(w, wu, p)
  {
    if |w.times| == |w.db.results| {
      ResultsChosen(w, wu, p.result);
      PlansChosen(w.plans, wu, p.plan);
      if p.result.Some? && p.result.value < |w.db.results| {
        ReportsChosen(w.reports, w.db.results[p.result.value].id, p.report);
      }
    }
  }

  lemma PicksExactly(w: World, wu: Id, p: Picks, rank: UsageId -> int)
    ensures Picked(w, wu, p, rank) <==> PicksLatest(w, wu, p, rank)
  {
    ContextExactly(w, wu, p);
    EntriesChosen(w.usage, wu, rank, p.usage);
    if ContextLatest(w, wu, p) && p.result.Some? {
      ReceiptsChosen(w.receipts, w.db.results[p.result.value].id, p.previous);
    }
  }

  /////// What there is to pick from

  /** Saving a report again changes the body of the row with its id and nothing else; a new report
      needs a stored result and comes last. */
  lemma ReportSaved(w: World, id: Id, result: Id, recommendation: V.Recommendation, now: string)
    requires forall i, j :: 0 <= i < j < |w.reports| ==> w.reports[i].id != w.reports[j].id
    ensures var after := SaveReport(w, id, result, recommendation, now);
            var known := exists k :: 0 <= k < |w.reports| && w.reports[k].id == id;
            && after == w.(reports := after.reports)
            && (forall k :: 0 <= k < |w.reports| ==>
                  && k < |after.reports|
                  && after.reports[k] == (if w.reports[k].id == id
                                          then w.reports[k].(body := ReportBody(id, recommendation)) else w.reports[k]))
            && (|after.reports| > |w.reports| <==>
                  !known && exists j :: 0 <= j < |w.db.results| && w.db.results[j].id == result)
            && (|after.reports| > |w.reports| ==>
                  && |after.reports| == |w.reports| + 1
                  && after.reports[|w.reports|] == ReportRow(id, result, now, ReportBody(id, recommendation)))
  {
    if exists k :: ReportKnown(w.reports, id, k) {
      var k :| ReportKnown(w.reports, id, k)
               && SaveReport(w, id, result, recommendation, now).reports ==
                  w.reports[k := w.reports[k].(body := ReportBody(id, recommendation))];
      forall j | 0 <= j < |w.reports| && w.reports[j].id == id ensures j == k {}
    } else {
      forall k | 0 <= k < |w.reports| ensures w.reports[k].id != id { assert !ReportKnown(w.reports, id, k); }
    }
  }

  /** Likewise for a plan, which needs its work unit. */
  lemma PlanSaved(w: World, id: Id, wu: Id, body: Json, now: string)
    requires forall i, j :: 0 <= i < j < |w.plans| ==> w.plans[i].id != w.plans[j].id
    ensures var after := SavePlan(w, id, wu, body, now);
            var known := exists k :: 0 <= k < |w.plans| && w.plans[k].id == id;
            && (forall k :: 0 <= k < |w.plans| ==>
                  && k < |after.plans|
                  && after.plans[k] == (if w.plans[k].id == id then w.plans[k].(body := body) else w.plans[k]))
            && (|after.plans| > |w.plans| <==> !known && wu in w.db.workUnits)
            && (|after.plans| > |w.plans| ==>
                  |after.plans| == |w.plans| + 1 && after.plans[|w.plans|] == PlanRow(id, wu, now, body))
  {
    if exists k :: PlanKnown(w.plans, id, k) {
      var k :| PlanKnown(w.plans, id, k)
               && SavePlan(w, id, wu, body, now).plans == w.plans[k := w.plans[k].(body := body)];
      forall j | 0 <= j < |w.plans| && w.plans[j].id == id ensures j == k {}
    } else {
      forall k | 0 <= k < |w.plans| ensures w.plans[k].id != id { assert !PlanKnown(w.plans, id, k); }
    }
  }

  /////// What is made of them

  /** A usage entry for the latest succeeded result: its ids, the latest plan, and the latest report
      on that result if there is one. */
  ghost predicate EntrySays(w: World, wu: Id, account: Option<Id>, routebook: string, p: Picks, body: UsageBody)
    requires ContextLatest(w, wu, p) && p.result.Some? && p.plan.Some?
  {
    && body.id.workUnit == wu && body.id.result == w.db.results[p.result.value].id && body.id.account == account
    && body.plan == w.plans[p.plan.value].id && body.routebook == routebook
    && match p.report
       case Some(r) => body.id.report == Some(w.reports[r].id)
                       && body.recommendation == Some(w.reports[r].body.recommendation)
       case None => body.id.report == None && body.recommendation == None
  }

  /** A completed work unit gets an entry exactly when it has a succeeded result and a plan and the
      account, if one is given, exists. */
  lemma RecordExactly(w: World, wu: Id, account: Option<Id>, routebook: string, now: string, p: Picks)
    requires ContextLatest(w, wu, p)
    ensures ContextPicked(w, wu, p)
    ensures var out := RecordUsage(w, wu, account, routebook, now, p);
            && (out.Entered? <==>
                  && wu in w.db.workUnits
                  && (exists k :: ResultOf(w.db, wu, k)) && (exists k :: PlanFor(w.plans, wu, k))
                  && (account.Some? ==> account.value in w.accounts))
            && (out.Entered? ==>
                  p.result.Some? && p.plan.Some? && EntrySays(w, wu, account, routebook, p, out.body))
  {
    ContextExactly(w, wu, p);
  }

  /** What create_for_work_unit asks of the work unit. */
  ghost predicate Acceptable(w: World, wu: Id, p: Picks)
    requires ContextLatest(w, wu, p)
  {
    && wu in w.db.workUnits && p.result.Some? && p.report.Some? && p.plan.Some?
    && (w.reports[p.report.value].body.recommendation == V.Accept
        || w.reports[p.report.value].body.recommendation == V.AcceptWithWarning)
    && w.db.results[p.result.value].assignment in w.db.assignments
  }

  /** Rows `k`, `r` and `q` are the context the receipt is made from, and it says what they say. */
  ghost predicate MadeFrom(w: World, payload: Payload, k: int, r: int, q: int) {
    && LatestResult(w, payload.workUnit, k) && LatestReport(w.reports, payload.result, r)
    && LatestPlan(w.plans, payload.workUnit, q)
    && payload.resultRow == w.db.results[k] && payload.result == w.db.results[k].id
    && payload.assignment == w.db.results[k].assignment && payload.assignment in w.db.assignments
    && payload.workUnit in w.db.workUnits
    && payload.reportBody == w.reports[r].body && payload.report == w.reports[r].body.id
    && payload.reportBody.recommendation == (if payload.withWarning then V.AcceptWithWarning else V.Accept)
    && payload.plan == w.plans[q].id && payload.planBody == w.plans[q].body
  }

  /** The entry the receipt takes: the one named, the latest if its account fits, or one just made. */
  ghost predicate TakesEntry(w: World, wu: Id, named: Option<UsageId>, account: Option<Id>, routebook: string,
                             p: Picks, rank: UsageId -> int, body: UsageBody)
    requires PicksLatest(w, wu, p, rank)
  {
    if named.Some? then exists k :: 0 <= k < |w.usage| && w.usage[k].id == named.value && w.usage[k].body == body
    else if p.usage.Some? && (account == None || account == w.usage[p.usage.value].body.id.account) then
      body == w.usage[p.usage.value].body
    else p.result.Some? && p.plan.Some? && EntrySays(w, wu, account, routebook, p, body)
  }

  /** The entry there is to take, or the account a new one needs. */
  ghost predicate EntryReady(w: World, wu: Id, named: Option<UsageId>, account: Option<Id>, p: Picks,
                             rank: UsageId -> int)
    requires PicksLatest(w, wu, p, rank)
  {
    if named.Some? then exists k :: 0 <= k < |w.usage| && w.usage[k].id == named.value
    else || (p.usage.Some? && (account == None || account == w.usage[p.usage.value].body.id.account))
         || account == None || account.value in w.accounts
  }

  ghost predicate LinksLatest(w: World, p: Picks, payload: Payload) {
    match p.previous
    case None => payload.previous == None
    case Some(j) => j < |w.receipts| && payload.previous == Some(w.receipts[j].hash)
  }

  lemma AcceptableIff(w: World, wu: Id, p: Picks)
    requires ContextLatest(w, wu, p)
    ensures ContextPicked(w, wu, p) && (Accepted(w, wu, p) <==> Acceptable(w, wu, p))
  {
    ContextExactly(w, wu, p);
  }

  lemma EntryTaken(w: World, wu: Id, named: Option<UsageId>, account: Option<Id>, routebook: string, now: string,
                   p: Picks, rank: UsageId -> int)
    requires PicksLatest(w, wu, p, rank) && Acceptable(w, wu, p)
    ensures Picked(w, wu, p, rank)
    ensures var out := EnsureUsage(w, wu, named, account, routebook, now, p, rank);
            && (out.Entered? <==> EntryReady(w, wu, named, account, p, rank))
            && (out.Entered? ==>
                  && TakesEntry(w, wu, named, account, routebook, p, rank, out.body)
                  && out.world.db.results == w.db.results)
  {
    PicksExactly(w, wu, p, rank);
    ContextExactly(w, wu, p);
    if named.Some? {
      if HasUsage(w.usage, named.value) {
        var k :| UsageAt(w.usage, named.value, k)
                 && EnsureUsage(w, wu, named, account, routebook, now, p, rank).body == w.usage[k].body;
      }
      if k :| 0 <= k < |w.usage| && w.usage[k].id == named.value { assert UsageAt(w.usage, named.value, k); }
    }
  }

  /** A receipt is returned exactly when the work unit is acceptable and an entry is at hand or can be
      made. A new one says what the latest rows say, takes that entry and links to the latest
      receipt of another result. */
  lemma CreateExactly(w: World, wu: Id, named: Option<UsageId>, account: Option<Id>, routebook: string,
                      usageNow: string, now: string, p: Picks, rank: UsageId -> int)
    requires PicksLatest(w, wu, p, rank)
    ensures Picked(w, wu, p, rank)
    ensures var out := CreateReceipt(w, wu, named, account, routebook, usageNow, now, p, rank);
            && (out.Receipted? <==> Acceptable(w, wu, p) && EntryReady(w, wu, named, account, p, rank))
            && (out.Receipted? ==>
                  || (&& out.world.receipts == w.receipts
                      && OldReceipt(w, wu, named, account, routebook, p, rank, out.payload))
                  || (&& out.world.receipts == w.receipts + [ReceiptRow(out.payload, ReceiptHash(out.payload), now)]
                      && NewReceiptSays(w, wu, named, account, routebook, p, rank, out.payload)))
  {
    PicksExactly(w, wu, p, rank);
    AcceptableIff(w, wu, p);
    if Acceptable(w, wu, p) {
      EntryTaken(w, wu, named, account, routebook, usageNow, p, rank);
      var entry := EnsureUsage(w, wu, named, account, routebook, usageNow, p, rank);
      if entry.Entered? { FinishSays(w, entry.world, wu, p, entry.body, routebook, now, rank); }
    }
  }

  /** A receipt there was, for this result and this entry. */
  ghost predicate OldReceipt(w: World, wu: Id, named: Option<UsageId>, account: Option<Id>, routebook: string,
                             p: Picks, rank: UsageId -> int, payload: Payload)
    requires PicksLatest(w, wu, p, rank)
  {
    && p.result.Some?
    && exists k, body: UsageBody ::
         && Found(w.receipts, ReceiptId(w.db.results[p.result.value].id, body.id), payload, k)
         && TakesEntry(w, wu, named, account, routebook, p, rank, body)
  }

  ghost predicate Found(receipts: seq<ReceiptRow>, id: ReceiptId, payload: Payload, k: int) {
    0 <= k < |receipts| && receipts[k].payload == payload && payload.id == id
  }

  ghost predicate NewReceiptSays(w: World, wu: Id, named: Option<UsageId>, account: Option<Id>, routebook: string,
                                 p: Picks, rank: UsageId -> int, payload: Payload)
    requires PicksLatest(w, wu, p, rank)
  {
    && p.result.Some? && p.report.Some? && p.plan.Some?
    && payload.workUnit == wu && payload.routebook == routebook
    && MadeFrom(w, payload, p.result.value, p.report.value, p.plan.value)
    && TakesEntry(w, wu, named, account, routebook, p, rank, payload.usageBody)
    && payload.usage == payload.usageBody.id && payload.id == ReceiptId(payload.result, payload.usage)
    && LinksLatest(w, p, payload)
  }

  lemma FinishSays(w: World, mid: World, wu: Id, p: Picks, usage: UsageBody, routebook: string, now: string,
                   rank: UsageId -> int)
    requires PicksLatest(w, wu, p, rank) && Acceptable(w, wu, p) && Picked(w, wu, p, rank) && Accepted(w, wu, p)
    requires mid.receipts == w.receipts
    ensures p.previous.Some? ==> p.previous.value < |w.receipts|
    ensures var out := FinishReceipt(w, mid, wu, p, usage, routebook, now);
            && out.Receipted?
            && (|| (&& out.world.receipts == w.receipts
                    && exists k ::
                         Found(w.receipts, ReceiptId(w.db.results[p.result.value].id, usage.id), out.payload, k))
                || (&& out.world.receipts == w.receipts + [ReceiptRow(out.payload, ReceiptHash(out.payload), now)]
                    && out.payload.workUnit == wu && out.payload.routebook == routebook
                    && MadeFrom(w, out.payload, p.result.value, p.report.value, p.plan.value)
                    && out.payload.usageBody == usage && out.payload.usage == usage.id
                    && out.payload.id == ReceiptId(out.payload.result, out.payload.usage)
                    && LinksLatest(w, p, out.payload)))
  {
    var id := ReceiptId(w.db.results[p.result.value].id, usage.id);
    if HasReceipt(w.receipts, id) {
      var k :| ReceiptAt(w.receipts, id, k)
               && FinishReceipt(w, mid, wu, p, usage, routebook, now).payload == w.receipts[k].payload;
      assert Found(w.receipts, id, w.receipts[k].payload, k);
    }
  }
}
