// The usage ledger and the audit receipts, beside the scheduler's tables. A
// query "ORDER BY created_at DESC LIMIT 1" is a pick: any row no other row beats.

module Ledger {
  import opened Common
  import opened Hashes
  import opened TimeText
  import opened Scheduler
  import V = Verifier

  /////// Rows

  datatype ReportBody = ReportBody(id: Id, recommendation: V.Recommendation)

  /** On conflict only the body is replaced; the result and the time are the first ones. */
  datatype ReportRow = ReportRow(id: Id, result: Id, createdAt: string, body: ReportBody)

  datatype PlanRow = PlanRow(id: Id, workUnit: Id, createdAt: string, body: Json)

  /** The digest of its four fields. */
  datatype UsageId = UsageId(workUnit: Id, result: Id, report: Option<Id>, account: Option<Id>)

  datatype UsageBody = UsageBody(id: UsageId, plan: Id, routebook: string, recommendation: Option<V.Recommendation>)

  datatype UsageRow = UsageRow(id: UsageId, plan: Id, createdAt: string, body: UsageBody)

  datatype ReceiptId = ReceiptId(result: Id, usage: UsageId)

  /** Everything a receipt hash covers. Hashes of bodies are the bodies themselves. */
  datatype Payload = Payload(
    id: ReceiptId, workUnit: Id, plan: Id, assignment: Id, result: Id, report: Id, usage: UsageId,
    routebook: string, withWarning: bool,
    planBody: Json, resultRow: ResultRow, reportBody: ReportBody, usageBody: UsageBody,
    previous: Option<ReceiptHash>)

  datatype ReceiptHash = ReceiptHash(payload: Payload)

  datatype ReceiptRow = ReceiptRow(payload: Payload, hash: ReceiptHash, createdAt: string)

  /** `times[k]` is the created_at column of `db.results[k]`. */
  datatype World = World(
    db: Db, times: seq<string>, reports: seq<ReportRow>, plans: seq<PlanRow>, accounts: set<Id>,
    usage: seq<UsageRow>, receipts: seq<ReceiptRow>)

  const EMPTY_WORLD := World(EMPTY_DB, [], [], [], {}, [], [])

  /////// Picking the latest row

  /** A row's sort key; ties on created_at go to the smaller rank. */
  datatype Stamp = Stamp(createdAt: string, rank: int)

  predicate Beats(s: Stamp, t: Stamp) {
    TextLess(t.createdAt, s.createdAt) || (s.createdAt == t.createdAt && s.rank < t.rank)
  }

  /** `stamps[k]` is Some for the rows the query selects. */
  predicate Chosen(stamps: seq<Option<Stamp>>, pick: Option<nat>) {
    match pick
    case None => forall j :: 0 <= j < |stamps| ==> stamps[j].None?
    case Some(k) =>
      && k < |stamps| && stamps[k].Some?
      && forall j :: 0 <= j < |stamps| && stamps[j].Some? ==> !Beats(stamps[j].value, stamps[k].value)
  }

  function ResultStamps(w: World, wu: Id): seq<Option<Stamp>>
    requires |w.times| == |w.db.results|
  {
    seq(|w.db.results|, k requires 0 <= k < |w.db.results| =>
      if w.db.results[k].workUnit == wu && w.db.results[k].status == ResultSucceeded then Some(Stamp(w.times[k], 0))
        else None)
  }

  function ReportStamps(reports: seq<ReportRow>, result: Id): seq<Option<Stamp>> {
    seq(|reports|, k requires 0 <= k < |reports| =>
      if reports[k].result == result then Some(Stamp(reports[k].createdAt, 0)) else None)
  }

  function PlanStamps(plans: seq<PlanRow>, wu: Id): seq<Option<Stamp>> {
    seq(|plans|, k requires 0 <= k < |plans| =>
      if plans[k].workUnit == wu then Some(Stamp(plans[k].createdAt, 0)) else None)
  }

  /** An empty work unit id selects every entry. `rank` is the text order of the entry ids. */
  function UsageStamps(usage: seq<UsageRow>, wu: Id, rank: UsageId -> int): seq<Option<Stamp>> {
    seq(|usage|, k requires 0 <= k < |usage| =>
      if wu.text == "" || usage[k].id.workUnit == wu then Some(Stamp(usage[k].createdAt, rank(usage[k].id))) else None)
  }

  function ReceiptStamps(receipts: seq<ReceiptRow>, result: Id): seq<Option<Stamp>> {
    seq(|receipts|, k requires 0 <= k < |receipts| =>
      if receipts[k].payload.result != result then Some(Stamp(receipts[k].createdAt, 0)) else None)
  }

  /** The rows the queries of one call return. */
  datatype Picks = Picks(result: Option<nat>, report: Option<nat>, plan: Option<nat>, usage: Option<nat>,
                         previous: Option<nat>)

  ghost predicate ContextPicked(w: World, wu: Id, p: Picks) {
    && |w.times| == |w.db.results|
    && Chosen(ResultStamps(w, wu), p.result)
    && (p.result.Some? ==> Chosen(ReportStamps(w.reports, w.db.results[p.result.value].id), p.report))
    && Chosen(PlanStamps(w.plans, wu), p.plan)
  }

  ghost predicate Picked(w: World, wu: Id, p: Picks, rank: UsageId -> int) {
    && ContextPicked(w, wu, p)
    && Chosen(UsageStamps(w.usage, wu, rank), p.usage)
    && (p.result.Some? ==> Chosen(ReceiptStamps(w.receipts, w.db.results[p.result.value].id), p.previous))
  }

  /////// Operations

  datatype Trouble = Missing | NotAccepted | BadReference

  datatype Entry = Entered(world: World, body: UsageBody) | NoEntry(trouble: Trouble)

  datatype Receipt = Receipted(world: World, payload: Payload) | NoReceipt(world: World, trouble: Trouble)

  predicate AcceptedRecommendation(r: V.Recommendation) { r == V.Accept || r == V.AcceptWithWarning }

  ghost predicate HasUsage(usage: seq<UsageRow>, id: UsageId) { exists k :: UsageAt(usage, id, k) }

  ghost predicate UsageAt(usage: seq<UsageRow>, id: UsageId, k: int) { 0 <= k < |usage| && usage[k].id == id }

  ghost function Upsert(usage: seq<UsageRow>, body: UsageBody, now: string): seq<UsageRow> {
    if HasUsage(usage, body.id) then
      var k :| UsageAt(usage, body.id, k);
      usage[k := usage[k].(body := body)]
    else usage + [UsageRow(body.id, body.plan, now, body)]
  }

  ghost function UsageBodyFor(w: World, wu: Id, account: Option<Id>, routebook: string, p: Picks): UsageBody
    requires ContextPicked(w, wu, p) && p.result.Some? && p.plan.Some?
  {
    var result := w.db.results[p.result.value].id;
    var report := if p.report.Some? then Some(w.reports[p.report.value].id) else None;
    UsageBody(UsageId(wu, result, report, account), w.plans[p.plan.value].id, routebook,
              if p.report.Some? then Some(w.reports[p.report.value].body.recommendation) else None)
  }

  /** record_for_work_unit. */
  ghost function RecordUsage(w: World, wu: Id, account: Option<Id>, routebook: string, now: string, p: Picks): Entry
    requires ContextPicked(w, wu, p)
  {
    if wu !in w.db.workUnits || p.result.None? || p.plan.None? then NoEntry(Missing)
    else if account.Some? && account.value !in w.accounts then NoEntry(BadReference)
    else
      var body := UsageBodyFor(w, wu, account, routebook, p);
      Entered(w.(usage := Upsert(w.usage, body, now), db := Note(w.db, OtherEvent("usage_ledger_entry.recorded"))),
              body)
  }

  /** _ensure_usage_entry: the entry named, else the latest of the work unit if its account
      fits, else a new one. An entry named outright is not checked against the work unit. */
  ghost function EnsureUsage(w: World, wu: Id, named: Option<UsageId>, account: Option<Id>, routebook: string,
                             now: string, p: Picks, rank: UsageId -> int): Entry
    requires Picked(w, wu, p, rank)
  {
    if named.Some? then
      if HasUsage(w.usage, named.value) then
        var k :| UsageAt(w.usage, named.value, k);
        Entered(w, w.usage[k].body)
      else NoEntry(Missing)
    else if p.usage.Some? && (account.None? || w.usage[p.usage.value].body.id.account == account) then
      Entered(w, w.usage[p.usage.value].body)
    else RecordUsage(w, wu, account, routebook, now, p)
  }

  /** _accepted_context succeeds. */
  ghost predicate Accepted(w: World, wu: Id, p: Picks)
    requires ContextPicked(w, wu, p)
  {
    && wu in w.db.workUnits && p.result.Some? && p.report.Some?
    && AcceptedRecommendation(w.reports[p.report.value].body.recommendation)
    && p.plan.Some? && w.db.results[p.result.value].assignment in w.db.assignments
  }

  ghost function ContextTrouble(w: World, wu: Id, p: Picks): Trouble
    requires ContextPicked(w, wu, p) && !Accepted(w, wu, p)
  {
    if wu in w.db.workUnits && p.result.Some? && p.report.Some?
      && !AcceptedRecommendation(w.reports[p.report.value].body.recommendation)
    then NotAccepted else Missing
  }

  ghost predicate ReceiptAt(receipts: seq<ReceiptRow>, id: ReceiptId, k: int) {
    0 <= k < |receipts| && receipts[k].payload.id == id
  }

  ghost predicate HasReceipt(receipts: seq<ReceiptRow>, id: ReceiptId) { exists k :: ReceiptAt(receipts, id, k) }

  /** What _accepted_context hands on. */
  datatype Gathered = Gathered(wu: Id, routebook: string, row: ResultRow, report: ReportBody, plan: PlanRow)

  ghost function Gather(w: World, wu: Id, routebook: string, p: Picks): Gathered
    requires ContextPicked(w, wu, p) && Accepted(w, wu, p)
  {
    Gathered(wu, routebook, w.db.results[p.result.value], w.reports[p.report.value].body, w.plans[p.plan.value])
  }

  /** _build_receipt. */
  ghost function PayloadFrom(got: Gathered, usage: UsageBody, previous: Option<ReceiptHash>): Payload {
    Payload(ReceiptId(got.row.id, usage.id),
            got.wu, got.plan.id, got.row.assignment, got.row.id, got.report.id, usage.id,
            got.routebook, got.report.recommendation != V.Accept,
            got.plan.body, got.row, got.report, usage, previous)
  }

  ghost function BuildPayload(w: World, wu: Id, p: Picks, usage: UsageBody, routebook: string,
                              previous: Option<ReceiptHash>): Payload
    requires ContextPicked(w, wu, p) && Accepted(w, wu, p)
  {
    PayloadFrom(Gather(w, wu, routebook, p), usage, previous)
  }

  ghost function PreviousHash(w: World, p: Picks): Option<ReceiptHash>
    requires p.previous.Some? ==> p.previous.value < |w.receipts|
  {
    if p.previous.None? then None else Some(w.receipts[p.previous.value].hash)
  }

  /** Return the receipt with this id, or insert one; `mid` holds the usage entry already. */
  ghost function FinishReceipt(w: World, mid: World, wu: Id, p: Picks, usage: UsageBody, routebook: string,
                               now: string): Receipt
    requires ContextPicked(w, wu, p) && Accepted(w, wu, p) && (p.previous.Some? ==> p.previous.value < |w.receipts|)
  {
    var id := ReceiptId(w.db.results[p.result.value].id, usage.id);
    if HasReceipt(w.receipts, id) then
      var k :| ReceiptAt(w.receipts, id, k);
      Receipted(mid, w.receipts[k].payload)
    else
      var payload := BuildPayload(w, wu, p, usage, routebook, PreviousHash(w, p));
      Receipted(mid.(receipts := w.receipts + [ReceiptRow(payload, ReceiptHash(payload), now)],
                     db := Note(mid.db, OtherEvent("audit_receipt.created"))), payload)
  }

  /** create_for_work_unit. The usage entry commits in a transaction of its own. */
  ghost function CreateReceipt(w: World, wu: Id, named: Option<UsageId>, account: Option<Id>, routebook: string,
                               usageNow: string, now: string, p: Picks, rank: UsageId -> int): Receipt
    requires Picked(w, wu, p, rank)
  {
    if !Accepted(w, wu, p) then NoReceipt(w, ContextTrouble(w, wu, p))
    else
      match EnsureUsage(w, wu, named, account, routebook, usageNow, p, rank)
      case NoEntry(trouble) => NoReceipt(w, trouble)
      case Entered(mid, usage) =>
        FinishReceipt(w, mid, wu, p, usage, routebook, now)
  }

  ghost predicate ReportKnown(reports: seq<ReportRow>, id: Id, k: int) { 0 <= k < |reports| && reports[k].id == id }

  ghost function SaveReport(w: World, id: Id, result: Id, recommendation: V.Recommendation, now: string): World {
    var body := ReportBody(id, recommendation);
    if exists k :: ReportKnown(w.reports, id, k) then
      var k :| ReportKnown(w.reports, id, k);
      w.(reports := w.reports[k := w.reports[k].(body := body)])
    else if !ResultExists(w.db, result) then w
    else w.(reports := w.reports + [ReportRow(id, result, now, body)])
  }

  ghost predicate PlanKnown(plans: seq<PlanRow>, id: Id, k: int) { 0 <= k < |plans| && plans[k].id == id }

  ghost function SavePlan(w: World, id: Id, wu: Id, body: Json, now: string): World {
    var noted := w.(db := Note(w.db, OtherEvent("route_plan.created")));
    if exists k :: PlanKnown(w.plans, id, k) then
      var k :| PlanKnown(w.plans, id, k);
      noted.(plans := w.plans[k := w.plans[k].(body := body)])
    else if wu !in w.db.workUnits then w
    else noted.(plans := w.plans + [PlanRow(id, wu, now, body)])
  }
}
