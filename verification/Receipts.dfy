// Where every receipt comes from, and how receipts link to each other.

module Receipts {
  import opened Common
  import opened Hashes
  import opened TimeText
  import opened Scheduler
  import opened Integrity
  import opened StaleResults
  import opened Ledger
  import V = Verifier

  /////// What every ledger row says

  /** Row `j` is a succeeded result that was never quarantined. */
  ghost predicate GoodResult(db: Db, id: Id, wu: Id, j: int) {
    && 0 <= j < |db.results| && db.results[j].id == id && db.results[j].workUnit == wu
    && db.results[j].status == ResultSucceeded && id !in db.quarantine
  }

  ghost predicate UsageSound(db: Db, row: UsageRow) {
    row.body.id == row.id && exists j :: GoodResult(db, row.id.result, row.id.workUnit, j)
  }

  /** The receipt's snapshot of its result is still a stored row, and that row is good. */
  ghost predicate ResultNamed(db: Db, p: Payload, j: int) {
    GoodResult(db, p.result, p.workUnit, j) && db.results[j] == p.resultRow && db.results[j].assignment == p.assignment
  }

  ghost predicate ReceiptSound(db: Db, usage: seq<UsageRow>, row: ReceiptRow) {
    && row.hash == ReceiptHash(row.payload)
    && row.payload.id == ReceiptId(row.payload.result, row.payload.usage)
    && (exists j :: ResultNamed(db, row.payload, j))
    && row.payload.report == row.payload.reportBody.id && AcceptedRecommendation(row.payload.reportBody.recommendation)
    && (row.payload.withWarning <==> row.payload.reportBody.recommendation == V.AcceptWithWarning)
    && row.payload.usageBody.id == row.payload.usage && HasUsage(usage, row.payload.usage)
  }

  /** Receipt `j` is the one receipt `i` names as its predecessor. */
  ghost predicate LinkTo(receipts: seq<ReceiptRow>, i: int, j: int) {
    && 0 <= j < i < |receipts|
    && receipts[i].payload.previous == Some(receipts[j].hash)
    && receipts[j].payload.result != receipts[i].payload.result
  }

  ghost predicate Linked(receipts: seq<ReceiptRow>) {
    && (forall i :: 0 <= i < |receipts| ==>
          receipts[i].hash == ReceiptHash(receipts[i].payload)
          && (receipts[i].payload.previous.Some? ==> exists j :: LinkTo(receipts, i, j)))
    && (forall i, j :: 0 <= i < j < |receipts| ==> receipts[i].payload.id != receipts[j].payload.id)
  }

  ghost predicate UsageUnique(usage: seq<UsageRow>) {
    forall i, j :: 0 <= i < j < |usage| ==> usage[i].id != usage[j].id
  }

  ghost predicate LedgerInv(w: World) {
    && Interleaved(w.db) && |w.times| == |w.db.results|
    && UsageUnique(w.usage) && (forall k :: 0 <= k < |w.usage| ==> UsageSound(w.db, w.usage[k]))
    && Linked(w.receipts) && (forall i :: 0 <= i < |w.receipts| ==> ReceiptSound(w.db, w.usage, w.receipts[i]))
  }

  lemma GoodStays(before: Db, after: Db, id: Id, wu: Id, j: int)
    requires ResultsGrow(before, after) && GoodResult(before, id, wu, j)
    ensures GoodResult(after, id, wu, j) && after.results[j] == before.results[j]
  {
    assert after.results[j] == before.results[j];
  }

  /** Usage rows are never removed. */
  ghost predicate UsageGrows(before: seq<UsageRow>, after: seq<UsageRow>) {
    forall id :: HasUsage(before, id) ==> HasUsage(after, id)
  }

  lemma UsageStays(before: Db, after: Db, row: UsageRow)
    requires ResultsGrow(before, after) && UsageSound(before, row)
    ensures UsageSound(after, row)
  {
    var j :| GoodResult(before, row.id.result, row.id.workUnit, j);
    GoodStays(before, after, row.id.result, row.id.workUnit, j);
  }

  lemma ReceiptStays(before: Db, after: Db, usage: seq<UsageRow>, usage': seq<UsageRow>, row: ReceiptRow)
    requires ResultsGrow(before, after) && UsageGrows(usage, usage') && ReceiptSound(before, usage, row)
    ensures ReceiptSound(after, usage', row)
  {
    var j :| ResultNamed(before, row.payload, j);
    GoodStays(before, after, row.payload.result, row.payload.workUnit, j);
    assert ResultNamed(after, row.payload, j);
  }

  /** The database grows and nothing else of the ledger moves. */
  lemma DbMoves(w: World, after: World)
    requires LedgerInv(w) && Interleaved(after.db) && ResultsGrow(w.db, after.db)
    requires after.usage == w.usage && after.receipts == w.receipts && |after.times| == |after.db.results|
    ensures LedgerInv(after)
  {
    forall k | 0 <= k < |after.usage| ensures UsageSound(after.db, after.usage[k]) {
      UsageStays(w.db, after.db, w.usage[k]);
    }
    forall i | 0 <= i < |after.receipts| ensures ReceiptSound(after.db, after.usage, after.receipts[i]) {
      ReceiptStays(w.db, after.db, w.usage, after.usage, w.receipts[i]);
    }
  }

  /** A new row at the end, or the one row with this id under a new body, and nothing else. */
  lemma UpsertRows(usage: seq<UsageRow>, body: UsageBody, now: string)
    requires UsageUnique(usage)
    ensures var after := Upsert(usage, body, now);
            && UsageUnique(after) && UsageGrows(usage, after) && HasUsage(after, body.id)
            && (forall k :: 0 <= k < |after| ==> after[k].id == body.id || after[k] in usage)
            && (forall k :: 0 <= k < |after| && after[k].id == body.id ==> after[k].body == body)
            && (if HasUsage(usage, body.id) then |after| == |usage|
                else after == usage + [UsageRow(body.id, body.plan, now, body)])
            && (forall k :: 0 <= k < |usage| ==> after[k] == usage[k].(body := after[k].body))
            && (forall k :: 0 <= k < |usage| && usage[k].id != body.id ==> after[k] == usage[k])
  {
    var after := Upsert(usage, body, now);
    if HasUsage(usage, body.id) {
      var k :| UsageAt(usage, body.id, k);
      assert UsageAt(after, body.id, k);
      assert forall i :: 0 <= i < |usage| ==> after[i].id == usage[i].id;
    } else {
      forall k | 0 <= k < |usage| ensures usage[k].id != body.id { assert !UsageAt(usage, body.id, k); }
      assert UsageAt(after, body.id, |usage|);
    }
    forall id | HasUsage(usage, id) ensures HasUsage(after, id) {
      var k :| UsageAt(usage, id, k);
      assert UsageAt(after, id, k);
    }
  }

  /** A succeeded result of a work unit is good: quarantined rows have another status. */
  lemma PickedIsGood(w: World, wu: Id, p: Picks)
    requires LedgerInv(w) && ContextPicked(w, wu, p) && p.result.Some?
    ensures GoodResult(w.db, w.db.results[p.result.value].id, wu, p.result.value)
  {
    InterleavedRows(w.db);
    assert RowLinked(w.db, w.db.results[p.result.value]);
  }

  lemma RecordKeeps(w: World, wu: Id, account: Option<Id>, routebook: string, now: string, p: Picks)
    requires LedgerInv(w) && ContextPicked(w, wu, p)
    ensures var out := RecordUsage(w, wu, account, routebook, now, p);
            out.Entered? ==>
              LedgerInv(out.world) && HasUsage(out.world.usage, out.body.id) && out.world.db.results == w.db.results
                && out.world.db.quarantine == w.db.quarantine
  {
    var out := RecordUsage(w, wu, account, routebook, now, p);
    if out.Entered? {
      var after := out.world;
      NoteInterleaved(w.db, "usage_ledger_entry.recorded");
      UpsertRows(w.usage, out.body, now);
      PickedIsGood(w, wu, p);
      GoodStays(w.db, after.db, out.body.id.result, wu, p.result.value);
      forall k | 0 <= k < |after.usage| ensures UsageSound(after.db, after.usage[k]) {
        if after.usage[k].id != out.body.id { UsageStays(w.db, after.db, after.usage[k]); }
      }
      forall i | 0 <= i < |after.receipts| ensures ReceiptSound(after.db, after.usage, after.receipts[i]) {
        ReceiptStays(w.db, after.db, w.usage, after.usage, w.receipts[i]);
      }
    }
  }

  lemma EnsureKeeps(w: World, wu: Id, named: Option<UsageId>, account: Option<Id>, routebook: string, now: string,
                    p: Picks, rank: UsageId -> int)
    requires LedgerInv(w) && Picked(w, wu, p, rank)
    ensures var out := EnsureUsage(w, wu, named, account, routebook, now, p, rank);
            out.Entered? ==>
              && LedgerInv(out.world) && HasUsage(out.world.usage, out.body.id) && out.world.db.results == w.db.results
              && out.world.db.quarantine == w.db.quarantine
              && out.world.receipts == w.receipts
  {
    RecordKeeps(w, wu, account, routebook, now, p);
    var out := EnsureUsage(w, wu, named, account, routebook, now, p, rank);
    if out.Entered? && named.Some? {
      var k :| UsageAt(w.usage, named.value, k) && w.usage[k].body == out.body;
      assert UsageSound(w.db, w.usage[k]);
    } else if out.Entered? && p.usage.Some? && (account.None? || w.usage[p.usage.value].body.id.account == account) {
      assert UsageSound(w.db, w.usage[p.usage.value]);
      assert UsageAt(w.usage, out.body.id, p.usage.value);
    }
  }

  /** Appending one receipt that fits. */
  lemma AppendReceipt(w: World, after: World, row: ReceiptRow)
    requires LedgerInv(w) && Interleaved(after.db) && ResultsGrow(w.db, after.db) && |after.times| == |after.db.results|
    requires after.usage == w.usage && after.receipts == w.receipts + [row]
    requires ReceiptSound(after.db, after.usage, row) && !HasReceipt(w.receipts, row.payload.id)
    requires row.payload.previous.Some? ==>
               exists j ::
                 0 <= j < |w.receipts| && w.receipts[j].hash == row.payload.previous.value
                   && w.receipts[j].payload.result != row.payload.result
    ensures LedgerInv(after)
  {
    var n := |w.receipts|;
    forall k | 0 <= k < |after.usage| ensures UsageSound(after.db, after.usage[k]) {
      UsageStays(w.db, after.db, w.usage[k]);
    }
    forall i | 0 <= i < |after.receipts| ensures ReceiptSound(after.db, after.usage, after.receipts[i]) {
      if i < n { ReceiptStays(w.db, after.db, w.usage, after.usage, w.receipts[i]); }
    }
    AppendLinked(w.receipts, row);
  }

  lemma AppendLinked(receipts: seq<ReceiptRow>, row: ReceiptRow)
    requires Linked(receipts) && row.hash == ReceiptHash(row.payload) && !HasReceipt(receipts, row.payload.id)
    requires row.payload.previous.Some? ==>
               exists j ::
                 0 <= j < |receipts| && receipts[j].hash == row.payload.previous.value
                   && receipts[j].payload.result != row.payload.result
    ensures Linked(receipts + [row])
  {
    var after := receipts + [row];
    forall i | 0 <= i < |after| && after[i].payload.previous.Some? ensures exists j :: LinkTo(after, i, j) {
      if i < |receipts| {
        var j :| LinkTo(receipts, i, j);
        assert LinkTo(after, i, j);
      } else {
        var j :| 0 <= j < |receipts| && receipts[j].hash == row.payload.previous.value
          && receipts[j].payload.result != row.payload.result;
        assert LinkTo(after, i, j);
      }
    }
    forall i | 0 <= i < |receipts| ensures receipts[i].payload.id != row.payload.id {
      assert !ReceiptAt(receipts, row.payload.id, i);
    }
  }

  /** A new receipt is sound, and an old one is returned untouched. */
  lemma ReceiptKeeps(w: World, wu: Id, named: Option<UsageId>, account: Option<Id>, routebook: string,
                    usageNow: string, now: string, p: Picks, rank: UsageId -> int)
    requires LedgerInv(w) && Picked(w, wu, p, rank)
    ensures LedgerInv(CreateReceipt(w, wu, named, account, routebook, usageNow, now, p, rank).world)
  {
    if Accepted(w, wu, p) {
      EnsureKeeps(w, wu, named, account, routebook, usageNow, p, rank);
      var entry := EnsureUsage(w, wu, named, account, routebook, usageNow, p, rank);
      if entry.Entered? { FinishKeeps(w, entry.world, wu, p, entry.body, routebook, now, rank); }
    }
  }

  lemma FinishKeeps(w: World, mid: World, wu: Id, p: Picks, usage: UsageBody, routebook: string, now: string,
                    rank: UsageId -> int)
    requires LedgerInv(w) && LedgerInv(mid) && Picked(w, wu, p, rank) && Accepted(w, wu, p)
    requires HasUsage(mid.usage, usage.id) && mid.receipts == w.receipts
    requires mid.db.results == w.db.results && mid.db.quarantine == w.db.quarantine
    ensures p.previous.Some? ==> p.previous.value < |w.receipts|
    ensures LedgerInv(FinishReceipt(w, mid, wu, p, usage, routebook, now).world)
  {
    if p.previous.Some? { PreviousExists(w, wu, p, rank); }
    var out := FinishReceipt(w, mid, wu, p, usage, routebook, now);
    if !HasReceipt(w.receipts, ReceiptId(w.db.results[p.result.value].id, usage.id)) {
      NoteInterleaved(mid.db, "audit_receipt.created");
      BuiltIsSound(w, wu, p, usage, routebook, mid, out.world.db);
      AppendReceipt(mid, out.world, out.world.receipts[|w.receipts|]);
    }
  }

  lemma BuiltIsSound(w: World, wu: Id, p: Picks, usage: UsageBody, routebook: string, mid: World, db: Db)
    requires LedgerInv(w) && ContextPicked(w, wu, p) && Accepted(w, wu, p)
    requires HasUsage(mid.usage, usage.id) && db.results == w.db.results && db.quarantine == w.db.quarantine
    ensures forall previous, at ::
              var payload := BuildPayload(w, wu, p, usage, routebook, previous);
              ReceiptSound(db, mid.usage, ReceiptRow(payload, ReceiptHash(payload), at))
  {
    PickedIsGood(w, wu, p);
    forall previous, at
      ensures var payload := BuildPayload(w, wu, p, usage, routebook, previous);
              ReceiptSound(db, mid.usage, ReceiptRow(payload, ReceiptHash(payload), at))
    {
      var payload := BuildPayload(w, wu, p, usage, routebook, previous);
      assert ResultNamed(db, payload, p.result.value);
    }
  }

  lemma PreviousExists(w: World, wu: Id, p: Picks, rank: UsageId -> int)
    requires LedgerInv(w) && Picked(w, wu, p, rank) && p.result.Some? && p.previous.Some?
    ensures p.previous.value < |w.receipts|
    ensures w.receipts[p.previous.value].payload.result != w.db.results[p.result.value].id
  {
    assert ReceiptStamps(w.receipts, w.db.results[p.result.value].id)[p.previous.value].Some?;
  }

  ghost predicate SameTables(before: Db, after: Db) {
    && after.results == before.results && after.quarantine == before.quarantine
    && after.assignments == before.assignments && after.attempts == before.attempts
    && after.workUnits == before.workUnits
  }

  lemma EnsureLeavesTables(w: World, wu: Id, named: Option<UsageId>, account: Option<Id>, routebook: string,
                           now: string, p: Picks, rank: UsageId -> int)
    requires Picked(w, wu, p, rank)
    ensures var out := EnsureUsage(w, wu, named, account, routebook, now, p, rank);
            out.Entered? ==>
              && SameTables(w.db, out.world.db) && out.world.receipts == w.receipts && out.world.times == w.times
              && out.world.reports == w.reports && out.world.plans == w.plans && out.world.accounts == w.accounts
  {
  }

  lemma CreateLeavesTables(w: World, wu: Id, named: Option<UsageId>, account: Option<Id>, routebook: string,
                           usageNow: string, now: string, p: Picks, rank: UsageId -> int)
    requires Picked(w, wu, p, rank)
    ensures SameTables(w.db, CreateReceipt(w, wu, named, account, routebook, usageNow, now, p, rank).world.db)
  {
    EnsureLeavesTables(w, wu, named, account, routebook, usageNow, p, rank);
  }

  /////// The chain of receipts

  /** Follow previous_receipt_hash from receipt `i` by looking each hash up in the table. */
  ghost function WalkBack(receipts: seq<ReceiptRow>, i: nat): seq<nat>
    requires Linked(receipts) && i < |receipts|
  {
    if receipts[i].payload.previous.None? then [i]
    else
      var j :| LinkTo(receipts, i, j);
      [i] + WalkBack(receipts, j)
  }

  /** A hash names at most one receipt, so the walk has no choice. */
  lemma HashNamesOne(receipts: seq<ReceiptRow>, i: nat, j: nat)
    requires Linked(receipts) && i < |receipts| && j < |receipts| && receipts[i].hash == receipts[j].hash
    ensures i == j
  {
    assert receipts[i].payload == receipts[j].payload;
  }

  /** Walking back visits strictly earlier receipts, each of another result than the one before,
      and ends at a receipt with no predecessor. */
  lemma {:induction false} WalkEnds(receipts: seq<ReceiptRow>, i: nat)
    requires Linked(receipts) && i < |receipts|
    ensures var walk := WalkBack(receipts, i);
            && 1 <= |walk| <= i + 1 && walk[0] == i
            && (forall n :: 0 <= n < |walk| ==> walk[n] <= i)
            && (forall n :: 0 <= n < |walk| - 1 ==> LinkTo(receipts, walk[n], walk[n + 1]))
            && receipts[walk[|walk| - 1]].payload.previous.None?
    decreases i
  {
    if receipts[i].payload.previous.Some? {
      var walk := WalkBack(receipts, i);
      assert LinkTo(receipts, i, walk[1]) by { WalkHead(receipts, i); }
      WalkEnds(receipts, walk[1]);
      WalkHead(receipts, i);
    }
  }

  lemma WalkHead(receipts: seq<ReceiptRow>, i: nat)
    requires Linked(receipts) && i < |receipts| && receipts[i].payload.previous.Some?
    ensures var walk := WalkBack(receipts, i);
            |walk| > 1 && LinkTo(receipts, i, walk[1]) && walk == [i] + WalkBack(receipts, walk[1])
  {
    var j :| LinkTo(receipts, i, j) && WalkBack(receipts, i) == [i] + WalkBack(receipts, j);
  }

  /** Two stores, of this system or of two copies of it, that show the same receipt hash agree on
      the whole history behind it. */
  lemma {:induction false} EqualHashesEqualChains(r1: seq<ReceiptRow>, i: nat, r2: seq<ReceiptRow>, j: nat)
    requires Linked(r1) && Linked(r2) && i < |r1| && j < |r2| && r1[i].hash == r2[j].hash
    ensures var walk1, walk2 := WalkBack(r1, i), WalkBack(r2, j);
            && |walk1| == |walk2|
            && forall n :: 0 <= n < |walk1| ==>
              walk1[n] < |r1| && walk2[n] < |r2| && r1[walk1[n]].payload == r2[walk2[n]].payload
    decreases i
  {
    assert r1[i].payload == r2[j].payload;
    if r1[i].payload.previous.Some? {
      WalkHead(r1, i);
      WalkHead(r2, j);
      EqualHashesEqualChains(r1, WalkBack(r1, i)[1], r2, WalkBack(r2, j)[1]);
    }
  }

  /////// Asking twice

  ghost predicate Injective(rank: UsageId -> int) { forall x, y :: rank(x) == rank(y) ==> x == y }

  /** The entries' order is total, so the latest entry is determined. */
  lemma LatestEntryUnique(usage: seq<UsageRow>, wu: Id, rank: UsageId -> int, k: nat, l: nat)
    requires UsageUnique(usage) && Injective(rank)
    requires Chosen(UsageStamps(usage, wu, rank), Some(k)) && Chosen(UsageStamps(usage, wu, rank), Some(l))
    ensures k == l
  {
    TextTotal(usage[k].createdAt, usage[l].createdAt);
  }

  /** Everything a receipt is built from, apart from the usage entries, is the same. */
  ghost predicate SameSources(w: World, w': World, p: Picks, p': Picks) {
    && SameTables(w.db, w'.db) && w'.times == w.times && w'.reports == w.reports && w'.plans == w.plans
    && w'.accounts == w.accounts
    && p'.result == p.result && p'.report == p.report && p'.plan == p.plan
  }

  /** After an upsert the latest entry is the one upserted, or the latest as before. */
  lemma UpsertLatest(usage: seq<UsageRow>, body: UsageBody, now: string, rank: UsageId -> int, k: nat)
    requires UsageUnique(usage) && Chosen(UsageStamps(Upsert(usage, body, now), body.id.workUnit, rank), Some(k))
    ensures k < |Upsert(usage, body, now)|
    ensures || Upsert(usage, body, now)[k].id == body.id
            || (k < |usage| && Upsert(usage, body, now)[k] == usage[k]
                && Chosen(UsageStamps(usage, body.id.workUnit, rank), Some(k)))
  {
    var after := Upsert(usage, body, now);
    var stamps, stamps' := UsageStamps(usage, body.id.workUnit, rank), UsageStamps(after, body.id.workUnit, rank);
    forall j | 0 <= j < |usage| ensures stamps[j] == stamps'[j] {}
  }

  lemma UpsertAgain(usage: seq<UsageRow>, body: UsageBody, now: string, now': string)
    requires UsageUnique(usage)
    ensures Upsert(Upsert(usage, body, now), body, now') == Upsert(usage, body, now)
  {
    UpsertRows(usage, body, now);
    var after := Upsert(usage, body, now);
    var k :| UsageAt(after, body.id, k) && Upsert(after, body, now') == after[k := after[k].(body := body)];
    assert after[k].(body := body) == after[k];
  }

  lemma RecordTwice(w: World, w': World, wu: Id, account: Option<Id>, routebook: string, now: string, now': string,
                    p: Picks, p': Picks, rank: UsageId -> int)
    requires UsageUnique(w.usage) && Injective(rank) && Picked(w, wu, p, rank) && Picked(w', wu, p', rank)
    requires SameSources(w, w', p, p')
    requires p.usage.Some? ==> account.Some? && w.usage[p.usage.value].body.id.account != account
    requires forall k :: 0 <= k < |w.usage| ==> w.usage[k].body.id == w.usage[k].id
    requires var out := RecordUsage(w, wu, account, routebook, now, p); out.Entered? && w'.usage == out.world.usage
    ensures var again := EnsureUsage(w', wu, None, account, routebook, now', p', rank);
            && again.Entered? && again.body == RecordUsage(w, wu, account, routebook, now, p).body
            && again.world.usage == w'.usage
  {
    var body := RecordUsage(w, wu, account, routebook, now, p).body;
    UpsertRows(w.usage, body, now);
    UpsertAgain(w.usage, body, now, now');
    var at :| UsageAt(w'.usage, body.id, at);
    assert UsageStamps(w'.usage, wu, rank)[at].Some?;
    UpsertLatest(w.usage, body, now, rank, p'.usage.value);
    if w'.usage[p'.usage.value].id != body.id {
      LatestEntryUnique(w.usage, wu, rank, p.usage.value, p'.usage.value);
    }
  }

  lemma EnsureTwice(w: World, w': World, wu: Id, named: Option<UsageId>, account: Option<Id>, routebook: string,
                    now: string, now': string,
                    p: Picks, p': Picks, rank: UsageId -> int)
    requires UsageUnique(w.usage) && Injective(rank) && Picked(w, wu, p, rank) && Picked(w', wu, p', rank)
    requires SameSources(w, w', p, p')
    requires forall k :: 0 <= k < |w.usage| ==> w.usage[k].body.id == w.usage[k].id
    requires var out := EnsureUsage(w, wu, named, account, routebook, now, p, rank);
             out.Entered? && w'.usage == out.world.usage
    ensures var again := EnsureUsage(w', wu, named, account, routebook, now', p', rank);
            && again.Entered? && again.body == EnsureUsage(w, wu, named, account, routebook, now, p, rank).body
            && again.world.usage == w'.usage
  {
    if named.Some? {
      assert forall k, l :: UsageAt(w.usage, named.value, k) && UsageAt(w.usage, named.value, l) ==> k == l;
    } else if p.usage.Some? && (account.None? || w.usage[p.usage.value].body.id.account == account) {
      assert p'.usage.Some? by { assert UsageStamps(w.usage, wu, rank)[p.usage.value].Some?; }
      LatestEntryUnique(w.usage, wu, rank, p.usage.value, p'.usage.value);
    } else {
      RecordTwice(w, w', wu, account, routebook, now, now', p, p', rank);
    }
  }

  /** Repeating create_for_work_unit with unchanged inputs, at any later time, returns the same
      receipt and changes neither receipts nor usage entries. */
  lemma CreateTwice(w: World, wu: Id, named: Option<UsageId>, account: Option<Id>, routebook: string, usageNow: string,
                    now: string,
                    usageNow': string, now': string, p: Picks, p': Picks, rank: UsageId -> int)
    requires LedgerInv(w) && Injective(rank) && Picked(w, wu, p, rank)
    requires CreateReceipt(w, wu, named, account, routebook, usageNow, now, p, rank).Receipted?
    requires var w' := CreateReceipt(w, wu, named, account, routebook, usageNow, now, p, rank).world;
             Picked(w', wu, p', rank) && p'.result == p.result && p'.report == p.report && p'.plan == p.plan
    ensures var first := CreateReceipt(w, wu, named, account, routebook, usageNow, now, p, rank);
            var again := CreateReceipt(first.world, wu, named, account, routebook, usageNow', now', p', rank);
            && again.Receipted? && again.payload == first.payload
            && again.world.receipts == first.world.receipts && again.world.usage == first.world.usage
  {
    var first := CreateReceipt(w, wu, named, account, routebook, usageNow, now, p, rank);
    var entry := EnsureUsage(w, wu, named, account, routebook, usageNow, p, rank);
    CreateSources(w, wu, named, account, routebook, usageNow, now, p, p', rank);
    forall k | 0 <= k < |w.usage| ensures w.usage[k].body.id == w.usage[k].id { assert UsageSound(w.db, w.usage[k]); }
    EnsureTwice(w, first.world, wu, named, account, routebook, usageNow, usageNow', p, p', rank);
    var id := ReceiptId(w.db.results[p.result.value].id, entry.body.id);
    ReceiptReturned(w, wu, named, account, routebook, usageNow, now, p, rank, id);
    FoundAgain(first.world, wu, named, account, routebook, usageNow', now', p', rank, id, first.payload);
  }

  lemma CreateSources(w: World, wu: Id, named: Option<UsageId>, account: Option<Id>, routebook: string,
                      usageNow: string, now: string,
                      p: Picks, p': Picks, rank: UsageId -> int)
    requires Picked(w, wu, p, rank)
             && CreateReceipt(w, wu, named, account, routebook, usageNow, now, p, rank).Receipted?
    requires p'.result == p.result && p'.report == p.report && p'.plan == p.plan
    ensures var after := CreateReceipt(w, wu, named, account, routebook, usageNow, now, p, rank).world;
            var entry := EnsureUsage(w, wu, named, account, routebook, usageNow, p, rank);
            Accepted(w, wu, p) && SameSources(w, after, p, p') && entry.Entered? && after.usage == entry.world.usage
  {
    EnsureLeavesTables(w, wu, named, account, routebook, usageNow, p, rank);
  }

  lemma FoundAgain(w: World, wu: Id, named: Option<UsageId>, account: Option<Id>, routebook: string, usageNow: string,
                   now: string,
                   p: Picks, rank: UsageId -> int, id: ReceiptId, payload: Payload)
    requires Picked(w, wu, p, rank) && Accepted(w, wu, p)
    requires var entry := EnsureUsage(w, wu, named, account, routebook, usageNow, p, rank);
             entry.Entered? && id == ReceiptId(w.db.results[p.result.value].id, entry.body.id)
               && entry.world.usage == w.usage
    requires HasReceipt(w.receipts, id) && forall k :: ReceiptAt(w.receipts, id, k) ==> w.receipts[k].payload == payload
    ensures var out := CreateReceipt(w, wu, named, account, routebook, usageNow, now, p, rank);
            out.Receipted? && out.payload == payload && out.world.receipts == w.receipts && out.world.usage == w.usage
  {
    EnsureLeavesTables(w, wu, named, account, routebook, usageNow, p, rank);
  }

  /** What create_for_work_unit returns is in the table under its id. */
  lemma ReceiptReturned(w: World, wu: Id, named: Option<UsageId>, account: Option<Id>, routebook: string,
                        usageNow: string, now: string,
                        p: Picks, rank: UsageId -> int, id: ReceiptId)
    requires LedgerInv(w) && Picked(w, wu, p, rank)
    requires CreateReceipt(w, wu, named, account, routebook, usageNow, now, p, rank).Receipted?
    requires id == ReceiptId(w.db.results[p.result.value].id,
                             EnsureUsage(w, wu, named, account, routebook, usageNow, p, rank).body.id)
    ensures var out := CreateReceipt(w, wu, named, account, routebook, usageNow, now, p, rank);
            && HasReceipt(out.world.receipts, id)
            && forall k :: ReceiptAt(out.world.receipts, id, k) ==> out.world.receipts[k].payload == out.payload
  {
    var out := CreateReceipt(w, wu, named, account, routebook, usageNow, now, p, rank);
    EnsureLeavesTables(w, wu, named, account, routebook, usageNow, p, rank);
    if HasReceipt(w.receipts, id) {
      var k :| ReceiptAt(w.receipts, id, k);
      assert ReceiptAt(out.world.receipts, id, k);
    } else {
      assert ReceiptAt(out.world.receipts, id, |w.receipts|);
      forall k | 0 <= k < |w.receipts| ensures w.receipts[k].payload.id != id { assert !ReceiptAt(w.receipts, id, k); }
    }
  }

  /** The entry that will be named, if one exists already: named outright, or the latest that fits. */
  ghost function EntryBefore(w: World, wu: Id, named: Option<UsageId>, account: Option<Id>, p: Picks,
                             rank: UsageId -> int): Option<UsageId>
    requires Picked(w, wu, p, rank)
  {
    if named.Some? then named
    else if p.usage.Some?
      && (account.None? || w.usage[p.usage.value].body.id.account == account) then Some(w.usage[p.usage.value].id)
    else None
  }

  /** The entry a receipt names is the one there before, or a new one for this very result. */
  lemma UsageNamed(w: World, wu: Id, named: Option<UsageId>, account: Option<Id>, routebook: string, usageNow: string,
                   now: string,
                   p: Picks, rank: UsageId -> int)
    requires LedgerInv(w) && Picked(w, wu, p, rank)
    requires CreateReceipt(w, wu, named, account, routebook, usageNow, now, p, rank).Receipted?
    ensures var payload := CreateReceipt(w, wu, named, account, routebook, usageNow, now, p, rank).payload;
            && p.result.Some? && payload.result == w.db.results[p.result.value].id
            && match EntryBefore(w, wu, named, account, p, rank)
               case Some(id) => payload.usage == id
               case None => payload.usage.workUnit == wu && payload.usage.result == payload.result
  {
    var entry := EnsureUsage(w, wu, named, account, routebook, usageNow, p, rank);
    EntryNamed(w, wu, named, account, routebook, usageNow, p, rank);
    var id := ReceiptId(w.db.results[p.result.value].id, entry.body.id);
    forall k | ReceiptAt(w.receipts, id, k)
      ensures w.receipts[k].payload.usage == entry.body.id && w.receipts[k].payload.result == id.result
    {
      assert ReceiptSound(w.db, w.usage, w.receipts[k]);
    }
  }

  lemma EntryNamed(w: World, wu: Id, named: Option<UsageId>, account: Option<Id>, routebook: string, usageNow: string,
                   p: Picks, rank: UsageId -> int)
    requires LedgerInv(w) && Picked(w, wu, p, rank)
    requires EnsureUsage(w, wu, named, account, routebook, usageNow, p, rank).Entered?
    ensures var body := EnsureUsage(w, wu, named, account, routebook, usageNow, p, rank).body;
            match EntryBefore(w, wu, named, account, p, rank)
            case Some(id) => body.id == id
            case None => p.result.Some? && body.id.workUnit == wu && body.id.result == w.db.results[p.result.value].id
  {
    forall k | 0 <= k < |w.usage| ensures w.usage[k].body.id == w.usage[k].id { assert UsageSound(w.db, w.usage[k]); }
  }

  /** Whatever entry the caller names, of any work unit and any result, the receipt takes it. */
  lemma AnyEntryNamed(w: World, wu: Id, named: UsageId, account: Option<Id>, routebook: string, usageNow: string,
                      now: string,
                      p: Picks, rank: UsageId -> int)
    requires LedgerInv(w) && Picked(w, wu, p, rank) && Accepted(w, wu, p) && HasUsage(w.usage, named)
    ensures var out := CreateReceipt(w, wu, Some(named), account, routebook, usageNow, now, p, rank);
            out.Receipted? && out.payload.workUnit == wu && out.payload.usage == named
  {
    EntryNamed(w, wu, Some(named), account, routebook, usageNow, p, rank);
    UsageNamed(w, wu, Some(named), account, routebook, usageNow, now, p, rank);
    var id := ReceiptId(w.db.results[p.result.value].id, named);
    forall k | ReceiptAt(w.receipts, id, k) ensures w.receipts[k].payload.workUnit == wu {
      ReceiptUnit(w, wu, p, k);
    }
  }

  /** A receipt of a result is a receipt of that result's work unit: result ids are unique. */
  lemma ReceiptUnit(w: World, wu: Id, p: Picks, k: nat)
    requires LedgerInv(w) && ContextPicked(w, wu, p) && p.result.Some? && k < |w.receipts|
    requires w.receipts[k].payload.result == w.db.results[p.result.value].id
    ensures w.receipts[k].payload.workUnit == wu
  {
    assert ReceiptSound(w.db, w.usage, w.receipts[k]);
    var j :| ResultNamed(w.db, w.receipts[k].payload, j);
    InterleavedRows(w.db);
  }

  /** The entry a receipt names belongs to its work unit exactly when it was recorded just now or
      the entry found says so; for a work unit with a name that means it was not named outright or
      was named right. It was recorded for its result exactly when it was recorded just now or the
      entry found says so: nothing compares them. */
  lemma UsageBelongs(w: World, wu: Id, named: Option<UsageId>, account: Option<Id>, routebook: string,
                     usageNow: string, now: string,
                     p: Picks, rank: UsageId -> int)
    requires LedgerInv(w) && Picked(w, wu, p, rank)
    requires CreateReceipt(w, wu, named, account, routebook, usageNow, now, p, rank).Receipted?
    ensures var payload := CreateReceipt(w, wu, named, account, routebook, usageNow, now, p, rank).payload;
            var before := EntryBefore(w, wu, named, account, p, rank);
            && (payload.usage.workUnit == wu <==> before.None? || before.value.workUnit == wu)
            && (wu.text != "" ==> (payload.usage.workUnit == wu <==> named.None? || named.value.workUnit == wu))
            && (payload.usage.result == payload.result <==>
                  before.None? || (p.result.Some? && before.value.result == w.db.results[p.result.value].id))
  {
    UsageNamed(w, wu, named, account, routebook, usageNow, now, p, rank);
    if named.None? && p.usage.Some? { assert UsageStamps(w.usage, wu, rank)[p.usage.value].Some?; }
  }
}
