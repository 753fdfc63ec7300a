// The ledger's calls step by step against the same calls as a whole: when nothing
// comes in between, reading the context, finding the entry, recording it, finding
// the receipt to link to and inserting is exactly create_for_work_unit.

module LedgerSplits {
  import opened Common
  import opened Ledger
  import opened LedgerRuns
  import opened Receipts

  /** The draft of a call that began with `drafts` open is the last one. */
  ghost function Opened(m: Machine, world: World, draft: Draft): Machine {
    m.(world := world, drafts := m.drafts + [draft])
  }

  lemma DraftEnds(m: Machine, draft: Draft)
    ensures Without(m.drafts + [draft], |m.drafts|) == m.drafts
    ensures forall next :: (m.drafts + [draft])[|m.drafts| := next] == m.drafts + [next]
  {
  }

  /** From an entry found to the end of the call. */
  lemma FinishSplit(m: Machine, mid: World, call: Call, p: Picks, usage: UsageBody, receiptTime: string,
                    rank: UsageId -> int)
    requires Picked(m.world, call.wu, p, rank) && Accepted(m.world, call.wu, p) && mid.receipts == m.world.receipts
    requires p.previous.Some? ==> p.previous.value < |m.world.receipts|
    ensures var at, got := |m.drafts|, Gather(m.world, call.wu, call.routebook, p);
            var found := StepLedger(Opened(m, mid, EntryFound(got, usage)), FindPrevious(at, p.previous), rank);
            StepLedger(found, CommitReceipt(at, receiptTime), rank) ==
            m.(world := FinishReceipt(m.world, mid, call.wu, p, usage, call.routebook, receiptTime).world)
  {
    var at, got := |m.drafts|, Gather(m.world, call.wu, call.routebook, p);
    DraftEnds(m, EntryFound(got, usage));
    var payload := PayloadFrom(got, usage, PreviousHash(m.world, p));
    DraftEnds(m, ReceiptReady(got, payload));
  }

  /** From a context read to an entry found, or to the end. */
  lemma EntrySplit(m: Machine, call: Call, p: Picks, entryTime: string, rank: UsageId -> int)
    requires UsageUnique(m.world.usage) && Picked(m.world, call.wu, p, rank) && Accepted(m.world, call.wu, p)
    ensures var at, got := |m.drafts|, Gather(m.world, call.wu, call.routebook, p);
            var entry := StepLedger(Opened(m, m.world, ContextRead(call, got)), FindEntry(at, p), rank);
            StepLedger(entry, CommitUsage(at, entryTime), rank) ==
            match EnsureUsage(m.world, call.wu, call.named, call.account, call.routebook, entryTime, p, rank)
            case Entered(mid, usage) => Opened(m, mid, EntryFound(got, usage))
            case NoEntry(_) => m
  {
    var w, got := m.world, Gather(m.world, call.wu, call.routebook, p);
    DraftEnds(m, ContextRead(call, got));
    var next := AfterContext(w, call, got, p, rank);
    if next.Some? { DraftEnds(m, next.value); }
    if call.named.Some? && HasUsage(w.usage, call.named.value) {
      assert forall k, l :: UsageAt(w.usage, call.named.value, k) && UsageAt(w.usage, call.named.value, l) ==> k == l;
    }
  }

  /** Main result: the steps of a call, with nothing in between, are the whole call, whatever other
      calls are under way. */
  lemma SplitIsWhole(m: Machine, call: Call, entryTime: string, receiptTime: string, p: Picks, rank: UsageId -> int)
    requires UsageUnique(m.world.usage) && Picked(m.world, call.wu, p, rank)
    ensures var at := |m.drafts|;
            var read := StepLedger(m, ReadContext(call, p), rank);
            var entry := StepLedger(read, FindEntry(at, p), rank);
            var recorded := StepLedger(entry, CommitUsage(at, entryTime), rank);
            var found := StepLedger(recorded, FindPrevious(at, p.previous), rank);
            StepLedger(found, CommitReceipt(at, receiptTime), rank) ==
            StepLedger(m, DoReceipt(call, entryTime, receiptTime, p), rank)
  {
    NothingOpen(m, entryTime, receiptTime, p, rank);
    if Accepted(m.world, call.wu, p) {
      EntrySplit(m, call, p, entryTime, rank);
      AcceptedSplit(m, call, entryTime, receiptTime, p, rank);
    }
  }

  /** From the entry on, for a work unit that is accepted. */
  lemma AcceptedSplit(m: Machine, call: Call, entryTime: string, receiptTime: string, p: Picks, rank: UsageId -> int)
    requires Picked(m.world, call.wu, p, rank) && Accepted(m.world, call.wu, p)
    ensures var at, got := |m.drafts|, Gather(m.world, call.wu, call.routebook, p);
            var recorded :=
              match EnsureUsage(m.world, call.wu, call.named, call.account, call.routebook, entryTime, p, rank)
              case Entered(mid, usage) => Opened(m, mid, EntryFound(got, usage))
              case NoEntry(_) => m;
            var found := StepLedger(recorded, FindPrevious(at, p.previous), rank);
            StepLedger(found, CommitReceipt(at, receiptTime), rank) ==
            m.(world := WholeReceipt(m.world, call, entryTime, receiptTime, p, rank))
  {
    var entry := EnsureUsage(m.world, call.wu, call.named, call.account, call.routebook, entryTime, p, rank);
    if entry.Entered? {
      PreviousInRange(m.world, call.wu, p, rank);
      EnsureLeavesTables(m.world, call.wu, call.named, call.account, call.routebook, entryTime, p, rank);
      FinishSplit(m, entry.world, call, p, entry.body, receiptTime, rank);
    } else {
      NothingOpen(m, entryTime, receiptTime, p, rank);
    }
  }

  /** The later steps of a call that has no draft open find none. */
  lemma NothingOpen(m: Machine, entryTime: string, receiptTime: string, p: Picks, rank: UsageId -> int)
    ensures StepLedger(m, FindEntry(|m.drafts|, p), rank) == m
    ensures StepLedger(m, CommitUsage(|m.drafts|, entryTime), rank) == m
    ensures StepLedger(m, FindPrevious(|m.drafts|, p.previous), rank) == m
    ensures StepLedger(m, CommitReceipt(|m.drafts|, receiptTime), rank) == m
  {
  }

  lemma PreviousInRange(w: World, wu: Id, p: Picks, rank: UsageId -> int)
    requires Picked(w, wu, p, rank) && p.result.Some?
    ensures p.previous.Some? ==> p.previous.value < |w.receipts|
  {
  }
}
