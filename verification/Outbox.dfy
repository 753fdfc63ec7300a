// The transactional event outbox and its flush to a JSONL file.

module Outbox {
  import opened Scheduler

  datatype FlushStatus = Pending | Written | WriteFailed

  datatype OutboxRow = OutboxRow(event: Event, sequence: nat, status: FlushStatus, failures: nat)

  /** The outbox table and the file; a file line is known by the sequence of its event. */
  datatype Channel = Channel(rows: seq<OutboxRow>, file: seq<nat>)

  function Events(rows: seq<OutboxRow>): seq<Event> {
    seq(|rows|, i requires 0 <= i < |rows| => rows[i].event)
  }

  ghost predicate Numbered(rows: seq<OutboxRow>) {
    forall i :: 0 <= i < |rows| ==> rows[i].sequence == i + 1
  }

  /** The non-pending rows are exactly the first `k`. */
  ghost predicate PendingFrom(rows: seq<OutboxRow>, k: nat) {
    && k <= |rows|
    && (forall i :: 0 <= i < k ==> rows[i].status != Pending)
    && (forall i :: k <= i < |rows| ==> rows[i].status == Pending)
  }

  /** The sequences of the written rows, in table order. */
  function WrittenSequences(rows: seq<OutboxRow>): seq<nat> {
    if rows == [] then []
    else
      var last := rows[|rows| - 1];
      WrittenSequences(rows[..|rows| - 1]) + if last.status == Written then [last.sequence] else []
  }

  ghost predicate NonDecreasing(s: seq<nat>) { forall i, j :: 0 <= i < j < |s| ==> s[i] <= s[j] }
  ghost predicate Increasing(s: seq<nat>) { forall i, j :: 0 <= i < j < |s| ==> s[i] < s[j] }

  /////// Steps on the channel

  function EnqueueRow(rows: seq<OutboxRow>, ev: Event): seq<OutboxRow> {
    rows + [OutboxRow(ev, |rows| + 1, Pending, 0)]
  }

  function MarkWritten(rows: seq<OutboxRow>, k: nat): seq<OutboxRow>
    requires k < |rows|
  {
    rows[k := rows[k].(status := Written)]
  }

  function MarkFailed(rows: seq<OutboxRow>, k: nat): seq<OutboxRow>
    requires k < |rows|
  {
    rows[k := rows[k].(status := WriteFailed, failures := rows[k].failures + 1)]
  }

  /** The flusher handles row `k`: the append works and the row is marked, or it fails. */
  function FlushRow(c: Channel, k: nat, ok: bool): Channel
    requires k < |c.rows|
  {
    if ok then Channel(MarkWritten(c.rows, k), c.file + [c.rows[k].sequence])
    else Channel(MarkFailed(c.rows, k), c.file)
  }

  datatype ChannelStep =
    | Enqueue(event: Event)
    | Flush(ok: bool)      // one row of some flush: the oldest pending one
    | CrashAfterAppend     // the line reaches the file, the row is never marked

  ghost function FirstPending(rows: seq<OutboxRow>): (k: nat)
    ensures k <= |rows|
    ensures k < |rows| ==> rows[k].status == Pending
    ensures forall i :: 0 <= i < k ==> rows[i].status != Pending
  {
    if rows == [] then 0
    else
      var k := FirstPending(rows[..|rows| - 1]);
      assert forall i :: 0 <= i < |rows| - 1 ==> rows[..|rows| - 1][i] == rows[i];
      if k < |rows| - 1 then k else if rows[|rows| - 1].status == Pending then |rows| - 1 else |rows|
  }

  ghost function NextChannel(c: Channel, step: ChannelStep): Channel {
    var k := FirstPending(c.rows);
    match step
    case Enqueue(ev) => c.(rows := EnqueueRow(c.rows, ev))
    case Flush(ok) => if k < |c.rows| then FlushRow(c, k, ok) else c
    case CrashAfterAppend => if k < |c.rows| then c.(file := c.file + [c.rows[k].sequence]) else c
  }

  ghost function RunChannel(c: Channel, steps: seq<ChannelStep>): Channel
    decreases |steps|
  {
    if steps == [] then c else RunChannel(NextChannel(c, steps[0]), steps[1..])
  }

  const EMPTY_CHANNEL := Channel([], [])

  /////// What every mix of enqueues, flushes and crashes keeps

  ghost predicate FileSound(c: Channel, k: nat) {
    && NonDecreasing(c.file)
    && (forall i :: 0 <= i < |c.file| ==> 1 <= c.file[i] <= |c.rows| && c.file[i] <= k + 1)
    && (forall i :: 0 <= i < k && i < |c.rows| && c.rows[i].status == Written ==> i + 1 in c.file)
  }

  ghost predicate InvAt(c: Channel, k: nat) {
    Numbered(c.rows) && PendingFrom(c.rows, k) && FileSound(c, k)
  }

  ghost predicate ChannelInv(c: Channel) { InvAt(c, FirstPending(c.rows)) }

  lemma FirstPendingUnique(rows: seq<OutboxRow>, k: nat)
    requires PendingFrom(rows, k)
    ensures FirstPending(rows) == k
  {
  }

  lemma EnqueueInv(c: Channel, ev: Event)
    requires ChannelInv(c)
    ensures ChannelInv(c.(rows := EnqueueRow(c.rows, ev)))
  {
    FirstPendingUnique(EnqueueRow(c.rows, ev), FirstPending(c.rows));
  }

  lemma FlushInvAt(c: Channel, k: nat, ok: bool)
    requires InvAt(c, k) && k < |c.rows|
    ensures InvAt(FlushRow(c, k, ok), k + 1)
  {
    var after := FlushRow(c, k, ok);
    forall i | 0 <= i < k + 1 && after.rows[i].status == Written ensures i + 1 in after.file {
      if i == k { assert after.file[|c.file|] == k + 1; } else { assert i + 1 in c.file; }
    }
  }

  lemma FlushInv(c: Channel, ok: bool)
    requires ChannelInv(c) && FirstPending(c.rows) < |c.rows|
    ensures ChannelInv(FlushRow(c, FirstPending(c.rows), ok))
    ensures FirstPending(FlushRow(c, FirstPending(c.rows), ok).rows) == FirstPending(c.rows) + 1
  {
    var k := FirstPending(c.rows);
    FlushInvAt(c, k, ok);
    FirstPendingUnique(FlushRow(c, k, ok).rows, k + 1);
  }

  lemma StepChannelInv(c: Channel, step: ChannelStep)
    requires ChannelInv(c)
    ensures ChannelInv(NextChannel(c, step))
  {
    var k := FirstPending(c.rows);
    match step
    case Enqueue(ev) => EnqueueInv(c, ev);
    case Flush(ok) => if k < |c.rows| { FlushInv(c, ok); }
    case CrashAfterAppend =>
  }

  lemma {:induction false} RunChannelInv(c: Channel, steps: seq<ChannelStep>)
    requires ChannelInv(c)
    ensures ChannelInv(RunChannel(c, steps))
    decreases |steps|
  {
    if steps != [] {
      StepChannelInv(c, steps[0]);
      RunChannelInv(NextChannel(c, steps[0]), steps[1..]);
    }
  }

  /////// Without crashes the file is exactly the written rows

  lemma {:induction false} WrittenPending(rows: seq<OutboxRow>, k: nat)
    requires PendingFrom(rows, k)
    ensures WrittenSequences(rows) == WrittenSequences(rows[..k])
  {
    if k < |rows| {
      var init := rows[..|rows| - 1];
      assert init[..k] == rows[..k];
      WrittenPending(init, k);
    } else {
      assert rows[..k] == rows;
    }
  }

  lemma WrittenFlush(c: Channel, ok: bool)
    requires ChannelInv(c) && FirstPending(c.rows) < |c.rows|
    ensures var k := FirstPending(c.rows);
            WrittenSequences(FlushRow(c, k, ok).rows) == WrittenSequences(c.rows) + if ok then [k + 1] else []
  {
    var k := FirstPending(c.rows);
    var after := FlushRow(c, k, ok).rows;
    FlushInv(c, ok);
    WrittenPending(c.rows, k);
    WrittenPending(after, k + 1);
    assert after[..k + 1][..k] == c.rows[..k];
  }

  lemma WrittenEnqueue(rows: seq<OutboxRow>, ev: Event)
    ensures WrittenSequences(EnqueueRow(rows, ev)) == WrittenSequences(rows)
  {
    assert EnqueueRow(rows, ev)[..|rows|] == rows;
  }

  ghost predicate FileIsWritten(c: Channel) { c.file == WrittenSequences(c.rows) }

  /** The crash leaves a line behind whose row is still pending. */
  ghost predicate Duplicates(c: Channel, step: ChannelStep) {
    step.CrashAfterAppend? && FirstPending(c.rows) < |c.rows|
  }

  /** How many crashes of a run did. */
  ghost function Crashes(c: Channel, steps: seq<ChannelStep>): nat
    decreases |steps|
  {
    if steps == [] then 0
    else (if Duplicates(c, steps[0]) then 1 else 0) + Crashes(NextChannel(c, steps[0]), steps[1..])
  }

  /** Every step but such a crash adds to the file exactly the row it marks written. */
  lemma StepWritten(c: Channel, step: ChannelStep)
    requires ChannelInv(c)
    ensures var next := NextChannel(c, step);
            |next.file| - |WrittenSequences(next.rows)| == |c.file| - |WrittenSequences(c.rows)|
              + (if Duplicates(c, step) then 1 else 0)
    ensures FileIsWritten(c) && !Duplicates(c, step) ==> FileIsWritten(NextChannel(c, step))
  {
    match step
    case Enqueue(ev) => WrittenEnqueue(c.rows, ev);
    case Flush(ok) => if FirstPending(c.rows) < |c.rows| { WrittenFlush(c, ok); }
    case CrashAfterAppend =>
  }

  lemma {:induction false} RunWritten(c: Channel, steps: seq<ChannelStep>)
    requires ChannelInv(c)
    ensures var end := RunChannel(c, steps);
            |end.file| - |WrittenSequences(end.rows)| == |c.file| - |WrittenSequences(c.rows)| + Crashes(c, steps)
    ensures FileIsWritten(c) && Crashes(c, steps) == 0 ==> FileIsWritten(RunChannel(c, steps))
    decreases |steps|
  {
    if steps != [] {
      StepWritten(c, steps[0]);
      StepChannelInv(c, steps[0]);
      RunWritten(NextChannel(c, steps[0]), steps[1..]);
    }
  }

  lemma {:induction false} WrittenIncreasing(rows: seq<OutboxRow>)
    requires Numbered(rows)
    ensures Increasing(WrittenSequences(rows))
    ensures forall q :: q in WrittenSequences(rows) ==> 1 <= q <= |rows|
    ensures forall i :: 0 <= i < |rows| ==> (rows[i].status == Written <==> i + 1 in WrittenSequences(rows))
  {
    if rows != [] {
      var init := rows[..|rows| - 1];
      WrittenIncreasing(init);
      forall i | 0 <= i < |init| ensures init[i] == rows[i] {}
      var w := WrittenSequences(init);
      forall i | 0 <= i < |w| ensures w[i] < |rows| { assert w[i] in w; }
    }
  }

  /** Main result: after any mix of enqueues, flushes and crashes the sequences are 1..n, the
      handled rows are a prefix, every written row is in the file and the file never steps back.
      It has one line more than written rows for every crash that hit a pending row, so it is
      exactly the written rows, strictly increasing, if and only if there was none. */
  lemma FlushOrder(steps: seq<ChannelStep>)
    ensures var c := RunChannel(EMPTY_CHANNEL, steps);
            && Numbered(c.rows) && (exists k: nat :: PendingFrom(c.rows, k)) && NonDecreasing(c.file)
            && (forall i :: 0 <= i < |c.rows| && c.rows[i].status == Written ==> c.rows[i].sequence in c.file)
            && |c.file| == |WrittenSequences(c.rows)| + Crashes(EMPTY_CHANNEL, steps)
            && (c.file == WrittenSequences(c.rows) <==> Crashes(EMPTY_CHANNEL, steps) == 0)
            && (Crashes(EMPTY_CHANNEL, steps) == 0 ==> Increasing(c.file))
  {
    RunChannelInv(EMPTY_CHANNEL, steps);
    var c := RunChannel(EMPTY_CHANNEL, steps);
    assert PendingFrom(c.rows, FirstPending(c.rows));
    RunWritten(EMPTY_CHANNEL, steps);
    WrittenIncreasing(c.rows);
  }

  /** With a crash a line can appear twice: the bound is tight. */
  lemma CrashDuplicates(ev: Event)
    ensures RunChannel(EMPTY_CHANNEL, [Enqueue(ev), CrashAfterAppend, Flush(true)]).file == [1, 1]
  {
    var c1 := NextChannel(EMPTY_CHANNEL, Enqueue(ev));
    assert PendingFrom(c1.rows, 0);
    FirstPendingUnique(c1.rows, 0);
    var c2 := NextChannel(c1, CrashAfterAppend);
    var c3 := NextChannel(c2, Flush(true));
    assert c3.file == [1, 1];
    var steps := [Enqueue(ev), CrashAfterAppend, Flush(true)];
    assert steps[1..] == [CrashAfterAppend, Flush(true)] && steps[1..][1..] == [Flush(true)]
           && steps[1..][1..][1..] == [];
    assert RunChannel(c3, []) == c3;
    assert RunChannel(c2, [Flush(true)]) == c3;
    assert RunChannel(c1, [CrashAfterAppend, Flush(true)]) == c3;
  }

  /////// The table and the flusher as they run

  /** A flush handles rows k, k+1, ..., k+n-1; appending fails for the `broken` sequences. */
  ghost function FlushMany(c: Channel, k: nat, n: nat, broken: set<nat>): (r: Channel)
    requires k + n <= |c.rows|
    ensures |r.rows| == |c.rows|
  {
    if n == 0 then c else FlushRow(FlushMany(c, k, n - 1, broken), k + n - 1, k + n !in broken)
  }

  lemma NextFlush(c: Channel, k: nat, ok: bool)
    requires InvAt(c, k) && k < |c.rows|
    ensures NextChannel(c, Flush(ok)) == FlushRow(c, k, ok) && InvAt(FlushRow(c, k, ok), k + 1)
  {
    FirstPendingUnique(c.rows, k);
    FlushInvAt(c, k, ok);
  }

  lemma FlushOneMore(c: Channel, steps: seq<ChannelStep>, mid: Channel, k: nat, ok: bool)
    requires RunChannel(c, steps) == mid && InvAt(mid, k) && k < |mid.rows|
    ensures RunChannel(c, steps + [Flush(ok)]) == FlushRow(mid, k, ok) && InvAt(FlushRow(mid, k, ok), k + 1)
  {
    RunSnoc(c, steps, Flush(ok));
    NextFlush(mid, k, ok);
  }

  /** A whole flush is that many single-row steps of the channel. */
  lemma {:induction false} FlushManyIsSteps(c: Channel, k: nat, n: nat, broken: set<nat>)
    returns (steps: seq<ChannelStep>)
    requires InvAt(c, k) && k + n <= |c.rows|
    ensures |steps| == n && (forall i :: 0 <= i < n ==> steps[i].Flush?)
    ensures RunChannel(c, steps) == FlushMany(c, k, n, broken) && InvAt(FlushMany(c, k, n, broken), k + n)
  {
    if n == 0 {
      steps := [];
    } else {
      var init := FlushManyIsSteps(c, k, n - 1, broken);
      var mid, ok := FlushMany(c, k, n - 1, broken), k + n !in broken;
      FlushOneMore(c, init, mid, k + n - 1, ok);
      steps := init + [Flush(ok)];
    }
  }

  lemma {:induction false} RunSnoc(c: Channel, steps: seq<ChannelStep>, last: ChannelStep)
    ensures RunChannel(c, steps + [last]) == NextChannel(RunChannel(c, steps), last)
    decreases |steps|
  {
    if steps == [] {
      assert (steps + [last])[1..] == [];
    } else {
      assert (steps + [last])[1..] == steps[1..] + [last];
      RunSnoc(NextChannel(c, steps[0]), steps[1..], last);
    }
  }

  lemma FlushKeepsEvents(c: Channel, k: nat, ok: bool)
    requires k < |c.rows|
    ensures Events(FlushRow(c, k, ok).rows) == Events(c.rows)
  {
  }

  /** How many of `pending` rows a flush with this limit handles (SQL: negative is no limit). */
  function BatchSize(pending: nat, limit: int): nat {
    if limit < 0 || limit > pending then pending else limit
  }

  class EventOutbox {
    var rows: seq<OutboxRow>
    var file: seq<nat>
    ghost var handled: nat   // how many rows are no longer pending

    ghost function View(): Channel reads this { Channel(rows, file) }

    ghost predicate Valid() reads this { InvAt(View(), handled) }

    constructor ()
      ensures Valid() && rows == [] && file == [] && handled == 0
    {
      rows, file, handled := [], [], 0;
    }

    /** COALESCE(MAX(sequence), 0) + 1 */
    method NextSequence() returns (next: nat)
      requires Valid()
      ensures next == |rows| + 1
    {
      var max := 0;
      for i := 0 to |rows|
        invariant max == i
      {
        if rows[i].sequence > max { max := rows[i].sequence; }
      }
      next := max + 1;
    }

    method EnqueueEvent(ev: Event)
      requires Valid()
      modifies this`rows
      ensures Valid() && rows == EnqueueRow(old(rows), ev)
      ensures Events(rows) == Events(old(rows)) + [ev]
    {
      var next := NextSequence();
      rows := rows + [OutboxRow(ev, next, Pending, 0)];
    }

    /** The oldest pending rows, at most `limit` of them. */
    method PendingEvents(limit: int) returns (batch: seq<OutboxRow>)
      requires Valid()
      ensures batch == rows[handled..handled + BatchSize(|rows| - handled, limit)]
      ensures forall i :: 0 <= i < |batch| ==> batch[i].sequence == handled + i + 1
    {
      batch := [];
      for i := 0 to |rows|
        invariant i <= handled ==> batch == []
        invariant i > handled ==> batch == rows[handled..handled + BatchSize(i - handled, limit)]
      {
        if rows[i].status == Pending && (limit < 0 || |batch| < limit) {
          batch := batch + [rows[i]];
        }
      }
    }

    /** One row of a flush: append its line, then mark the row. */
    method FlushOldest(at: nat, works: bool)
      requires Valid() && at == handled < |rows|
      modifies this
      ensures View() == FlushRow(old(View()), old(handled), works)
      ensures Valid() && handled == old(handled) + 1 && Events(rows) == Events(old(rows))
      ensures file == old(file) + if works then [old(handled) + 1] else []
      ensures |rows| == |old(rows)| && forall i :: 0 <= i < |rows| && i != old(handled) ==> rows[i] == old(rows)[i]
      ensures var row, was := rows[old(handled)], old(rows)[old(handled)];
              && row.status == (if works then Written else WriteFailed)
              && row.failures == was.failures + (if works then 0 else 1)
    {
      FlushInvAt(View(), handled, works);
      FlushKeepsEvents(View(), handled, works);
      if works {
        file := file + [rows[at].sequence];
        rows := MarkWritten(rows, at);
      } else {
        rows := MarkFailed(rows, at);
      }
      handled := handled + 1;
    }

    /** One round of the flush loop; `start` is the channel before the flush. */
    method FlushNext(q: nat, broken: set<nat>, ghost start: Channel, ghost k: nat, ghost i: nat) returns (ok: bool)
      requires Valid() && handled == k + i < |start.rows| && q == k + i + 1 && View() == FlushMany(start, k, i, broken)
      modifies this
      ensures Valid() && handled == k + i + 1 && View() == FlushMany(start, k, i + 1, broken)
      ensures ok == (q !in broken) && |file| == |old(file)| + (if ok then 1 else 0) && Events(rows) == Events(old(rows))
    {
      ok := q !in broken;
      FlushOldest(q - 1, ok);
    }

    /** Writing the line of a sequence in `broken` raises OSError. */
    method FlushPendingEvents(limit: int, broken: set<nat>) returns (written: nat, failed: nat)
      requires Valid()
      modifies this
      ensures Valid() && Events(rows) == Events(old(rows))
      ensures View() == FlushMany(old(View()), old(handled), BatchSize(|old(rows)| - old(handled), limit), broken)
      ensures written + failed == BatchSize(|old(rows)| - old(handled), limit) == handled - old(handled)
      ensures written == |file| - |old(file)|
    {
      written, failed := 0, 0;
      var batch := PendingEvents(limit);
      ghost var start, k := View(), handled;
      for i := 0 to |batch|
        invariant Valid() && handled == k + i && Events(rows) == Events(start.rows)
        invariant k + |batch| <= |start.rows| && View() == FlushMany(start, k, i, broken)
        invariant written + failed == i && written == |file| - |start.file|
      {
        var ok := FlushNext(batch[i].sequence, broken, start, k, i);
        if ok { written := written + 1; } else { failed := failed + 1; }
      }
    }
  }
}
