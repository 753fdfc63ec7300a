// The lease sweeper: which leases one sweep expires, measured in real time, and
// what it leaves alone.

module Sweeping {
  import opened Common
  import opened TimeText
  import opened Scheduler

  ghost predicate Leased(db: Db, a: Id, expiry: DateTime) {
    && a in db.assignments && db.assignments[a].expiresAt == Some(UtcText(expiry))
    && (db.assignments[a].status == AsgAccepted || db.assignments[a].status == AsgRunning)
  }

  /** A lease is selected exactly when its text is smaller; that is never a full second
      early, never more than a second late, and is exact unless one of the two times falls
      on a whole second and the other in the same second does not. */
  lemma SweepBound(db: Db, a: Id, expiry: DateTime, now: DateTime)
    requires Valid(expiry) && Valid(now) && Leased(db, a, expiry)
    ensures Expired(db, UtcText(now), a) ==> Micros(expiry) < Micros(now) + 1_000_000
    ensures Micros(expiry) + 1_000_000 <= Micros(now) ==> Expired(db, UtcText(now), a)
    ensures (Expired(db, UtcText(now), a) <==> Micros(expiry) < Micros(now)) <==>
            !(Seconds(expiry) == Seconds(now) && (expiry.micro == 0) != (now.micro == 0))
  {
    UtcTextOrder(expiry, now);
    TextOrderIsTimeOrder(expiry, now);
  }

  lemma {:induction false} ExpireAllRows(db: Db, order: seq<Id>)
    requires forall a :: a in order ==> a in db.assignments
    ensures var after := ExpireAll(db, order);
            && after.assignments.Keys == db.assignments.Keys
            && (forall a :: a in db.assignments ==>
                  after.assignments[a] == if a in order then db.assignments[a].(status := AsgExpired)
                    else db.assignments[a])
            && |after.log| == |db.log| + |order|
            && after.workUnits == db.workUnits && after.attempts == db.attempts
            && after.results == db.results && after.quarantine == db.quarantine
    decreases |order|
  {
    if order != [] {
      var one := ExpireOne(db, order[0]);
      ExpireAllRows(one, order[1..]);
      assert order == [order[0]] + order[1..];
    }
  }

  lemma HeadIsListed(order: seq<Id>)
    ensures order == [] || exists a :: a in order
  {
    if order != [] { assert order[0] in order; }
  }

  /** A sweep moves exactly the selected rows to expired, keeps everything else about every
      row, emits one event per row moved, and a second sweep at the same instant is a no-op. */
  lemma SweepExact(db: Db, now: string, order: seq<Id>)
    requires Lists(order, db, now)
    ensures var out := Sweep(db, now, order);
            && out.Committed?
            && out.db.assignments.Keys == db.assignments.Keys
            && (forall a :: a in db.assignments ==>
                  out.db.assignments[a] ==
                  if Expired(db, now, a) then db.assignments[a].(status := AsgExpired) else db.assignments[a])
            && out.db.attempts == db.attempts && out.db.workUnits == db.workUnits && out.db.results == db.results
            && |out.db.log| == |db.log| + |order|
            && (forall again :: Lists(again, out.db, now) ==>
                  again == [] && Sweep(out.db, now, again) == Committed(out.db))
  {
    ExpireAllRows(db, order);
    var after := Sweep(db, now, order).db;
    assert forall a :: !Expired(after, now, a);
    forall again | Lists(again, after, now) ensures again == [] {
      HeadIsListed(again);
    }
  }
}
