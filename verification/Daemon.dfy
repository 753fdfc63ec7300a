// The worker process and its spool directory as they run, calling the control
// plane of module ControlPlane. Whether a request gets through and whether its
// answer comes back are parameters.

module Daemon {
  import opened Common
  import opened Hashes
  import opened Scheduler
  import opened ControlPlane
  import opened Fencing
  import opened Worker
  import opened TimeText
  import opened Sorting

  /** Some row stored at or after position `from` carries this assignment's output. */
  ghost predicate StoredSince(results: seq<ResultRow>, from: nat, a: Id, output: Json) {
    exists k :: from <= k < |results| && results[k].assignment == a && results[k].output == output
  }

  /** What the network does to one call. */
  datatype Link = Link(delivered: bool, answer: Answer)

  /** How handle_assignment ends: the accept raised, the progress call raised, the submit got an
      error status or no answer, or all went well. */
  datatype Handled = NotAccepted | OutputLost | Spooled | Escaped | Completed

  ghost predicate HoldsLease(db: Db, a: Id, worker: Id, token: LeaseToken, version: nat) {
    && a in db.assignments && db.assignments[a].worker == worker
    && db.assignments[a].tokenHash == Some(TokenHash(token)) && db.assignments[a].leaseVersion == version
  }

  function FileName(a: Id): string { "spool_" + a.text + ".json" }

  predicate FileBefore(a: Id, b: Id) { TextLess(FileName(a), FileName(b)) }

  lemma FileOrder()
    ensures StrictOrder(FileBefore)
  {
    forall a: Id ensures !FileBefore(a, a) { Irreflexive(FileName(a)); }
    forall a, b, c | FileBefore(a, b) && FileBefore(b, c) ensures FileBefore(a, c) {
      TextTransitive(FileName(a), FileName(b), FileName(c));
    }
    forall a: Id, b: Id, c: Id | !FileBefore(a, b) && !FileBefore(b, c) ensures !FileBefore(a, c) {
      TextTotal(FileName(a), FileName(b));
      TextTotal(FileName(b), FileName(c));
      if FileBefore(b, a) && FileBefore(a, c) { TextTransitive(FileName(b), FileName(a), FileName(c)); }
    }
  }

  class ResultSpool {
    var files: map<Id, SpoolEntry>   // one file per assignment: spool_<assignment_id>.json

    constructor ()
      ensures files == map[]
    {
      files := map[];
    }

    /** The raw token never reaches the disk, only its hash. */
    method WriteCompleted(a: Id, worker: Id, token: LeaseToken, output: Json)
      modifies this
      ensures files == old(files)[a := SpoolEntry(a, worker, TokenHash(token), output)]
    {
      files := files[a := SpoolEntry(a, worker, TokenHash(token), output)];
    }

    /** The spooled entries, each file once, by file name. */
    method CompletedEntries() returns (paths: seq<Id>, loaded: map<Id, SpoolEntry>)
      ensures loaded == files && |paths| == |files| && Sorted(FileBefore, paths)
      ensures forall a :: a in paths <==> a in files
      ensures Distinct(paths)
    {
      paths, loaded := [], files;
      var todo := files.Keys;
      while todo != {}
        invariant todo <= files.Keys && |paths| + |todo| == |files|
        invariant forall a :: a in paths <==> a in files.Keys - todo
        invariant Distinct(paths)
        decreases |todo|
      {
        var a :| a in todo;
        assert a !in paths;
        paths, todo := paths + [a], todo - {a};
      }
      ghost var listed := paths;
      paths := Sort(FileBefore, paths);
      FileOrder();
      SortSorts(FileBefore, listed);
      SortPermutes(FileBefore, listed);
      SameMembers(listed, paths);
      DistinctSurvives(listed, paths);
    }

    method Remove(a: Id)
      modifies this
      ensures files == old(files) - {a}
    {
      files := files - {a};
    }
  }

  class WorkerDaemon {
    const worker: Id
    const spool: ResultSpool
    const plane: Database

    constructor (worker: Id, plane: Database, spool: ResultSpool)
      ensures this.worker == worker && this.plane == plane && this.spool == spool
    {
      this.worker, this.plane, this.spool := worker, plane, spool;
    }

    /** One client call; `seen` is what the worker sees. A call that does not arrive is answered, if
        at all, by an error status, and so is one the control plane refuses. */
    method ClientSubmit(a: Id, owner: Id, cred: Credential, output: Json, envelope: Option<Envelope>, freshId: Id,
                        link: Link) returns (seen: Answer)
      requires plane.Valid() && (envelope.Some? ==> envelope.value.output == output)
      modifies plane, plane.outbox`rows
      ensures plane.Valid() && old(plane.results) <= plane.results
      ensures seen == NoAnswer <==> link.answer == NoAnswer
      ensures seen == Returned ==> link == Link(true, Returned)
      ensures seen == Returned ==> StoredSince(plane.results, |old(plane.results)|, a, output)
      ensures link == Link(true, Returned) && seen == ErrorStatus ==> plane.View() == old(plane.View())
      ensures !link.delivered ==> plane.View() == old(plane.View())
      ensures plane.results == old(plane.results) || StoredSince(plane.results, |old(plane.results)|, a, output)
    {
      if !link.delivered { return if link.answer.NoAnswer? then NoAnswer else ErrorStatus; }
      ghost var before := plane.View();
      var reply := plane.SubmitResult(a, owner, cred, output, envelope, freshId);
      if reply.Done? {
        SubmitFences(before, a, owner, cred, output, envelope, freshId);
        assert plane.results[|before.results|].assignment == a;
      }
      seen := if link.answer.Returned? && reply.Raised? then ErrorStatus else link.answer;
    }

    /** One entry of the replay loop: the file goes only after its submit returned. */
    method ReplayEntry(a: Id, e: SpoolEntry, freshId: Id, link: Link) returns (ok: bool)
      requires plane.Valid()
      modifies spool, plane, plane.outbox`rows
      ensures plane.Valid() && old(plane.results) <= plane.results
      ensures ok ==> spool.files == old(spool.files) - {a}
                     && StoredSince(plane.results, |old(plane.results)|, e.assignment, e.output)
      ensures !ok ==> spool.files == old(spool.files)
    {
      var seen := ClientSubmit(e.assignment, e.worker, ByHash(e.tokenHash), e.output, None, freshId, link);
      ok := seen.Returned?;
      if ok { spool.Remove(a); }
    }

    /** Submits the spooled entries one by one; the first failure stops the loop. Whether it
        stops or not, every entry is still on disk or stored. */
    method ReplayCompletedSpool(freshIds: seq<Id>, wire: seq<Link>) returns (submitted: nat, raised: bool)
      requires plane.Valid() && |freshIds| >= |spool.files| && |wire| >= |spool.files|
      modifies spool, plane, plane.outbox`rows
      ensures plane.Valid() && old(plane.results) <= plane.results
      ensures forall a :: a in old(spool.files) ==>
                (a in spool.files && spool.files[a] == old(spool.files)[a])
                || StoredSince(plane.results, |old(plane.results)|, old(spool.files)[a].assignment,
                               old(spool.files)[a].output)
      ensures spool.files.Keys <= old(spool.files).Keys && submitted + |spool.files| == |old(spool.files)|
      ensures !raised ==> spool.files == map[]
    {
      submitted, raised := 0, false;
      var paths, loaded := spool.CompletedEntries();
      ghost var from := |plane.results|;
      for i := 0 to |paths|
        invariant plane.Valid() && old(plane.results) <= plane.results
        invariant submitted == i && Replayed(loaded, spool.files, plane.results, from, paths[..i])
      {
        var a := paths[i];
        NextPath(paths, i);
        var ok := ReplayNext(a, loaded, freshIds[i], wire[i], from, paths[..i]);
        if !ok {
          Accounted(loaded, spool.files, plane.results, from, paths[..i]);
          return submitted, true;
        }
        submitted := submitted + 1;
      }
      assert paths[..|paths|] == paths;
      Accounted(loaded, spool.files, plane.results, from, paths);
    }

    /** One round of the loop. */
    method ReplayNext(a: Id, loaded: map<Id, SpoolEntry>, freshId: Id, link: Link, ghost from: nat,
                      ghost done: seq<Id>) returns (ok: bool)
      requires plane.Valid() && a in loaded && a in spool.files
               && Replayed(loaded, spool.files, plane.results, from, done)
      modifies spool, plane, plane.outbox`rows
      ensures plane.Valid() && old(plane.results) <= plane.results
      ensures Replayed(loaded, spool.files, plane.results, from, if ok then done + [a] else done)
    {
      ghost var files, results := spool.files, plane.results;
      ok := ReplayEntry(a, loaded[a], freshId, link);
      if ok {
        ReplayStep(loaded, files, results, plane.results, from, done, a);
      } else {
        StaysStored(results, plane.results, from, loaded, done);
      }
    }

    /** accept_assignment with expected version 0; the answer carries the new version. */
    method ClientAccept(a: Id, token: LeaseToken, expiresAt: string, link: Link) returns (version: Option<nat>)
      requires plane.Valid()
      modifies plane, plane.outbox`rows
      ensures plane.Valid() && plane.results == old(plane.results)
      ensures version.Some? ==>
                && link == Link(true, Returned)
                && HoldsLease(plane.View(), a, worker, token, version.value)
    {
      if !link.delivered { return None; }
      var reply := plane.AcceptAssignment(a, worker, 0, token, expiresAt);
      if reply.Raised? || !link.answer.Returned? { return None; }
      version := Some(plane.assignments[a].leaseVersion);
    }

    /** progress_assignment by the lease holder: only the network can make it fail. */
    method ClientProgress(a: Id, token: LeaseToken, version: nat, expiresAt: string, link: Link) returns (ok: bool)
      requires plane.Valid() && HoldsLease(plane.View(), a, worker, token, version)
      modifies plane, plane.outbox`rows
      ensures plane.Valid() && plane.results == old(plane.results)
      ensures ok <==> link == Link(true, Returned)
    {
      if !link.delivered { return false; }
      var reply := plane.ProgressAssignment(a, worker, token, version, expiresAt);
      ok := link.answer.Returned?;
    }

    /** handle_assignment. `wire[n]` is what happens to call n. After an accept that returned, the
        output is in neither place exactly when the progress call, which comes after execution and
        outside the try, was not delivered and answered, or the submit got no answer and was not
        stored. That holds while nobody else acts on the assignment between the calls, which could
        refuse a delivered progress call; module Worker covers others acting in between. */
    method HandleAssignment(a: Id, token: LeaseToken, expiresAt: string, renewed: string, envelope: Envelope,
                            wire: seq<Link>) returns (outcome: Handled)
      requires plane.Valid() && |wire| == 3
      modifies spool, plane, plane.outbox`rows
      ensures plane.Valid() && old(plane.results) <= plane.results
      ensures outcome == Completed ==> StoredSince(plane.results, |old(plane.results)|, a, envelope.output)
      ensures outcome == Spooled ==>
                spool.files == old(spool.files)[a := SpoolEntry(a, worker, TokenHash(token), envelope.output)]
      ensures outcome != Spooled ==> spool.files == old(spool.files)
      ensures outcome != NotAccepted ==>
                && (outcome == OutputLost <==> wire[1] != Link(true, Returned))
                && (outcome == Escaped <==> wire[1] == Link(true, Returned) && wire[2].answer == NoAnswer)
      ensures outcome == OutputLost || (outcome == Escaped && !wire[2].delivered) ==>
                plane.results == old(plane.results)
      ensures outcome == Escaped ==>
                || plane.results == old(plane.results)
                || StoredSince(plane.results, |old(plane.results)|, a, envelope.output)
    {
      var version := ClientAccept(a, token, expiresAt, wire[0]);
      if version.None? { return NotAccepted; }
      var progressed := ClientProgress(a, token, version.value, renewed, wire[1]);
      if !progressed { return OutputLost; }
      var seen := SubmitOrSpool(a, token, envelope, wire[2]);
      outcome := match seen case Returned => Completed case ErrorStatus => Spooled case NoAnswer => Escaped;
    }

    /** handle_assignment from the submit on: after an answer the output is stored, or it is in the
        spool under the lease hash; without one the exception escapes and nothing is spooled. */
    method SubmitOrSpool(a: Id, token: LeaseToken, envelope: Envelope, link: Link) returns (seen: Answer)
      requires plane.Valid()
      modifies spool, plane, plane.outbox`rows
      ensures plane.Valid() && old(plane.results) <= plane.results
      ensures seen == NoAnswer <==> link.answer == NoAnswer
      ensures seen == Returned ==> StoredSince(plane.results, |old(plane.results)|, a, envelope.output)
      ensures seen == ErrorStatus ==>
                spool.files == old(spool.files)[a := SpoolEntry(a, worker, TokenHash(token), envelope.output)]
      ensures seen != ErrorStatus ==> spool.files == old(spool.files)
      ensures !link.delivered ==> plane.results == old(plane.results)
      ensures || plane.results == old(plane.results)
              || StoredSince(plane.results, |old(plane.results)|, a, envelope.output)
    {
      seen := ClientSubmit(a, worker, ByToken(Some(token)), envelope.output, Some(envelope), envelope.id, link);
      if seen.ErrorStatus? { spool.WriteCompleted(a, worker, token, envelope.output); }
    }
  }

  ghost predicate AllStored(results: seq<ResultRow>, from: nat, loaded: map<Id, SpoolEntry>, done: seq<Id>) {
    forall a :: a in done ==> a in loaded && StoredSince(results, from, loaded[a].assignment, loaded[a].output)
  }

  /** The entries `done` are stored and their files gone; the others are untouched. */
  ghost predicate Replayed(loaded: map<Id, SpoolEntry>, files: map<Id, SpoolEntry>, results: seq<ResultRow>, from: nat,
                           done: seq<Id>) {
    && from <= |results| && AllStored(results, from, loaded, done)
    && (forall a :: a in files <==> a in loaded && a !in done)
    && (forall a :: a in files ==> files[a] == loaded[a])
    && Distinct(done)
  }

  lemma NextPath(paths: seq<Id>, i: nat)
    requires Distinct(paths) && i < |paths|
    ensures paths[i] in paths && paths[i] !in paths[..i] && paths[..i + 1] == paths[..i] + [paths[i]]
  {
  }

  /** Every entry is on disk as it was or stored, and the numbers add up. */
  lemma Accounted(loaded: map<Id, SpoolEntry>, files: map<Id, SpoolEntry>, results: seq<ResultRow>, from: nat,
                  done: seq<Id>)
    requires Replayed(loaded, files, results, from, done)
    ensures forall a :: a in loaded ==>
              (a in files && files[a] == loaded[a])
                || StoredSince(results, from, loaded[a].assignment, loaded[a].output)
    ensures files.Keys <= loaded.Keys && |done| + |files| == |loaded|
  {
    CountLeft(loaded, files, done);
  }

  lemma StaysStored(before: seq<ResultRow>, after: seq<ResultRow>, from: nat, loaded: map<Id, SpoolEntry>,
                    done: seq<Id>)
    requires before <= after && AllStored(before, from, loaded, done)
    ensures AllStored(after, from, loaded, done)
  {
    forall a | a in done ensures StoredSince(after, from, loaded[a].assignment, loaded[a].output) {
      var k :| from <= k < |before| && before[k].assignment == loaded[a].assignment
        && before[k].output == loaded[a].output;
      assert after[k] == before[k];
    }
  }

  lemma ReplayStep(loaded: map<Id, SpoolEntry>, files: map<Id, SpoolEntry>, before: seq<ResultRow>,
                   after: seq<ResultRow>,
                   from: nat, done: seq<Id>, a: Id)
    requires Replayed(loaded, files, before, from, done) && before <= after && a in files
    requires StoredSince(after, |before|, loaded[a].assignment, loaded[a].output)
    ensures Replayed(loaded, files - {a}, after, from, done + [a])
  {
    StaysStored(before, after, from, loaded, done);
    var k :| |before| <= k < |after| && after[k].assignment == loaded[a].assignment
      && after[k].output == loaded[a].output;
    assert StoredSince(after, from, loaded[a].assignment, loaded[a].output);
  }

  lemma {:induction false} CountLeft(loaded: map<Id, SpoolEntry>, files: map<Id, SpoolEntry>, done: seq<Id>)
    requires forall a :: a in files <==> a in loaded && a !in done
    requires forall a :: a in done ==> a in loaded
    requires Distinct(done)
    ensures |done| + |files| == |loaded|
    decreases |done|
  {
    if done == [] {
      assert files.Keys == loaded.Keys;
    } else {
      var a := done[|done| - 1];
      var init := done[..|done| - 1];
      var rest := loaded - {a};
      assert rest.Keys == loaded.Keys - {a};
      assert forall b :: b in done <==> b in init || b == a;
      CountLeft(rest, files, init);
    }
  }
}
