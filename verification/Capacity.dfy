// The capacity_nodes table as a projection of worker and backend manifests:
// an incremental rebuild that must equal a rebuild from nothing.

module Capacity {
  import opened Common
  import opened Gateways

  const LOCAL_CLASSES: set<string> := {"browser_fetch", "local_script", "local_tool"}
  const LOCATIONS: set<string> := {"mac_control_plane", "windows_worker", "local_machine"}

  /** `location` is one of LOCATIONS in every worker manifest; a backend's may be any text. */
  datatype WorkerManifest = WorkerManifest(
    id: string, identity: string, capabilities: seq<string>, taskTypes: seq<string>, dataLabels: seq<string>,
    privacyLevels: seq<string>, location: string, trust: string, backendIds: seq<string>, backendClasses: seq<string>,
    health: string, explicitHash: Option<string>, createdAt: string, updatedAt: string)

  datatype BackendManifest = BackendManifest(
    id: string, backendClass: string, node: string, name: string, taskTypes: seq<string>, privacyLevels: seq<string>,
    location: string, manifestHash: string, health: Option<Health>)

  datatype Health = Health(status: string, checkedAt: string)

  /** A manifest hash: the one given, or the digest of the manifest. */
  datatype ManifestHash = Given(text: string) | DigestOf(worker: WorkerManifest)

  datatype Node = Node(
    id: string, nodeType: string, identity: string, capabilities: seq<string>, trust: string, taskTypes: seq<string>,
    dataLabels: seq<string>, privacyLevels: seq<string>, location: string, status: string, checkedAt: string,
    backendIds: seq<string>, backendClasses: seq<string>, backendId: Option<string>, workerId: Option<string>,
    hash: ManifestHash, createdAt: string, updatedAt: string)

  /** A stored row: the body, and the created_at column, which an update keeps. */
  datatype Row = Row(body: Node, createdAt: string)

  type Table = map<string, Row>

  /////// Projections

  function WorkerNodeId(worker: string): string { "capnode:worker:" + worker }

  /** A worker's health is stamped with the clock; its own times come from the manifest. */
  function ProjectWorker(w: WorkerManifest, now: string): Node {
    Node(WorkerNodeId(w.id), "windows_worker", w.identity, w.capabilities, w.trust, w.taskTypes, w.dataLabels,
         w.privacyLevels, w.location, w.health, now, w.backendIds, w.backendClasses, None, Some(w.id),
         if w.explicitHash.Some? && w.explicitHash.value != "" then Given(w.explicitHash.value) else DigestOf(w),
         w.createdAt, w.updatedAt)
  }

  /** A backend node is stamped with the clock, and so is its health when the manifest has none. */
  function ProjectBackend(b: BackendManifest, now: string): Node {
    Node(b.node, b.backendClass, b.name, b.taskTypes, "trusted_private", b.taskTypes, [], b.privacyLevels,
         b.location, if b.health.Some? then b.health.value.status else "unknown",
         if b.health.Some? then b.health.value.checkedAt else now, [b.id], [b.backendClass], Some(b.id), None,
         Given(b.manifestHash), now, now)
  }

  function Projected(ws: seq<WorkerManifest>, bs: seq<BackendManifest>, now: string): (nodes: seq<Node>)
    ensures |nodes| == |ws| + |bs|
    ensures forall i :: 0 <= i < |ws| ==> nodes[i] == ProjectWorker(ws[i], now)
    ensures forall i :: 0 <= i < |bs| ==> nodes[|ws| + i] == ProjectBackend(bs[i], now)
  {
    seq(|ws|, i requires 0 <= i < |ws| => ProjectWorker(ws[i], now))
    + seq(|bs|, i requires 0 <= i < |bs| => ProjectBackend(bs[i], now))
  }

  /////// Pairing rules

  predicate LocationOk(b: BackendManifest) {
    && (b.backendClass in GATEWAY_CLASSES ==> b.location == "mac_control_plane")
    && (b.backendClass in LOCAL_CLASSES ==> b.location == "local_machine" || b.location == "windows_worker")
  }

  /** The backend manifest an id resolves to: the last one listed. */
  function Resolve(bs: seq<BackendManifest>, id: string): Option<BackendManifest> {
    if bs == [] then None
    else if bs[|bs| - 1].id == id then Some(bs[|bs| - 1])
    else Resolve(bs[..|bs| - 1], id)
  }

  predicate PairOk(w: WorkerManifest, b: BackendManifest) {
    && LocationOk(b) && b.id in w.backendIds && b.backendClass in w.backendClasses
    && if b.backendClass in GATEWAY_CLASSES then w.id == GATEWAY_WORKER else b.backendClass in LOCAL_CLASSES
  }

  predicate WorkerOk(w: WorkerManifest, bs: seq<BackendManifest>) {
    forall id :: id in w.backendIds ==> Resolve(bs, id).Some? && PairOk(w, Resolve(bs, id).value)
  }

  /** Without backends the workers are not looked at. */
  predicate PairingOk(ws: seq<WorkerManifest>, bs: seq<BackendManifest>) {
    && (forall b :: b in bs ==> LocationOk(b))
    && (bs != [] ==> forall w :: w in ws ==> WorkerOk(w, bs))
  }

  /** Building the nodes refuses an execution location the node model does not know. */
  predicate NodesBuild(bs: seq<BackendManifest>) { forall b :: b in bs ==> b.location in LOCATIONS }

  /////// The rebuild

  function Upsert(table: Table, node: Node): Table {
    table[node.id := Row(node, if node.id in table then table[node.id].createdAt else node.createdAt)]
  }

  function UpsertAll(table: Table, nodes: seq<Node>): Table {
    if nodes == [] then table else Upsert(UpsertAll(table, nodes[..|nodes| - 1]), nodes[|nodes| - 1])
  }

  function NodeIds(nodes: seq<Node>): set<string> { set n | n in nodes :: n.id }

  function KeepOnly(table: Table, ids: set<string>): Table { map id | id in table && id in ids :: table[id] }

  function Rebuild(table: Table, nodes: seq<Node>): Table { UpsertAll(KeepOnly(table, NodeIds(nodes)), nodes) }

  /////// What it leaves, said without it

  /** The node an id ends up with: the last one projected for it. */
  function LastFor(nodes: seq<Node>, id: string): Option<Node> {
    if nodes == [] then None
    else if nodes[|nodes| - 1].id == id then Some(nodes[|nodes| - 1])
    else LastFor(nodes[..|nodes| - 1], id)
  }

  function FirstFor(nodes: seq<Node>, id: string): Option<Node> {
    if nodes == [] then None
    else
      var earlier := FirstFor(nodes[..|nodes| - 1], id);
      if earlier.Some? then earlier
      else if nodes[|nodes| - 1].id == id then Some(nodes[|nodes| - 1]) else None
  }

  /** The table a rebuild must leave: a row per projected id and no other, its body the last
      projection for that id, its created_at the stored one or else the first projection's. */
  ghost predicate IsRebuilt(before: Table, nodes: seq<Node>, after: Table) {
    && after.Keys == NodeIds(nodes)
    && forall id :: id in after ==>
         && LastFor(nodes, id) == Some(after[id].body)
         && FirstFor(nodes, id).Some?
         && after[id].createdAt == (if id in before then before[id].createdAt else FirstFor(nodes, id).value.createdAt)
  }

  /** The row an id has after upserting `nodes` into `table`. */
  ghost predicate RowIs(table: Table, nodes: seq<Node>, id: string, row: Row) {
    match LastFor(nodes, id)
    case None => id in table && row == table[id]
    case Some(n) =>
      && row.body == n && FirstFor(nodes, id).Some?
      && row.createdAt == (if id in table then table[id].createdAt else FirstFor(nodes, id).value.createdAt)
  }

  lemma RowIsNext(table: Table, init: seq<Node>, last: Node, id: string, row: Row)
    requires RowIs(table, init, id, row)
    ensures RowIs(table, init + [last], id, if id == last.id then Row(last, row.createdAt) else row)
  {
    assert (init + [last])[..|init|] == init;
    LastForIds(init);
  }

  lemma RowIsNew(table: Table, init: seq<Node>, last: Node)
    requires last.id !in table && last.id !in NodeIds(init)
    ensures RowIs(table, init + [last], last.id, Row(last, last.createdAt))
  {
    assert (init + [last])[..|init|] == init;
    LastForIds(init);
  }

  lemma {:induction false} UpsertAllExact(table: Table, nodes: seq<Node>)
    ensures UpsertAll(table, nodes).Keys == table.Keys + NodeIds(nodes)
    ensures forall id :: id in UpsertAll(table, nodes) ==> RowIs(table, nodes, id, UpsertAll(table, nodes)[id])
  {
    if nodes != [] {
      var init, last := nodes[..|nodes| - 1], nodes[|nodes| - 1];
      UpsertAllExact(table, init);
      var before, after := UpsertAll(table, init), UpsertAll(table, nodes);
      assert nodes == init + [last];
      assert NodeIds(nodes) == NodeIds(init) + {last.id};
      forall id | id in after ensures RowIs(table, nodes, id, after[id]) {
        if id in before { RowIsNext(table, init, last, id, before[id]); } else { RowIsNew(table, init, last); }
      }
    }
  }

  lemma {:induction false} LastForIds(nodes: seq<Node>)
    ensures forall id :: LastFor(nodes, id).Some? <==> id in NodeIds(nodes)
    ensures forall id :: FirstFor(nodes, id).Some? <==> id in NodeIds(nodes)
    ensures forall id :: LastFor(nodes, id).Some? ==>
              LastFor(nodes, id).value in nodes && LastFor(nodes, id).value.id == id
  {
    if nodes != [] {
      var init, last := nodes[..|nodes| - 1], nodes[|nodes| - 1];
      LastForIds(init);
      assert nodes == init + [last];
      assert NodeIds(nodes) == NodeIds(init) + {last.id};
    }
  }

  /** Deleting and upserting leaves exactly that table. */
  lemma RebuildExact(table: Table, nodes: seq<Node>)
    ensures IsRebuilt(table, nodes, Rebuild(table, nodes))
  {
    var kept := KeepOnly(table, NodeIds(nodes));
    UpsertAllExact(kept, nodes);
    LastForIds(nodes);
    assert kept.Keys + NodeIds(nodes) == NodeIds(nodes);
  }

  /** Main result: from any prior table the rebuild has the same ids and bodies as from nothing,
      and rows the prior table lacked are the same altogether. */
  lemma IncrementalIsFromScratch(table: Table, nodes: seq<Node>)
    ensures var after, scratch := Rebuild(table, nodes), Rebuild(map[], nodes);
            && after.Keys == scratch.Keys == NodeIds(nodes)
            && (forall id :: id in after ==>
                  && after[id].body == scratch[id].body
                  && after[id].createdAt == (if id in table then table[id].createdAt else scratch[id].createdAt))
  {
    RebuildExact(table, nodes);
    RebuildExact(map[], nodes);
  }

  /** Rebuilding again from the same nodes changes nothing. */
  lemma RebuildIdempotent(table: Table, nodes: seq<Node>)
    ensures Rebuild(Rebuild(table, nodes), nodes) == Rebuild(table, nodes)
  {
    RebuildExact(table, nodes);
    RebuildExact(Rebuild(table, nodes), nodes);
    var once, twice := Rebuild(table, nodes), Rebuild(Rebuild(table, nodes), nodes);
    forall id | id in once ensures once[id] == twice[id] {}
  }

  /** The same node projected at another time: a worker's only differs in when its health was
      checked, a backend's also in its own times. */
  ghost predicate SameButClock(n: Node, m: Node) {
    && m == n.(checkedAt := m.checkedAt, createdAt := m.createdAt, updatedAt := m.updatedAt)
    && (n.workerId.Some? ==> m.createdAt == n.createdAt && m.updatedAt == n.updatedAt)
  }

  lemma ProjectedAligned(ws: seq<WorkerManifest>, bs: seq<BackendManifest>, now: string, now': string, k: nat)
    requires k < |ws| + |bs|
    ensures SameButClock(Projected(ws, bs, now)[k], Projected(ws, bs, now')[k])
    ensures Projected(ws, bs, now)[k] == Projected(ws, bs, now')[k] ==> now == now'
  {
    var nodes, nodes' := Projected(ws, bs, now), Projected(ws, bs, now');
    if k >= |ws| {
      assert nodes[|ws| + (k - |ws|)] == ProjectBackend(bs[k - |ws|], now);
      assert nodes'[|ws| + (k - |ws|)] == ProjectBackend(bs[k - |ws|], now');
    }
  }

  /** Both clocks give an id its body from the same manifest. */
  lemma SameLast(ws: seq<WorkerManifest>, bs: seq<BackendManifest>, now: string, now': string, id: string)
    returns (k: nat)
    requires id in NodeIds(Projected(ws, bs, now))
    ensures k < |ws| + |bs|
    ensures LastFor(Projected(ws, bs, now), id) == Some(Projected(ws, bs, now)[k])
    ensures LastFor(Projected(ws, bs, now'), id) == Some(Projected(ws, bs, now')[k])
  {
    var nodes, nodes' := Projected(ws, bs, now), Projected(ws, bs, now');
    forall i | 0 <= i < |nodes| ensures nodes[i].id == nodes'[i].id { ProjectedAligned(ws, bs, now, now', i); }
    k := LastForIndex(nodes, id);
    assert nodes'[k] in nodes';
    var k' := LastForIndex(nodes', id);
  }

  lemma SameIds(ws: seq<WorkerManifest>, bs: seq<BackendManifest>, now: string, now': string)
    ensures NodeIds(Projected(ws, bs, now)) == NodeIds(Projected(ws, bs, now'))
  {
    var nodes, nodes' := Projected(ws, bs, now), Projected(ws, bs, now');
    forall i | 0 <= i < |nodes| ensures nodes[i].id == nodes'[i].id { ProjectedAligned(ws, bs, now, now', i); }
    forall id | id in NodeIds(nodes) ensures id in NodeIds(nodes') {
      var n :| n in nodes && n.id == id;
      var i :| 0 <= i < |nodes| && nodes[i] == n;
      assert nodes'[i] in nodes';
    }
    forall id | id in NodeIds(nodes') ensures id in NodeIds(nodes) {
      var n :| n in nodes' && n.id == id;
      var i :| 0 <= i < |nodes'| && nodes'[i] == n;
      assert nodes[i] in nodes;
    }
  }

  /** Main result on repetition: rebuilding from the same manifests at a later time keeps every id
      and every created_at column and changes bodies only where the clock is stamped on them; the
      table is unchanged if and only if the clock is, or there are no manifests at all. */
  lemma RebuildLater(table: Table, ws: seq<WorkerManifest>, bs: seq<BackendManifest>, now: string, now': string)
    ensures var once := Rebuild(table, Projected(ws, bs, now));
            var twice := Rebuild(once, Projected(ws, bs, now'));
            && twice.Keys == once.Keys
            && (forall id :: id in once ==>
                  twice[id].createdAt == once[id].createdAt && SameButClock(once[id].body, twice[id].body))
            && (twice == once <==> now == now' || (ws == [] && bs == []))
  {
    var nodes, nodes' := Projected(ws, bs, now), Projected(ws, bs, now');
    var once := Rebuild(table, nodes);
    var twice := Rebuild(once, nodes');
    RebuildExact(table, nodes);
    RebuildExact(once, nodes');
    SameIds(ws, bs, now, now');
    forall id | id in once
      ensures SameButClock(once[id].body, twice[id].body) && (once[id].body == twice[id].body ==> now == now')
    {
      var k := SameLast(ws, bs, now, now', id);
      ProjectedAligned(ws, bs, now, now', k);
    }
    if now == now' {
      RebuildIdempotent(table, nodes);
    } else if |nodes| > 0 {
      assert nodes[0] in nodes && nodes[0].id in once;
    } else {
      assert once.Keys == {} && twice.Keys == {};
    }
  }

  /** For one: a single backend rebuilt a tick later. */
  lemma RebuildTicks(b: BackendManifest)
    ensures var once := Rebuild(map[], Projected([], [b], "1"));
            Rebuild(once, Projected([], [b], "2")) != once
  {
    RebuildLater(map[], [], [b], "1", "2");
  }

  /** The backend an id of this worker node resolves to exists, has a row and fits the worker. */
  ghost predicate BackendFits(node: Node, bs: seq<BackendManifest>, id: string, ids: set<string>) {
    && Resolve(bs, id).Some?
    && var b := Resolve(bs, id).value;
       && b.id == id && b in bs && b.node in ids && b.backendClass in node.backendClasses
       && (b.backendClass in GATEWAY_CLASSES ==>
             node.workerId == Some(GATEWAY_WORKER) && b.location == "mac_control_plane")
       && (b.backendClass !in GATEWAY_CLASSES ==>
             b.backendClass in LOCAL_CLASSES && (b.location == "local_machine" || b.location == "windows_worker"))
  }

  /** A row that stands for a worker: its body comes from a worker manifest that was paired. */
  ghost predicate WorkerRowSound(row: Row, w: WorkerManifest, bs: seq<BackendManifest>, now: string, ids: set<string>) {
    && row.body == ProjectWorker(w, now)
    && forall id :: id in row.body.backendIds ==> BackendFits(row.body, bs, id, ids)
  }

  lemma PairedFits(ws: seq<WorkerManifest>, bs: seq<BackendManifest>, now: string, w: WorkerManifest, id: string)
    requires WorkerOk(w, bs) && id in w.backendIds
    ensures BackendFits(ProjectWorker(w, now), bs, id, NodeIds(Projected(ws, bs, now)))
  {
    ResolveIn(bs, id);
    BackendHasRow(ws, bs, now, Resolve(bs, id).value);
  }

  lemma {:induction false} ResolveIn(bs: seq<BackendManifest>, id: string)
    ensures Resolve(bs, id).Some? ==> Resolve(bs, id).value in bs && Resolve(bs, id).value.id == id
  {
    if bs != [] { ResolveIn(bs[..|bs| - 1], id); }
  }

  /** When backends are given, every worker row of the rebuilt table references backends that
      exist, have a row, and satisfy the pairing rules. */
  lemma WorkerRowsPaired(table: Table, ws: seq<WorkerManifest>, bs: seq<BackendManifest>, now: string, id: string)
    requires PairingOk(ws, bs) && bs != []
    requires var after := Rebuild(table, Projected(ws, bs, now)); id in after && after[id].body.workerId.Some?
    ensures var after := Rebuild(table, Projected(ws, bs, now));
            exists w :: w in ws && WorkerRowSound(after[id], w, bs, now, after.Keys)
  {
    var nodes := Projected(ws, bs, now);
    var after := Rebuild(table, nodes);
    RebuildExact(table, nodes);
    LastForIds(nodes);
    var w := WorkerBehind(ws, bs, now, after[id].body);
    assert WorkerOk(w, bs);
    forall b | b in w.backendIds ensures BackendFits(ProjectWorker(w, now), bs, b, NodeIds(nodes)) {
      PairedFits(ws, bs, now, w, b);
    }
    assert WorkerRowSound(after[id], w, bs, now, after.Keys);
  }

  lemma WorkerBehind(ws: seq<WorkerManifest>, bs: seq<BackendManifest>, now: string, node: Node)
    returns (w: WorkerManifest)
    requires node in Projected(ws, bs, now) && node.workerId.Some?
    ensures w in ws && node == ProjectWorker(w, now)
  {
    var nodes := Projected(ws, bs, now);
    forall k | |ws| <= k < |nodes| ensures nodes[k].workerId.None? {
      assert nodes[|ws| + (k - |ws|)] == ProjectBackend(bs[k - |ws|], now);
    }
    var i :| 0 <= i < |nodes| && nodes[i] == node;
    w := ws[i];
  }

  lemma BackendHasRow(ws: seq<WorkerManifest>, bs: seq<BackendManifest>, now: string, b: BackendManifest)
    requires b in bs
    ensures b.node in NodeIds(Projected(ws, bs, now))
  {
    var nodes := Projected(ws, bs, now);
    var k :| 0 <= k < |bs| && bs[k] == b;
    assert nodes[|ws| + k].id == b.node && nodes[|ws| + k] in nodes;
  }

  lemma {:induction false} LastForIndex(nodes: seq<Node>, id: string) returns (k: nat)
    requires id in NodeIds(nodes)
    ensures k < |nodes| && nodes[k].id == id && LastFor(nodes, id) == Some(nodes[k])
    ensures forall j :: k < j < |nodes| ==> nodes[j].id != id
  {
    var init, last := nodes[..|nodes| - 1], nodes[|nodes| - 1];
    if last.id == id {
      k := |nodes| - 1;
    } else {
      assert nodes == init + [last];
      k := LastForIndex(init, id);
    }
  }

  /////// The rebuilt table against the manifests

  ghost predicate LastWorker(ws: seq<WorkerManifest>, id: string, i: int) {
    && 0 <= i < |ws| && "capnode:worker:" + ws[i].id == id
    && forall k :: i < k < |ws| ==> "capnode:worker:" + ws[k].id != id
  }

  ghost predicate LastBackend(bs: seq<BackendManifest>, id: string, i: int) {
    && 0 <= i < |bs| && bs[i].node == id
    && forall k :: i < k < |bs| ==> bs[k].node != id
  }

  /** The node says of itself what the worker's manifest says, with its health as of now. */
  ghost predicate WorkerSays(n: Node, w: WorkerManifest, now: string) {
    && n.nodeType == "windows_worker" && n.workerId == Some(w.id) && n.backendId == None && n.identity == w.identity
    && n.capabilities == w.capabilities && n.taskTypes == w.taskTypes && n.dataLabels == w.dataLabels
    && n.privacyLevels == w.privacyLevels && n.location == w.location && n.trust == w.trust
    && n.backendIds == w.backendIds && n.backendClasses == w.backendClasses
    && n.status == w.health && n.checkedAt == now && n.createdAt == w.createdAt && n.updatedAt == w.updatedAt
    && n.hash == match w.explicitHash
                 case Some(text) => if text == "" then DigestOf(w) else Given(text)
                 case None => DigestOf(w)
  }

  /** Likewise for a backend, which is trusted, carries no data labels and is stamped with now. */
  ghost predicate BackendSays(n: Node, b: BackendManifest, now: string) {
    && n.nodeType == b.backendClass && n.workerId == None && n.backendId == Some(b.id) && n.identity == b.name
    && n.capabilities == b.taskTypes && n.taskTypes == b.taskTypes && n.dataLabels == []
    && n.privacyLevels == b.privacyLevels && n.location == b.location && n.trust == "trusted_private"
    && n.backendIds == [b.id] && n.backendClasses == [b.backendClass]
    && n.createdAt == now && n.updatedAt == now && n.hash == Given(b.manifestHash)
    && Health(n.status, n.checkedAt) == match b.health
                                        case Some(health) => health
                                        case None => Health("unknown", now)
  }

  /** Main result, from manifests to rows: there is a row for exactly the ids a manifest claims. It
      says what the last backend claiming the id says, or else what the last such worker says. */
  lemma RebuiltSays(table: Table, ws: seq<WorkerManifest>, bs: seq<BackendManifest>, now: string, id: string)
    ensures var after := Rebuild(table, Projected(ws, bs, now));
            if exists i :: LastBackend(bs, id, i)
            then id in after && exists i :: LastBackend(bs, id, i) && BackendSays(after[id].body, bs[i], now)
            else if exists i :: LastWorker(ws, id, i)
            then id in after && exists i :: LastWorker(ws, id, i) && WorkerSays(after[id].body, ws[i], now)
            else id !in after
  {
    var nodes := Projected(ws, bs, now);
    RebuildExact(table, nodes);
    if i :| LastBackend(bs, id, i) {
      assert nodes[|ws| + i].id == id && nodes[|ws| + i] in nodes;
      BackendLast(ws, bs, now, id, i);
    } else if i :| LastWorker(ws, id, i) {
      assert nodes[i].id == id && nodes[i] in nodes;
      WorkerLast(ws, bs, now, id, i);
    } else if id in NodeIds(nodes) {
      NotProjected(ws, bs, now, id);
    }
  }

  lemma BackendLast(ws: seq<WorkerManifest>, bs: seq<BackendManifest>, now: string, id: string, i: nat)
    requires LastBackend(bs, id, i)
    ensures LastFor(Projected(ws, bs, now), id) == Some(ProjectBackend(bs[i], now))
  {
    var nodes := Projected(ws, bs, now);
    forall k | |ws| + i < k < |nodes| ensures nodes[k].id != id {
      assert nodes[|ws| + (k - |ws|)].id == bs[k - |ws|].node;
    }
    LastAt(nodes, id, |ws| + i);
  }

  lemma WorkerLast(ws: seq<WorkerManifest>, bs: seq<BackendManifest>, now: string, id: string, i: nat)
    requires LastWorker(ws, id, i) && !exists j :: LastBackend(bs, id, j)
    ensures LastFor(Projected(ws, bs, now), id) == Some(ProjectWorker(ws[i], now))
  {
    var nodes := Projected(ws, bs, now);
    NoBackend(bs, id);
    forall k | i < k < |nodes| ensures nodes[k].id != id {
      if k >= |ws| { assert nodes[|ws| + (k - |ws|)].id == bs[k - |ws|].node; }
    }
    LastAt(nodes, id, i);
  }

  lemma NotProjected(ws: seq<WorkerManifest>, bs: seq<BackendManifest>, now: string, id: string)
    requires (forall i :: !LastBackend(bs, id, i)) && forall i :: !LastWorker(ws, id, i)
    ensures id !in NodeIds(Projected(ws, bs, now))
  {
    var nodes := Projected(ws, bs, now);
    NoBackend(bs, id);
    NoWorker(ws, id);
    forall k | 0 <= k < |nodes| ensures nodes[k].id != id {
      if k >= |ws| { assert nodes[|ws| + (k - |ws|)].id == bs[k - |ws|].node; }
    }
  }

  lemma {:induction false} NoBackend(bs: seq<BackendManifest>, id: string)
    requires forall i :: !LastBackend(bs, id, i)
    ensures forall i :: 0 <= i < |bs| ==> bs[i].node != id
  {
    if bs != [] {
      var init, last := bs[..|bs| - 1], |bs| - 1;
      assert !LastBackend(bs, id, last);
      forall i ensures !LastBackend(init, id, i) { assert !LastBackend(bs, id, i); }
      NoBackend(init, id);
    }
  }

  lemma {:induction false} NoWorker(ws: seq<WorkerManifest>, id: string)
    requires forall i :: !LastWorker(ws, id, i)
    ensures forall i :: 0 <= i < |ws| ==> "capnode:worker:" + ws[i].id != id
  {
    if ws != [] {
      var init, last := ws[..|ws| - 1], |ws| - 1;
      assert !LastWorker(ws, id, last);
      forall i ensures !LastWorker(init, id, i) { assert !LastWorker(ws, id, i); }
      NoWorker(init, id);
    }
  }

  lemma {:induction false} LastAt(nodes: seq<Node>, id: string, k: nat)
    requires k < |nodes| && nodes[k].id == id && forall j :: k < j < |nodes| ==> nodes[j].id != id
    ensures LastFor(nodes, id) == Some(nodes[k])
  {
    if k < |nodes| - 1 { LastAt(nodes[..|nodes| - 1], id, k); }
  }

  /////// Pairing, said over the manifests

  ghost predicate Gateway(b: BackendManifest) {
    b.backendClass == "api_model_gateway" || b.backendClass == "primary_model_gateway"
  }

  ghost predicate Local(b: BackendManifest) {
    b.backendClass == "browser_fetch" || b.backendClass == "local_script" || b.backendClass == "local_tool"
  }

  ghost predicate WellPlaced(b: BackendManifest) {
    && (Gateway(b) ==> b.location == "mac_control_plane")
    && (Local(b) ==> b.location == "local_machine" || b.location == "windows_worker")
  }

  /** The manifest the id means, which is the last one with it, suits the worker. */
  ghost predicate Suits(w: WorkerManifest, bs: seq<BackendManifest>, id: string, i: int) {
    && 0 <= i < |bs| && bs[i].id == id && (forall k :: i < k < |bs| ==> bs[k].id != id)
    && bs[i].backendClass in w.backendClasses
    && (if Gateway(bs[i]) then w.id == "wrk_control_plane_gateway" else Local(bs[i]))
  }

  /** Manifests pair exactly when every backend is well placed and, if there is any, everything a
      worker lists suits it. */
  lemma PairsExactly(ws: seq<WorkerManifest>, bs: seq<BackendManifest>)
    ensures PairingOk(ws, bs) <==>
              && (forall b :: b in bs ==> WellPlaced(b))
              && (bs != [] ==>
                    forall w, id :: w in ws && id in w.backendIds ==> exists i :: Suits(w, bs, id, i))
  {
    forall b: BackendManifest ensures LocationOk(b) <==> WellPlaced(b) {}
    if forall b :: b in bs ==> WellPlaced(b) {
      forall w: WorkerManifest, id | id in w.backendIds
        ensures (Resolve(bs, id).Some? && PairOk(w, Resolve(bs, id).value)) <==> exists i :: Suits(w, bs, id, i)
      {
        PairExactly(w, bs, id);
      }
    }
  }

  lemma PairExactly(w: WorkerManifest, bs: seq<BackendManifest>, id: string)
    requires id in w.backendIds && forall b :: b in bs ==> WellPlaced(b)
    ensures (Resolve(bs, id).Some? && PairOk(w, Resolve(bs, id).value)) <==> exists i :: Suits(w, bs, id, i)
  {
    ResolveIn(bs, id);
    if Resolve(bs, id).Some? {
      var k := ResolveLast(bs, id);
      if PairOk(w, bs[k]) { assert Suits(w, bs, id, k); }
      if i :| Suits(w, bs, id, i) { assert i == k; }
    } else if i :| Suits(w, bs, id, i) {
      ResolveAt(bs, id, i);
    }
  }

  lemma {:induction false} ResolveLast(bs: seq<BackendManifest>, id: string) returns (k: nat)
    requires Resolve(bs, id).Some?
    ensures k < |bs| && bs[k].id == id && (forall j :: k < j < |bs| ==> bs[j].id != id)
    ensures Resolve(bs, id) == Some(bs[k])
  {
    k := |bs| - 1;
    if bs[k].id != id { k := ResolveLast(bs[..|bs| - 1], id); }
  }

  lemma {:induction false} ResolveAt(bs: seq<BackendManifest>, id: string, i: nat)
    requires i < |bs| && bs[i].id == id
    ensures Resolve(bs, id).Some?
  {
    if bs[|bs| - 1].id != id { ResolveAt(bs[..|bs| - 1], id, i); }
  }

  /** A worker keeps a row of its own exactly when no backend manifest claims its node id: the
      backends are upserted last and would overwrite it. */
  lemma WorkerRowSurvives(table: Table, ws: seq<WorkerManifest>, bs: seq<BackendManifest>, now: string,
                          w: WorkerManifest)
    requires w in ws
    ensures var after := Rebuild(table, Projected(ws, bs, now));
            && WorkerNodeId(w.id) in after
            && (after[WorkerNodeId(w.id)].body.workerId == Some(w.id) <==>
                  forall b :: b in bs ==> b.node != WorkerNodeId(w.id))
  {
    var nodes, id := Projected(ws, bs, now), WorkerNodeId(w.id);
    RebuildExact(table, nodes);
    var i :| 0 <= i < |ws| && ws[i] == w;
    assert nodes[i].id == id && nodes[i] in nodes;
    var k := LastForIndex(nodes, id);
    if k < |ws| {
      SameWorker(ws[k].id, w.id);
      forall b | b in bs ensures b.node != id {
        var j :| 0 <= j < |bs| && bs[j] == b;
        assert nodes[|ws| + j].id == b.node;
      }
    } else {
      assert nodes[|ws| + (k - |ws|)] == ProjectBackend(bs[k - |ws|], now);
      assert bs[k - |ws|] in bs;
    }
  }

  /** A backend manifest that passes every check and takes a worker's node id. */
  function Squatter(worker: string): BackendManifest {
    BackendManifest("b", "local_tool", WorkerNodeId(worker), "b", [], [], "local_machine", "h", None)
  }

  /** It does happen: the registry accepts such a manifest, and the worker's row is gone. */
  lemma WorkerRowOverwritten(w: WorkerManifest, table: Table, now: string)
    requires w.backendIds == []
    ensures PairingOk([w], [Squatter(w.id)]) && NodesBuild([Squatter(w.id)])
    ensures var after := Rebuild(table, Projected([w], [Squatter(w.id)], now));
            && WorkerNodeId(w.id) in after
            && after[WorkerNodeId(w.id)].body == ProjectBackend(Squatter(w.id), now)
            && forall id :: id in after ==> after[id].body.workerId != Some(w.id)
  {
    SquatterPasses(w);
    var n, m := ProjectWorker(w, now), ProjectBackend(Squatter(w.id), now);
    assert Projected([w], [Squatter(w.id)], now) == [n, m];
    SecondNodeStays(table, n, m);
  }

  lemma SquatterPasses(w: WorkerManifest)
    requires w.backendIds == []
    ensures PairingOk([w], [Squatter(w.id)]) && NodesBuild([Squatter(w.id)])
  {
  }

  /** Of two nodes with one id the second takes the row. */
  lemma SecondNodeStays(table: Table, n: Node, m: Node)
    requires n.id == m.id
    ensures Rebuild(table, [n, m]).Keys == {m.id} && Rebuild(table, [n, m])[m.id].body == m
  {
    RebuildExact(table, [n, m]);
    TwoNodes(n, m);
  }

  lemma TwoNodes(n: Node, m: Node)
    requires n.id == m.id
    ensures NodeIds([n, m]) == {m.id} && LastFor([n, m], m.id) == Some(m)
  {
    assert m in [n, m];
  }

  lemma SameWorker(a: string, b: string)
    requires WorkerNodeId(a) == WorkerNodeId(b)
    ensures a == b
  {
    assert a == WorkerNodeId(a)[|"capnode:worker:"|..];
    assert b == WorkerNodeId(b)[|"capnode:worker:"|..];
  }

  /////// As it runs

  datatype Reply = Rebuilt(nodes: seq<Node>) | Refused

  datatype Snapshot = Snapshot(node: string, worker: Option<string>, status: string)

  function SnapshotOf(n: Node): Snapshot { Snapshot(n.id, n.workerId, n.status) }

  class CapacityRegistry {
    var rows: Table
    var snapshots: seq<Snapshot>

    constructor ()
      ensures rows == map[] && snapshots == []
    {
      rows, snapshots := map[], [];
    }

    method ValidatePairing(ws: seq<WorkerManifest>, bs: seq<BackendManifest>) returns (ok: bool)
      ensures ok == PairingOk(ws, bs)
    {
      for i := 0 to |bs|
        invariant forall k :: 0 <= k < i ==> LocationOk(bs[k])
      {
        if !LocationOk(bs[i]) { return false; }
      }
      if bs == [] { return true; }
      for i := 0 to |ws|
        invariant forall k :: 0 <= k < i ==> WorkerOk(ws[k], bs)
      {
        for j := 0 to |ws[i].backendIds|
          invariant forall k :: 0 <= k < j ==>
                      Resolve(bs, ws[i].backendIds[k]).Some? && PairOk(ws[i], Resolve(bs, ws[i].backendIds[k]).value)
        {
          var b := Resolve(bs, ws[i].backendIds[j]);
          if b.None? || !PairOk(ws[i], b.value) {
            assert ws[i] in ws && ws[i].backendIds[j] in ws[i].backendIds;
            return false;
          }
        }
      }
      ok := true;
    }

    method UpsertCapacityNode(node: Node)
      modifies this`rows
      ensures rows == Upsert(old(rows), node)
    {
      if node.id in rows {
        rows := rows[node.id := Row(node, rows[node.id].createdAt)];
      } else {
        rows := rows[node.id := Row(node, node.createdAt)];
      }
    }

    /** The loop: every node upserted, with a health snapshot, in order. */
    method UpsertNodes(nodes: seq<Node>)
      modifies this
      ensures rows == UpsertAll(old(rows), nodes)
      ensures |snapshots| == |old(snapshots)| + |nodes| && old(snapshots) <= snapshots
      ensures forall i :: 0 <= i < |nodes| ==> snapshots[|old(snapshots)| + i] == SnapshotOf(nodes[i])
    {
      for i := 0 to |nodes|
        invariant rows == UpsertAll(old(rows), nodes[..i])
        invariant |snapshots| == |old(snapshots)| + i && old(snapshots) <= snapshots
        invariant forall k :: 0 <= k < i ==> snapshots[|old(snapshots)| + k] == SnapshotOf(nodes[k])
      {
        assert nodes[..i + 1][..i] == nodes[..i];
        UpsertCapacityNode(nodes[i]);
        snapshots := snapshots + [SnapshotOf(nodes[i])];
      }
      assert nodes[..|nodes|] == nodes;
    }

    /** rebuild_capacity_nodes: refuse and change nothing, or leave exactly the rebuilt table. */
    method RebuildCapacityNodes(ws: seq<WorkerManifest>, bs: seq<BackendManifest>, now: string) returns (reply: Reply)
      modifies this
      ensures reply.Rebuilt? <==> PairingOk(ws, bs) && NodesBuild(bs)
      ensures reply.Refused? ==> rows == old(rows) && snapshots == old(snapshots)
      ensures reply.Rebuilt? ==>
                && reply.nodes == Projected(ws, bs, now)
                && rows == Rebuild(old(rows), reply.nodes) && IsRebuilt(old(rows), reply.nodes, rows)
                && |snapshots| == |old(snapshots)| + |reply.nodes| && old(snapshots) <= snapshots
                && (forall i :: 0 <= i < |reply.nodes| ==>
                      snapshots[|old(snapshots)| + i] ==
                      Snapshot(reply.nodes[i].id, reply.nodes[i].workerId, reply.nodes[i].status))
    {
      var paired := ValidatePairing(ws, bs);
      if !paired || !NodesBuild(bs) { return Refused; }
      var nodes := Projected(ws, bs, now);
      rows := KeepOnly(rows, NodeIds(nodes));
      UpsertNodes(nodes);
      RebuildExact(old(rows), nodes);
      reply := Rebuilt(nodes);
    }
  }
}
