// From scores to ranks and a selection: what the sort gives, said without it.

module Ranking {
  import opened Common
  import opened TimeText
  import opened Sorting
  import opened Scoring

  /** The sort key: passing first, then higher total, lower priority number, lower cost, id. */
  datatype Key = Key(failing: bool, total: real, priority: nat, cost: nat, id: string)

  predicate KeyLess(k: Key, l: Key) {
    if k.failing != l.failing then l.failing
    else if k.total != l.total then k.total > l.total
    else if k.priority != l.priority then k.priority < l.priority
    else if k.cost != l.cost then k.cost < l.cost
    else TextLess(k.id, l.id)
  }

  datatype Trace = Trace(id: string, passing: bool, total: real, key: Key)

  predicate TraceLess(t: Trace, u: Trace) { KeyLess(t.key, u.key) }

  lemma KeyTotal(k: Key, l: Key)
    ensures KeyLess(k, l) || KeyLess(l, k) || k == l
    ensures !(KeyLess(k, l) && KeyLess(l, k)) && !KeyLess(k, k)
  {
    TextTotal(k.id, l.id);
    Irreflexive(k.id);
    if TextLess(k.id, l.id) && TextLess(l.id, k.id) { TextTransitive(k.id, l.id, k.id); }
  }

  lemma KeyTransitive(k: Key, l: Key, m: Key)
    requires KeyLess(k, l) && KeyLess(l, m)
    ensures KeyLess(k, m)
  {
    if TextLess(k.id, l.id) && TextLess(l.id, m.id) { TextTransitive(k.id, l.id, m.id); }
  }

  lemma TraceOrder()
    ensures StrictOrder(TraceLess)
  {
    forall t, u, v | TraceLess(t, u) && TraceLess(u, v) ensures TraceLess(t, v) { KeyTransitive(t.key, u.key, v.key); }
    forall t: Trace ensures !TraceLess(t, t) { KeyTotal(t.key, t.key); }
    forall t: Trace, u: Trace, v: Trace | !TraceLess(t, u) && !TraceLess(u, v) ensures !TraceLess(t, v) {
      KeyTotal(t.key, u.key);
      KeyTotal(u.key, v.key);
      KeyTotal(t.key, v.key);
      if TraceLess(t, v) && KeyLess(u.key, t.key) { KeyTransitive(u.key, t.key, v.key); }
    }
  }

  /////// Scoring a candidate list

  ghost predicate AllKnown(ctx: Context, cs: seq<Candidate>) { forall c :: c in cs ==> Known(ctx, c) }

  /** candidate_by_id: the last candidate with an id wins. */
  function ById(cs: seq<Candidate>): map<string, Candidate> {
    if cs == [] then map[] else ById(cs[..|cs| - 1])[cs[|cs| - 1].id := cs[|cs| - 1]]
  }

  function TraceOf(ctx: Context, c: Candidate, owner: Candidate): Trace
    requires Known(ctx, c)
  {
    var total := TotalOf(ctx, c);
    Trace(c.id, Passes(ctx, c), total, Key(!Passes(ctx, c), total, owner.priority, owner.cost, c.id))
  }

  lemma {:induction false} ByIdHas(cs: seq<Candidate>)
    ensures forall c :: c in cs ==> c.id in ById(cs)
    ensures forall id :: id in ById(cs) ==> ById(cs)[id] in cs && ById(cs)[id].id == id
  {
    if cs != [] {
      var init := cs[..|cs| - 1];
      ByIdHas(init);
      assert cs == init + [cs[|cs| - 1]];
    }
  }

  function Traces(ctx: Context, cs: seq<Candidate>, byId: map<string, Candidate>): (r: seq<Trace>)
    requires forall c :: c in cs ==> Known(ctx, c) && c.id in byId
    ensures |r| == |cs|
  {
    seq(|cs|, i requires 0 <= i < |cs| => TraceOf(ctx, cs[i], byId[cs[i].id]))
  }

  /** The rank the report shows for an id: its last position in the ranked list, from 1. */
  function RankIn(ranked: seq<Trace>, id: string): nat {
    if ranked == [] then 0
    else if ranked[|ranked| - 1].id == id then |ranked|
    else RankIn(ranked[..|ranked| - 1], id)
  }

  /** The trace the report shows for the id of `t`: the last one ranked with that id. */
  function LastWith(ranked: seq<Trace>, t: Trace): Trace {
    if ranked == [] then t
    else if ranked[|ranked| - 1].id == t.id then ranked[|ranked| - 1]
    else LastWith(ranked[..|ranked| - 1], t)
  }

  function FirstPassing(ranked: seq<Trace>): Option<string> {
    if ranked == [] then None
    else if ranked[0].passing then Some(ranked[0].id)
    else FirstPassing(ranked[1..])
  }

  datatype Rejection = HardFilterFailed(id: string) | LowerScore(id: string)

  datatype Report = Report(selected: string, scored: bool, ranks: seq<nat>, traces: seq<Trace>,
                           rejected: seq<Rejection>)

  function RejectionOf(t: Trace): Rejection { if t.passing then LowerScore(t.id) else HardFilterFailed(t.id) }

  function Rejections(traces: seq<Trace>, selected: string): seq<Rejection> {
    if traces == [] then []
    else
      var last := traces[|traces| - 1];
      Rejections(traces[..|traces| - 1], selected) + if last.id == selected then [] else [RejectionOf(last)]
  }

  function Ranked(ctx: Context, cs: seq<Candidate>): seq<Trace>
    requires AllKnown(ctx, cs)
  {
    ByIdHas(cs);
    Sort(TraceLess, Traces(ctx, cs, ById(cs)))
  }

  function Selected(ctx: Context, cs: seq<Candidate>, existing: string): string
    requires AllKnown(ctx, cs)
  {
    var first := FirstPassing(Ranked(ctx, cs));
    if first.Some? then first.value else existing
  }

  /////// What rank and selection mean

  ghost predicate DistinctIds(cs: seq<Candidate>) { forall i, j :: 0 <= i < j < |cs| ==> cs[i].id != cs[j].id }

  function KeyOf(ctx: Context, c: Candidate): Key
    requires Known(ctx, c)
  {
    Key(!Passes(ctx, c), TotalOf(ctx, c), c.priority, c.cost, c.id)
  }

  /** The keys of a candidate list, order forgotten. */
  ghost function KeysOf(ctx: Context, cs: seq<Candidate>): set<Key>
    requires AllKnown(ctx, cs)
  {
    set c | c in cs :: KeyOf(ctx, c)
  }

  ghost function KeysAhead(keys: set<Key>, k: Key): set<Key> { set l | l in keys && KeyLess(l, k) }

  /** The best passing key of a set. */
  ghost predicate Best(keys: set<Key>, k: Key) {
    k in keys && !k.failing && forall l :: l in keys && l != k ==> KeyLess(k, l)
  }

  lemma {:induction false} ByIdOwn(cs: seq<Candidate>)
    requires DistinctIds(cs)
    ensures forall c :: c in cs ==> c.id in ById(cs) && ById(cs)[c.id] == c
  {
    if cs != [] {
      var init, last := cs[..|cs| - 1], cs[|cs| - 1];
      ByIdOwn(init);
      forall c | c in cs ensures c.id in ById(cs) && ById(cs)[c.id] == c {
        if c != last { assert c in init; }
      }
    }
  }

  /** With distinct ids the traces carry each candidate's own key. */
  lemma TraceKeys(ctx: Context, cs: seq<Candidate>)
    requires AllKnown(ctx, cs) && DistinctIds(cs)
    ensures forall c :: c in cs ==> c.id in ById(cs)
    ensures forall i :: 0 <= i < |cs| ==> OwnTrace(ctx, cs[i], Traces(ctx, cs, ById(cs))[i])
  {
    ByIdOwn(cs);
    var traces := Traces(ctx, cs, ById(cs));
    forall i | 0 <= i < |cs| ensures OwnTrace(ctx, cs[i], traces[i]) { assert ById(cs)[cs[i].id] == cs[i]; }
  }

  ghost predicate OwnTrace(ctx: Context, c: Candidate, t: Trace)
    requires Known(ctx, c)
  {
    t == TraceOf(ctx, c, c)
  }

  /////// Counting

  function CountBelow(s: seq<Trace>, k: Key): nat {
    if s == [] then 0 else CountBelow(s[..|s| - 1], k) + if KeyLess(s[|s| - 1].key, k) then 1 else 0
  }

  /** In a strictly sorted list, position is the number of smaller keys. */
  lemma {:induction false} CountSorted(s: seq<Trace>, p: nat, k: Key)
    requires p <= |s|
    requires forall i :: 0 <= i < p ==> KeyLess(s[i].key, k)
    requires forall i :: p <= i < |s| ==> !KeyLess(s[i].key, k)
    ensures CountBelow(s, k) == p
  {
    if s != [] { CountSorted(s[..|s| - 1], if p < |s| then p else p - 1, k); }
  }

  ghost function TraceKeySet(traces: seq<Trace>): set<Key> { set t | t in traces :: t.key }

  ghost predicate DistinctKeys(traces: seq<Trace>) {
    forall i, j :: 0 <= i < j < |traces| ==> traces[i].key != traces[j].key
  }

  lemma AddKey(keys: set<Key>, x: Key, k: Key)
    requires x !in keys
    ensures |KeysAhead(keys + {x}, k)| == |KeysAhead(keys, k)| + if KeyLess(x, k) then 1 else 0
  {
    assert KeysAhead(keys + {x}, k) == KeysAhead(keys, k) + if KeyLess(x, k) then {x} else {};
  }

  lemma AddTrace(init: seq<Trace>, last: Trace)
    ensures TraceKeySet(init + [last]) == TraceKeySet(init) + {last.key}
  {
    assert forall t :: t in init + [last] <==> t in init || t == last;
  }

  lemma {:induction false} CountIsCard(traces: seq<Trace>, k: Key)
    requires DistinctKeys(traces)
    ensures CountBelow(traces, k) == |KeysAhead(TraceKeySet(traces), k)|
  {
    if traces == [] {
      assert KeysAhead(TraceKeySet(traces), k) == {};
    } else {
      var init, last := traces[..|traces| - 1], traces[|traces| - 1];
      CountIsCard(init, k);
      AddTrace(init, last);
      assert traces == init + [last];
      AddKey(TraceKeySet(init), last.key, k);
    }
  }

  /////// The ranked list

  /** What is known of the ranked list of candidates with distinct ids: a strictly sorted
      arrangement of the traces. */
  ghost predicate Arranged(traces: seq<Trace>, ranked: seq<Trace>) {
    && |ranked| == |traces| && TraceKeySet(ranked) == TraceKeySet(traces)
    && (forall t :: t in ranked <==> t in traces)
    && (forall i, j :: 0 <= i < j < |ranked| ==> KeyLess(ranked[i].key, ranked[j].key) && ranked[i].id != ranked[j].id)
  }

  ghost predicate ProperTraces(traces: seq<Trace>) {
    && (forall t :: t in traces ==> t.key.id == t.id && t.key.failing == !t.passing)
    && (forall i, j :: 0 <= i < j < |traces| ==> traces[i].id != traces[j].id)
  }

  lemma SortArranges(traces: seq<Trace>)
    requires ProperTraces(traces)
    ensures Arranged(traces, Sort(TraceLess, traces))
  {
    var ranked := Sort(TraceLess, traces);
    TraceOrder();
    SortSorts(TraceLess, traces);
    SortPermutes(TraceLess, traces);
    SameMembers(traces, ranked);
    DistinctSurvives(traces, ranked);
    forall t, u | t in traces && u in traces && t.id == u.id ensures t == u {}
    forall i, j | 0 <= i < j < |ranked| ensures KeyLess(ranked[i].key, ranked[j].key) && ranked[i].id != ranked[j].id {
      KeyTotal(ranked[i].key, ranked[j].key);
      assert ranked[i] in ranked && ranked[j] in ranked;
      assert !TraceLess(ranked[j], ranked[i]);
    }
  }

  /** Position plus one is one more than the number of keys ahead. */
  lemma ArrangedRank(traces: seq<Trace>, ranked: seq<Trace>, p: nat)
    requires Arranged(traces, ranked) && p < |ranked|
    ensures RankIn(ranked, ranked[p].id) == p + 1
    ensures p == |KeysAhead(TraceKeySet(traces), ranked[p].key)|
  {
    var k := ranked[p].key;
    forall i | p <= i < |ranked| ensures !KeyLess(ranked[i].key, k) { KeyTotal(ranked[i].key, k); }
    CountSorted(ranked, p, k);
    forall i, j | 0 <= i < j < |ranked| ensures ranked[i].key != ranked[j].key {
      KeyTotal(ranked[i].key, ranked[j].key);
    }
    CountIsCard(ranked, k);
    RankPosition(ranked, p);
  }

  lemma {:induction false} RankPosition(ranked: seq<Trace>, p: nat)
    requires p < |ranked| && forall i, j :: 0 <= i < j < |ranked| ==> ranked[i].id != ranked[j].id
    ensures RankIn(ranked, ranked[p].id) == p + 1
  {
    if p < |ranked| - 1 { RankPosition(ranked[..|ranked| - 1], p); }
  }

  lemma FirstIsBest(traces: seq<Trace>, ranked: seq<Trace>)
    requires ProperTraces(traces) && Arranged(traces, ranked)
    ensures match FirstPassing(ranked)
            case None => forall k :: k in TraceKeySet(traces) ==> k.failing
            case Some(id) => exists k :: Best(TraceKeySet(traces), k) && k.id == id
  {
    if ranked != [] && ranked[0].passing {
      assert ranked[0] in ranked;
      var k := ranked[0].key;
      forall l | l in TraceKeySet(traces) && l != k ensures KeyLess(k, l) {
        var t :| t in ranked && t.key == l;
        var j :| 0 <= j < |ranked| && ranked[j] == t;
      }
      assert Best(TraceKeySet(traces), k);
    } else {
      AllFailing(traces, ranked);
      NoneFirst(ranked);
    }
  }

  lemma AllFailing(traces: seq<Trace>, ranked: seq<Trace>)
    requires ProperTraces(traces) && Arranged(traces, ranked) && (ranked != [] ==> !ranked[0].passing)
    ensures forall t :: t in ranked ==> !t.passing
  {
    forall j | 0 <= j < |ranked| ensures !ranked[j].passing {
      assert ranked[0] in ranked && ranked[j] in ranked;
    }
  }

  lemma {:induction false} NoneFirst(ranked: seq<Trace>)
    requires forall t :: t in ranked ==> !t.passing
    ensures FirstPassing(ranked) == None
  {
    if ranked != [] { NoneFirst(ranked[1..]); }
  }

  /////// The candidates' ranks and selection

  lemma TracesProper(ctx: Context, cs: seq<Candidate>)
    requires AllKnown(ctx, cs) && DistinctIds(cs)
    ensures forall c :: c in cs ==> c.id in ById(cs)
    ensures ProperTraces(Traces(ctx, cs, ById(cs)))
    ensures TraceKeySet(Traces(ctx, cs, ById(cs))) == KeysOf(ctx, cs)
  {
    TraceKeys(ctx, cs);
    var traces := Traces(ctx, cs, ById(cs));
    forall i | 0 <= i < |cs|
      ensures traces[i].key == KeyOf(ctx, cs[i]) && traces[i].id == cs[i].id
              && traces[i].passing == Passes(ctx, cs[i]) {
      assert OwnTrace(ctx, cs[i], traces[i]);
    }
    SameKeys(ctx, cs, traces);
  }

  lemma SameKeys(ctx: Context, cs: seq<Candidate>, traces: seq<Trace>)
    requires AllKnown(ctx, cs) && |traces| == |cs| && forall i :: 0 <= i < |cs| ==> traces[i].key == KeyOf(ctx, cs[i])
    ensures TraceKeySet(traces) == KeysOf(ctx, cs)
  {
    forall k | k in KeysOf(ctx, cs) ensures k in TraceKeySet(traces) {
      var c :| c in cs && KeyOf(ctx, c) == k;
      var i :| 0 <= i < |cs| && cs[i] == c;
      assert traces[i] in traces;
    }
    forall k | k in TraceKeySet(traces) ensures k in KeysOf(ctx, cs) {
      var t :| t in traces && t.key == k;
      var i :| 0 <= i < |traces| && traces[i] == t;
      assert cs[i] in cs;
    }
  }

  /** Candidate `i` stands at exactly one place of the ranked list. */
  lemma PlaceOf(ctx: Context, cs: seq<Candidate>, i: nat) returns (p: nat)
    requires AllKnown(ctx, cs) && DistinctIds(cs) && i < |cs|
    ensures p < |Ranked(ctx, cs)| == |cs| && Ranked(ctx, cs)[p].id == cs[i].id
            && Ranked(ctx, cs)[p].key == KeyOf(ctx, cs[i])
    ensures RankIn(Ranked(ctx, cs), cs[i].id) == p + 1 && p == |KeysAhead(KeysOf(ctx, cs), KeyOf(ctx, cs[i]))|
  {
    TracesProper(ctx, cs);
    TraceKeys(ctx, cs);
    var traces := Traces(ctx, cs, ById(cs));
    SortArranges(traces);
    var ranked := Ranked(ctx, cs);
    assert OwnTrace(ctx, cs[i], traces[i]) && traces[i] in traces;
    p :| 0 <= p < |ranked| && ranked[p] == traces[i];
    ArrangedRank(traces, ranked, p);
  }

  /** The rank of a candidate is one more than the number of keys ahead of its own. */
  lemma RankIsCount(ctx: Context, cs: seq<Candidate>, i: nat)
    requires AllKnown(ctx, cs) && DistinctIds(cs) && i < |cs|
    ensures RankIn(Ranked(ctx, cs), cs[i].id) == 1 + |KeysAhead(KeysOf(ctx, cs), KeyOf(ctx, cs[i]))|
  {
    var p := PlaceOf(ctx, cs, i);
  }

  /** Eligible before ineligible, then the higher total, then the smaller (priority, cost, id). */
  ghost predicate Ahead(ctx: Context, c: Candidate, d: Candidate)
    requires Known(ctx, c) && Known(ctx, d)
  {
    || (Eligible(ctx, c) && !Eligible(ctx, d))
    || ((Eligible(ctx, c) <==> Eligible(ctx, d)) && TotalOf(ctx, c) > TotalOf(ctx, d))
    || ((Eligible(ctx, c) <==> Eligible(ctx, d)) && TotalOf(ctx, c) == TotalOf(ctx, d) && TieLess(c, d))
  }

  ghost predicate TieLess(c: Candidate, d: Candidate) {
    || c.priority < d.priority
    || (c.priority == d.priority && c.cost < d.cost)
    || (c.priority == d.priority && c.cost == d.cost && TextLess(c.id, d.id))
  }

  lemma KeysFollow(ctx: Context, c: Candidate, d: Candidate)
    requires Known(ctx, c) && Known(ctx, d)
    ensures KeyLess(KeyOf(ctx, c), KeyOf(ctx, d)) <==> Ahead(ctx, c, d)
  {
    PassesIffEligible(ctx, c);
    PassesIffEligible(ctx, d);
  }

  /** Ranks are a permutation of 1..n: eligible first, then by total, priority, cost and id. */
  lemma RanksPermute(ctx: Context, cs: seq<Candidate>, i: nat, j: nat)
    requires AllKnown(ctx, cs) && DistinctIds(cs) && i < |cs| && j < |cs|
    ensures var ri, rj := RankIn(Ranked(ctx, cs), cs[i].id), RankIn(Ranked(ctx, cs), cs[j].id);
            && 1 <= ri <= |cs| && (ri == rj <==> i == j)
            && (ri < rj <==> Ahead(ctx, cs[i], cs[j]))
            && (ri < rj <==> KeyLess(KeyOf(ctx, cs[i]), KeyOf(ctx, cs[j])))
  {
    KeysFollow(ctx, cs[i], cs[j]);
    var p := PlaceOf(ctx, cs, i);
    var q := PlaceOf(ctx, cs, j);
    TracesProper(ctx, cs);
    SortArranges(Traces(ctx, cs, ById(cs)));
    KeyTotal(KeyOf(ctx, cs[i]), KeyOf(ctx, cs[j]));
  }

  lemma BestUnique(keys: set<Key>, k: Key, l: Key)
    requires Best(keys, k) && Best(keys, l)
    ensures k == l
  {
    KeyTotal(k, l);
  }

  /** What selecting from a set of keys means: the best passing one, else the existing selection. */
  ghost predicate SelectedFrom(keys: set<Key>, existing: string, id: string) {
    if exists k :: k in keys && !k.failing then exists k :: Best(keys, k) && k.id == id
    else id == existing
  }

  lemma SelectionUnique(keys: set<Key>, existing: string, id: string, id': string)
    requires SelectedFrom(keys, existing, id) && SelectedFrom(keys, existing, id')
    ensures id == id'
  {
    if exists k :: k in keys && !k.failing {
      var k :| Best(keys, k) && k.id == id;
      var l :| Best(keys, l) && l.id == id';
      BestUnique(keys, k, l);
    }
  }

  /** The selection is the eligible candidate ahead of every other; if none is eligible the existing
      selection stays. */
  lemma SelectionExactly(ctx: Context, cs: seq<Candidate>, existing: string)
    requires AllKnown(ctx, cs) && DistinctIds(cs)
    ensures if exists c :: c in cs && Eligible(ctx, c)
            then exists i :: BestAt(ctx, cs, i) && cs[i].id == Selected(ctx, cs, existing)
            else Selected(ctx, cs, existing) == existing
  {
    SelectionIsBest(ctx, cs, existing);
    var keys := KeysOf(ctx, cs);
    if c :| c in cs && Eligible(ctx, c) {
      PassesIffEligible(ctx, c);
      assert KeyOf(ctx, c) in keys;
      var k :| Best(keys, k) && k.id == Selected(ctx, cs, existing);
      var i := BestIndex(ctx, cs, k);
    } else if k :| k in keys && !k.failing {
      var c :| c in cs && KeyOf(ctx, c) == k;
      PassesIffEligible(ctx, c);
    }
  }

  ghost predicate BestAt(ctx: Context, cs: seq<Candidate>, i: int)
    requires AllKnown(ctx, cs)
  {
    && 0 <= i < |cs| && Eligible(ctx, cs[i])
    && forall j :: 0 <= j < |cs| && j != i ==> Ahead(ctx, cs[i], cs[j])
  }

  lemma BestIndex(ctx: Context, cs: seq<Candidate>, k: Key) returns (i: int)
    requires AllKnown(ctx, cs) && DistinctIds(cs) && Best(KeysOf(ctx, cs), k)
    ensures BestAt(ctx, cs, i) && cs[i].id == k.id
  {
    var c :| c in cs && KeyOf(ctx, c) == k;
    i :| 0 <= i < |cs| && cs[i] == c;
    PassesIffEligible(ctx, c);
    forall j | 0 <= j < |cs| && j != i ensures Ahead(ctx, cs[i], cs[j]) {
      var l := KeyOf(ctx, cs[j]);
      assert cs[j] in cs && l in KeysOf(ctx, cs) && l.id != k.id;
      KeysFollow(ctx, cs[i], cs[j]);
    }
  }

  lemma SelectionIsBest(ctx: Context, cs: seq<Candidate>, existing: string)
    requires AllKnown(ctx, cs) && DistinctIds(cs)
    ensures SelectedFrom(KeysOf(ctx, cs), existing, Selected(ctx, cs, existing))
  {
    TracesProper(ctx, cs);
    var traces := Traces(ctx, cs, ById(cs));
    SortArranges(traces);
    FirstIsBest(traces, Ranked(ctx, cs));
  }

  /** The order the candidates come in does not matter, for the ranks or for the selection. */
  lemma OrderIndependent(ctx: Context, cs: seq<Candidate>, ds: seq<Candidate>, existing: string, i: nat, j: nat)
    requires AllKnown(ctx, cs) && AllKnown(ctx, ds) && DistinctIds(cs) && DistinctIds(ds)
    requires forall c :: c in cs <==> c in ds
    requires i < |cs| && j < |ds| && cs[i] == ds[j]
    ensures Selected(ctx, cs, existing) == Selected(ctx, ds, existing)
    ensures RankIn(Ranked(ctx, cs), cs[i].id) == RankIn(Ranked(ctx, ds), ds[j].id)
  {
    assert KeysOf(ctx, cs) == KeysOf(ctx, ds);
    RankIsCount(ctx, cs, i);
    RankIsCount(ctx, ds, j);
    SelectionIsBest(ctx, cs, existing);
    SelectionIsBest(ctx, ds, existing);
    SelectionUnique(KeysOf(ctx, cs), existing, Selected(ctx, cs, existing), Selected(ctx, ds, existing));
  }

  lemma FewerKeysSelected(keys: set<Key>, fewer: set<Key>, existing: string, existing': string, id: string)
    requires fewer <= keys && SelectedFrom(keys, existing, id) && (exists k :: k in keys && !k.failing)
    requires forall k :: k in keys && k.id == id ==> k in fewer
    ensures SelectedFrom(fewer, existing', id)
  {
    var k :| Best(keys, k) && k.id == id;
    assert Best(fewer, k);
  }

  /** Dropping candidates other than the one selected never changes a passing selection. */
  lemma RemovalKeepsSelection(ctx: Context, cs: seq<Candidate>, ds: seq<Candidate>, existing: string, existing': string)
    requires AllKnown(ctx, cs) && DistinctIds(cs) && DistinctIds(ds) && (forall c :: c in ds ==> c in cs)
    requires exists c :: c in cs && Eligible(ctx, c)
    requires forall c :: c in cs && c.id == Selected(ctx, cs, existing) ==> c in ds
    ensures AllKnown(ctx, ds) && Selected(ctx, ds, existing') == Selected(ctx, cs, existing)
  {
    var id := Selected(ctx, cs, existing);
    var keys, fewer := KeysOf(ctx, cs), KeysOf(ctx, ds);
    SelectionIsBest(ctx, cs, existing);
    SelectionIsBest(ctx, ds, existing');
    var passing :| passing in cs && Eligible(ctx, passing);
    PassesIffEligible(ctx, passing);
    assert KeyOf(ctx, passing) in keys;
    FewerKeysSelected(keys, fewer, existing, existing', id);
    SelectionUnique(fewer, existing', id, Selected(ctx, ds, existing'));
  }

  /** A passing candidate at least as good in every component, with no larger penalty and a
      smaller (priority, cost, id), always ranks ahead, rounding notwithstanding. */
  lemma DominanceRanksAhead(ctx: Context, cs: seq<Candidate>, i: nat, j: nat)
    requires AllKnown(ctx, cs) && DistinctIds(cs) && NonNegative(ctx.weights) && i < |cs| && j < |cs|
    requires Passes(ctx, cs[i]) && Leq(Fits(ctx, cs[j]), Fits(ctx, cs[i]))
             && PenaltyOf(ctx, cs[i]) <= PenaltyOf(ctx, cs[j])
    requires TieLess(cs[i], cs[j])
    ensures RankIn(Ranked(ctx, cs), cs[i].id) < RankIn(Ranked(ctx, cs), cs[j].id)
  {
    if Passes(ctx, cs[j]) {
      TotalMonotone(ctx.weights, Fits(ctx, cs[j]), Fits(ctx, cs[i]), PenaltyOf(ctx, cs[j]), PenaltyOf(ctx, cs[i]),
                    cs[j].priority, cs[i].priority);
      assert TotalOf(ctx, cs[j]) <= TotalOf(ctx, cs[i]);
    }
    RanksPermute(ctx, cs, i, j);
  }

  /** In terms of the inputs: a passing candidate that is no dearer, on capacity no worse for the
      task, with a smaller (priority, cost, id), ranks ahead. */
  lemma BetterRanksAhead(ctx: Context, cs: seq<Candidate>, i: nat, j: nat)
    requires AllKnown(ctx, cs) && DistinctIds(cs) && NonNegative(ctx.weights) && i < |cs| && j < |cs|
    requires Known(ctx, cs[i]) && Known(ctx, cs[j])
    requires Eligible(ctx, cs[i]) && cs[i].cost <= cs[j].cost && TieLess(cs[i], cs[j])
    requires NoBetter(ctx.task, ctx.profiles[cs[j].backend], ctx.profiles[cs[i].backend])
    ensures RankIn(Ranked(ctx, cs), cs[i].id) < RankIn(Ranked(ctx, cs), cs[j].id)
  {
    PassesIffEligible(ctx, cs[i]);
    BetterFits(ctx, cs[j], cs[i]);
    DominanceRanksAhead(ctx, cs, i, j);
  }

  /////// As it runs

  datatype Scored = Scored(report: Report) | UnknownBackend

  /** The capability loop. */
  method MeasureCapability(task: TaskProfile, profile: Profile) returns (fit: real)
    ensures fit == CapabilityFit(task, profile) && 0.0 <= fit <= 1.0
    ensures fit == 1.0 <==> forall r :: r in task.required ==> Met(r, profile.capabilities)
  {
    CapabilityFull(task, profile);
    if task.required == [] { return 1.0; }
    var scores: seq<real> := [];
    var sum := 0.0;
    for i := 0 to |task.required|
      invariant |scores| == i && sum == CapabilitySum(task.required[..i], profile.capabilities)
    {
      var score := CapabilityScore(task.required[i], profile.capabilities);
      scores, sum := scores + [score], sum + score;
      assert task.required[..i + 1][..i] == task.required[..i];
    }
    assert task.required[..|task.required|] == task.required;
    CapabilitySumBound(task.required, profile.capabilities);
    AverageBound(sum, |scores|);
    fit := sum / |scores| as real;
  }

  /** A trace with this id and this outcome is among them. */
  ghost predicate Shown(traces: seq<Trace>, id: string, passing: bool) {
    exists t :: t in traces && t.id == id && t.passing == passing
  }

  method RejectedCandidates(selected: string, traces: seq<Trace>) returns (rejected: seq<Rejection>)
    ensures rejected == Rejections(traces, selected)
    ensures forall id :: HardFilterFailed(id) in rejected <==> id != selected && Shown(traces, id, false)
    ensures forall id :: LowerScore(id) in rejected <==> id != selected && Shown(traces, id, true)
  {
    rejected := [];
    for i := 0 to |traces|
      invariant rejected == Rejections(traces[..i], selected)
    {
      assert traces[..i + 1][..i] == traces[..i];
      if traces[i].id == selected { continue; }
      rejected := rejected + [RejectionOf(traces[i])];
    }
    assert traces[..|traces|] == traces;
    RejectionsExact(traces, selected);
  }

  lemma {:induction false} RejectionsExact(traces: seq<Trace>, selected: string)
    ensures forall id :: HardFilterFailed(id) in Rejections(traces, selected) <==>
              id != selected && Shown(traces, id, false)
    ensures forall id :: LowerScore(id) in Rejections(traces, selected) <==> id != selected && Shown(traces, id, true)
  {
    if traces != [] {
      var init, last := traces[..|traces| - 1], traces[|traces| - 1];
      RejectionsExact(init, selected);
      assert traces == init + [last];
      forall id, passing ensures Shown(traces, id, passing) <==>
                                 Shown(init, id, passing) || (last.id == id && last.passing == passing)
      {
        assert last in traces;
      }
    }
  }

  /** What is shown carries the id asked for, is one of the traces, and none of its id ranks behind it. */
  lemma {:induction false} ShownIsLast(ranked: seq<Trace>, t: Trace)
    requires t in ranked && Sorted(TraceLess, ranked)
    ensures var shown := LastWith(ranked, t);
            && shown.id == t.id && shown in ranked
            && forall u :: u in ranked && u.id == t.id ==> !TraceLess(shown, u)
  {
    var init, last := ranked[..|ranked| - 1], ranked[|ranked| - 1];
    assert ranked == init + [last];
    if last.id == t.id {
      KeyTotal(last.key, last.key);
      forall u | u in ranked ensures !TraceLess(last, u) {
        var i :| 0 <= i < |ranked| && ranked[i] == u;
      }
    } else {
      ShownIsLast(init, t);
    }
  }

  /** With distinct ids every position shows its own trace. */
  lemma ShownIsOwn(ctx: Context, cs: seq<Candidate>, i: nat)
    requires AllKnown(ctx, cs) && DistinctIds(cs) && i < |cs|
    ensures LastWith(Ranked(ctx, cs), TraceOf(ctx, cs[i], cs[i])) == TraceOf(ctx, cs[i], cs[i])
  {
    TraceKeys(ctx, cs);
    TracesProper(ctx, cs);
    var traces, ranked := Traces(ctx, cs, ById(cs)), Ranked(ctx, cs);
    SortArranges(traces);
    TraceOrder();
    SortSorts(TraceLess, traces);
    assert OwnTrace(ctx, cs[i], traces[i]) && traces[i] in traces;
    ShownIsLast(ranked, traces[i]);
    SameIdSame(traces, LastWith(ranked, traces[i]), traces[i]);
  }

  lemma SameIdSame(traces: seq<Trace>, t: Trace, u: Trace)
    requires ProperTraces(traces) && t in traces && u in traces && t.id == u.id
    ensures t == u
  {
  }

  /** What the report of a scoring call says. */
  ghost predicate ReportIs(ctx: Context, cs: seq<Candidate>, existing: string, report: Report)
    requires AllKnown(ctx, cs)
  {
    && report.selected == Selected(ctx, cs, existing)
    && (report.scored <==> SomeEligible(ctx, cs))
    && (if report.scored then ChoosesEligible(ctx, cs, report.selected) else report.selected == existing)
    && ShowsLast(ctx, cs, report)
    && (DistinctIds(cs) ==> ShowsOwn(ctx, cs, report))
    && report.rejected == Rejections(report.traces, report.selected)
    && (DistinctIds(cs) ==> RejectsOthers(ctx, cs, report))
  }

  ghost predicate ChoosesEligible(ctx: Context, cs: seq<Candidate>, id: string)
    requires AllKnown(ctx, cs)
  {
    exists i :: 0 <= i < |cs| && cs[i].id == id && Eligible(ctx, cs[i])
  }

  /** Every candidate but the selected one is rejected, for the filters or for its score. */
  ghost predicate RejectsOthers(ctx: Context, cs: seq<Candidate>, report: Report)
    requires AllKnown(ctx, cs)
  {
    forall i :: 0 <= i < |cs| ==> RejectedAs(ctx, cs[i], report)
  }

  ghost predicate RejectedAs(ctx: Context, c: Candidate, report: Report)
    requires Known(ctx, c)
  {
    && (HardFilterFailed(c.id) in report.rejected <==> c.id != report.selected && !Eligible(ctx, c))
    && (LowerScore(c.id) in report.rejected <==> c.id != report.selected && Eligible(ctx, c))
  }

  ghost predicate SomeEligible(ctx: Context, cs: seq<Candidate>)
    requires AllKnown(ctx, cs)
  {
    exists i :: 0 <= i < |cs| && Eligible(ctx, cs[i])
  }

  /** A position shows the last ranked trace of its candidate's id, and where that trace ranks. */
  ghost predicate ShowsLast(ctx: Context, cs: seq<Candidate>, report: Report)
    requires AllKnown(ctx, cs)
  {
    && |report.ranks| == |cs| && |report.traces| == |cs|
    && (forall i :: 0 <= i < |cs| ==> report.ranks[i] == RankIn(Ranked(ctx, cs), cs[i].id))
    && (forall i :: 0 <= i < |cs| ==>
          && cs[i].id in ById(cs)
          && report.traces[i] == LastWith(Ranked(ctx, cs), TraceOf(ctx, cs[i], ById(cs)[cs[i].id])))
  }

  /** A position shows its own candidate's trace. */
  ghost predicate ShowsOwn(ctx: Context, cs: seq<Candidate>, report: Report)
    requires AllKnown(ctx, cs)
  {
    && |report.traces| == |cs|
    && forall i :: 0 <= i < |cs| ==> report.traces[i] == TraceOf(ctx, cs[i], cs[i])
  }

  lemma FinishIs(ctx: Context, cs: seq<Candidate>, existing: string)
    requires AllKnown(ctx, cs) && forall c :: c in cs ==> c.id in ById(cs)
    ensures ReportIs(ctx, cs, existing, Finish(Traces(ctx, cs, ById(cs)), existing))
  {
    FinishScores(ctx, cs, existing);
    FinishShowsLast(ctx, cs, existing);
    if DistinctIds(cs) {
      FinishShowsOwn(ctx, cs, existing);
      FinishRejects(ctx, cs, Finish(Traces(ctx, cs, ById(cs)), existing));
    }
  }

  lemma FinishRejects(ctx: Context, cs: seq<Candidate>, report: Report)
    requires AllKnown(ctx, cs) && DistinctIds(cs) && ShowsOwn(ctx, cs, report)
    requires report.rejected == Rejections(report.traces, report.selected)
    ensures RejectsOthers(ctx, cs, report)
  {
    RejectionsExact(report.traces, report.selected);
    forall i | 0 <= i < |cs| ensures RejectedAs(ctx, cs[i], report) { OneRejected(ctx, cs, report, i); }
  }

  lemma OneRejected(ctx: Context, cs: seq<Candidate>, report: Report, i: nat)
    requires AllKnown(ctx, cs) && DistinctIds(cs) && ShowsOwn(ctx, cs, report) && i < |cs|
    requires forall id :: HardFilterFailed(id) in report.rejected <==>
               id != report.selected && Shown(report.traces, id, false)
    requires forall id :: LowerScore(id) in report.rejected <==> id != report.selected && Shown(report.traces, id, true)
    ensures RejectedAs(ctx, cs[i], report)
  {
    PassesIffEligible(ctx, cs[i]);
    var t := report.traces[i];
    assert t in report.traces && t == TraceOf(ctx, cs[i], cs[i]);
    forall u | u in report.traces && u.id == cs[i].id ensures u == t {
      var j :| 0 <= j < |cs| && report.traces[j] == u;
      assert u == TraceOf(ctx, cs[j], cs[j]);
    }
  }

  lemma FinishScores(ctx: Context, cs: seq<Candidate>, existing: string)
    requires AllKnown(ctx, cs) && forall c :: c in cs ==> c.id in ById(cs)
    ensures var report := Finish(Traces(ctx, cs, ById(cs)), existing);
            && (report.scored <==> SomeEligible(ctx, cs))
            && if report.scored then ChoosesEligible(ctx, cs, report.selected) else report.selected == existing
  {
    var traces := Traces(ctx, cs, ById(cs));
    ScoredIffPassing(traces, existing);
    if Finish(traces, existing).scored {
      var i := FirstPassingTrace(traces);
      PassingTrace(ctx, cs, i);
    } else if SomeEligible(ctx, cs) {
      var i :| 0 <= i < |cs| && Eligible(ctx, cs[i]);
      PassingTrace(ctx, cs, i);
    }
  }

  lemma FirstPassingTrace(traces: seq<Trace>) returns (i: nat)
    requires FirstPassing(Sort(TraceLess, traces)).Some?
    ensures i < |traces| && traces[i].passing && Some(traces[i].id) == FirstPassing(Sort(TraceLess, traces))
  {
    var ranked := Sort(TraceLess, traces);
    FirstPassingIs(ranked);
    SortPermutes(TraceLess, traces);
    SameMembers(traces, ranked);
    var t :| t in ranked && t.passing && Some(t.id) == FirstPassing(ranked);
    i :| 0 <= i < |traces| && traces[i] == t;
  }

  lemma {:induction false} FirstPassingIs(ranked: seq<Trace>)
    ensures FirstPassing(ranked).Some? ==> exists t :: t in ranked && t.passing && Some(t.id) == FirstPassing(ranked)
  {
    if ranked != [] {
      if ranked[0].passing { assert ranked[0] in ranked; } else { FirstPassingIs(ranked[1..]); }
    }
  }

  lemma PassingTrace(ctx: Context, cs: seq<Candidate>, i: nat)
    requires AllKnown(ctx, cs) && i < |cs| && forall c :: c in cs ==> c.id in ById(cs)
    ensures Traces(ctx, cs, ById(cs))[i].passing == Eligible(ctx, cs[i])
    ensures Traces(ctx, cs, ById(cs))[i].id == cs[i].id
  {
    PassesIffEligible(ctx, cs[i]);
  }

  lemma ScoredIffPassing(traces: seq<Trace>, existing: string)
    ensures Finish(traces, existing).scored <==> exists i :: 0 <= i < |traces| && traces[i].passing
  {
    var ranked := Sort(TraceLess, traces);
    FirstPassingExists(ranked);
    SortPermutes(TraceLess, traces);
    SameMembers(traces, ranked);
    if t :| t in traces && t.passing {
      var i :| 0 <= i < |traces| && traces[i] == t;
    }
    if i :| 0 <= i < |traces| && traces[i].passing { assert traces[i] in traces; }
  }

  lemma FinishShowsLast(ctx: Context, cs: seq<Candidate>, existing: string)
    requires AllKnown(ctx, cs) && forall c :: c in cs ==> c.id in ById(cs)
    ensures ShowsLast(ctx, cs, Finish(Traces(ctx, cs, ById(cs)), existing))
  {
    var traces := Traces(ctx, cs, ById(cs));
    forall i | 0 <= i < |cs| ensures traces[i] == TraceOf(ctx, cs[i], ById(cs)[cs[i].id]) {}
  }

  lemma FinishShowsOwn(ctx: Context, cs: seq<Candidate>, existing: string)
    requires AllKnown(ctx, cs) && DistinctIds(cs) && forall c :: c in cs ==> c.id in ById(cs)
    ensures ShowsOwn(ctx, cs, Finish(Traces(ctx, cs, ById(cs)), existing))
  {
    forall i | 0 <= i < |cs|
      ensures LastWith(Ranked(ctx, cs), Traces(ctx, cs, ById(cs))[i]) == TraceOf(ctx, cs[i], cs[i])
    {
      ShownHere(ctx, cs, i);
    }
  }

  lemma ShownHere(ctx: Context, cs: seq<Candidate>, i: nat)
    requires AllKnown(ctx, cs) && DistinctIds(cs) && i < |cs|
    ensures forall c :: c in cs ==> c.id in ById(cs)
    ensures LastWith(Ranked(ctx, cs), Traces(ctx, cs, ById(cs))[i]) == TraceOf(ctx, cs[i], cs[i])
  {
    TraceKeys(ctx, cs);
    assert OwnTrace(ctx, cs[i], Traces(ctx, cs, ById(cs))[i]);
    ShownIsOwn(ctx, cs, i);
  }

  /** RouteScorer.score: trace every candidate, rank, select. */
  method Score(ctx: Context, cs: seq<Candidate>, existing: string) returns (out: Scored)
    ensures out.UnknownBackend? <==> !AllKnown(ctx, cs)
    ensures out.Scored? ==> ReportIs(ctx, cs, existing, out.report)
  {
    var byId := IndexById(cs);
    var traces := TraceAll(ctx, cs, byId);
    if traces.None? { return UnknownBackend; }
    var report := FinishReport(traces.value, existing);
    FinishIs(ctx, cs, existing);
    out := Scored(report);
  }

  lemma {:induction false} FirstPassingExists(ranked: seq<Trace>)
    ensures FirstPassing(ranked).Some? <==> exists t :: t in ranked && t.passing
  {
    if ranked != [] {
      FirstPassingExists(ranked[1..]);
      assert ranked == [ranked[0]] + ranked[1..];
    }
  }

  method IndexById(cs: seq<Candidate>) returns (byId: map<string, Candidate>)
    ensures byId == ById(cs) && forall c :: c in cs ==> c.id in byId
  {
    byId := map[];
    for i := 0 to |cs|
      invariant byId == ById(cs[..i])
    {
      assert cs[..i + 1][..i] == cs[..i];
      byId := byId[cs[i].id := cs[i]];
    }
    assert cs[..|cs|] == cs;
    ByIdHas(cs);
  }

  method TraceAll(ctx: Context, cs: seq<Candidate>, byId: map<string, Candidate>) returns (traces: Option<seq<Trace>>)
    requires forall c :: c in cs ==> c.id in byId
    ensures traces.None? <==> !AllKnown(ctx, cs)
    ensures traces.Some? ==> traces.value == Traces(ctx, cs, byId)
  {
    var done: seq<Trace> := [];
    for i := 0 to |cs|
      invariant |done| == i
                && (forall j :: 0 <= j < i ==> Known(ctx, cs[j]) && done[j] == TraceOf(ctx, cs[j], byId[cs[j].id]))
    {
      if !Known(ctx, cs[i]) { return None; }
      done := done + [TraceOf(ctx, cs[i], byId[cs[i].id])];
    }
    traces := Some(done);
  }

  /** Ranks and selection from the traces. */
  method FinishReport(traces: seq<Trace>, existing: string) returns (report: Report)
    ensures report == Finish(traces, existing)
  {
    var ranked := Sort(TraceLess, traces);
    var ranks: seq<nat>, shown: seq<Trace> := [], [];
    for i := 0 to |traces|
      invariant ranks == RanksShown(ranked, traces[..i]) && shown == TracesShown(ranked, traces[..i])
    {
      ranks, shown := ranks + [RankIn(ranked, traces[i].id)], shown + [LastWith(ranked, traces[i])];
      assert traces[..i + 1] == traces[..i] + [traces[i]];
    }
    assert traces[..|traces|] == traces;
    var first := FirstPassing(ranked);
    var selected := if first.Some? then first.value else existing;
    var rejected := RejectedCandidates(selected, shown);
    report := Report(selected, first.Some?, ranks, shown, rejected);
  }

  function RanksShown(ranked: seq<Trace>, traces: seq<Trace>): seq<nat> {
    seq(|traces|, i requires 0 <= i < |traces| => RankIn(ranked, traces[i].id))
  }

  function TracesShown(ranked: seq<Trace>, traces: seq<Trace>): seq<Trace> {
    seq(|traces|, i requires 0 <= i < |traces| => LastWith(ranked, traces[i]))
  }

  function Finish(traces: seq<Trace>, existing: string): Report {
    var ranked := Sort(TraceLess, traces);
    var first := FirstPassing(ranked);
    var selected := if first.Some? then first.value else existing;
    var shown := TracesShown(ranked, traces);
    Report(selected, first.Some?, RanksShown(ranked, traces), shown, Rejections(shown, selected))
  }
}
