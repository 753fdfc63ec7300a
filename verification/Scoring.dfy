// Route scoring: rounded weights and totals, and the ranking they produce.

/** Python's round(x, 4): to the nearest ten-thousandth, ties to even. */
module Rounding {
  function HalfEven(y: real): int {
    var f := y.Floor;
    var d := y - f as real;
    if d < 0.5 then f else if d > 0.5 then f + 1 else if f % 2 == 0 then f else f + 1
  }

  function Round4(x: real): real { HalfEven(x * 10000.0) as real / 10000.0 }

  lemma HalfEvenMonotone(x: real, y: real)
    requires x <= y
    ensures HalfEven(x) <= HalfEven(y)
  {
  }

  lemma HalfEvenNear(y: real)
    ensures -0.5 <= HalfEven(y) as real - y <= 0.5
  {
  }

  /** Rounding moves a value by at most half a ten-thousandth. */
  lemma RoundNear(x: real)
    ensures -0.00005 <= Round4(x) - x <= 0.00005
  {
    HalfEvenNear(x * 10000.0);
  }

  lemma RoundMonotone(x: real, y: real)
    requires x <= y
    ensures Round4(x) <= Round4(y)
  {
    HalfEvenMonotone(x * 10000.0, y * 10000.0);
  }

  lemma HalfEvenInteger(k: int)
    ensures HalfEven(k as real) == k
  {
    HalfEvenNear(k as real);
    assert HalfEven(k as real) as real - k as real == (HalfEven(k as real) - k) as real;
  }

  /** A rounded value is a fixed point. */
  lemma RoundGrid(k: int)
    ensures Round4(k as real / 10000.0) == k as real / 10000.0
  {
    HalfEvenInteger(k);
  }
}

/** Stable insertion sort by a strict order, as Python's sorted gives. */
module Sorting {
  ghost predicate StrictOrder<T(!new)>(less: (T, T) -> bool) {
    && (forall x :: !less(x, x))
    && (forall x, y, z :: less(x, y) && less(y, z) ==> less(x, z))
    && (forall x, y, z :: !less(x, y) && !less(y, z) ==> !less(x, z))
  }

  ghost predicate Sorted<T(!new)>(less: (T, T) -> bool, s: seq<T>) {
    forall i, j :: 0 <= i < j < |s| ==> !less(s[j], s[i])
  }

  function Insert<T>(less: (T, T) -> bool, x: T, s: seq<T>): seq<T> {
    if s == [] || less(x, s[0]) then [x] + s else [s[0]] + Insert(less, x, s[1..])
  }

  function Sort<T>(less: (T, T) -> bool, s: seq<T>): seq<T> {
    if s == [] then [] else Insert(less, s[|s| - 1], Sort(less, s[..|s| - 1]))
  }

  lemma {:induction false} InsertPermutes<T>(less: (T, T) -> bool, x: T, s: seq<T>)
    ensures multiset(Insert(less, x, s)) == multiset(s) + multiset{x}
  {
    if s != [] && !less(x, s[0]) {
      InsertPermutes(less, x, s[1..]);
      assert s == [s[0]] + s[1..];
    }
  }

  lemma {:induction false} SortPermutes<T>(less: (T, T) -> bool, s: seq<T>)
    ensures multiset(Sort(less, s)) == multiset(s) && |Sort(less, s)| == |s|
  {
    if s != [] {
      var init := s[..|s| - 1];
      SortPermutes(less, init);
      InsertPermutes(less, s[|s| - 1], Sort(less, init));
      assert s == init + [s[|s| - 1]];
    }
    assert |multiset(Sort(less, s))| == |Sort(less, s)|;
  }

  lemma {:induction false} InsertSorted<T(!new)>(less: (T, T) -> bool, x: T, s: seq<T>)
    requires StrictOrder(less) && Sorted(less, s)
    ensures Sorted(less, Insert(less, x, s))
  {
    if s != [] && !less(x, s[0]) {
      var rest := Insert(less, x, s[1..]);
      InsertSorted(less, x, s[1..]);
      InsertPermutes(less, x, s[1..]);
      forall j | 0 <= j < |rest| ensures !less(rest[j], s[0]) {
        assert rest[j] in multiset(rest);
        assert rest[j] == x || rest[j] in s[1..];
      }
    } else if s != [] {
      forall j | 0 <= j < |s| ensures !less(s[j], x) {}
    }
  }

  lemma {:induction false} SortSorts<T(!new)>(less: (T, T) -> bool, s: seq<T>)
    requires StrictOrder(less)
    ensures Sorted(less, Sort(less, s))
  {
    if s != [] {
      SortSorts(less, s[..|s| - 1]);
      InsertSorted(less, s[|s| - 1], Sort(less, s[..|s| - 1]));
    }
  }

  ghost predicate Distinct<T(!new)>(s: seq<T>) { forall i, j :: 0 <= i < j < |s| ==> s[i] != s[j] }

  lemma SameMembers<T(!new)>(s: seq<T>, t: seq<T>)
    requires multiset(s) == multiset(t)
    ensures forall x :: x in s <==> x in t
  {
    forall x ensures x in s <==> x in t { assert x in multiset(s) <==> x in multiset(t); }
  }

  lemma {:induction false} OnceEach<T(!new)>(s: seq<T>, x: T)
    requires Distinct(s)
    ensures multiset(s)[x] <= 1
  {
    if s != [] {
      var init, last := s[..|s| - 1], s[|s| - 1];
      OnceEach(init, x);
      assert s == init + [last];
      if x == last { assert x !in init; }
    }
  }

  lemma TwiceIn<T>(t: seq<T>, i: nat, j: nat)
    requires i < j < |t| && t[i] == t[j]
    ensures multiset(t)[t[i]] >= 2
  {
    assert t == t[..j] + t[j..];
    assert t[i] in t[..j] && t[j] in t[j..];
  }

  /** A rearrangement of distinct elements is distinct. */
  lemma DistinctSurvives<T(!new)>(s: seq<T>, t: seq<T>)
    requires multiset(s) == multiset(t) && Distinct(s)
    ensures Distinct(t)
  {
    forall i, j | 0 <= i < j < |t| ensures t[i] != t[j] {
      OnceEach(s, t[i]);
      if t[i] == t[j] { TwiceIn(t, i, j); }
    }
  }

  lemma HeadIn<T>(s: seq<T>, t: seq<T>)
    requires multiset(s) == multiset(t) && s != []
    ensures t != [] && s[0] in t
  {
    assert s[0] in multiset(t);
  }

  lemma SameHead<T(!new)>(less: (T, T) -> bool, s: seq<T>, t: seq<T>)
    requires Sorted(less, s) && Sorted(less, t) && s != [] && t != [] && s[0] in t && t[0] in s
    requires forall x, y :: x in s && y in s && x != y ==> less(x, y) || less(y, x)
    ensures s[0] == t[0]
  {
    var i :| 0 <= i < |t| && t[i] == s[0];
    var j :| 0 <= j < |s| && s[j] == t[0];
  }

  lemma TailsPermute<T>(s: seq<T>, t: seq<T>)
    requires multiset(s) == multiset(t) && s != [] && t != [] && s[0] == t[0]
    ensures multiset(s[1..]) == multiset(t[1..])
  {
    assert s == [s[0]] + s[1..] && t == [t[0]] + t[1..];
    assert multiset(s[1..]) == multiset(s) - multiset{s[0]};
    assert multiset(t[1..]) == multiset(t) - multiset{t[0]};
  }

  /** There is only one way to sort elements no two of which tie. */
  lemma {:induction false} SortedUnique<T(!new)>(less: (T, T) -> bool, s: seq<T>, t: seq<T>)
    requires Sorted(less, s) && Sorted(less, t) && multiset(s) == multiset(t)
    requires forall x, y :: x in s && y in s && x != y ==> less(x, y) || less(y, x)
    ensures s == t
    decreases |s|
  {
    if s == [] {
      assert |multiset(t)| == 0;
    } else {
      HeadIn(s, t);
      HeadIn(t, s);
      SameHead(less, s, t);
      TailsPermute(s, t);
      SortedUnique(less, s[1..], t[1..]);
      assert s == [s[0]] + s[1..] && t == [t[0]] + t[1..];
    }
  }
}

module Scoring {
  import opened Common
  import opened Gateways
  import opened Rounding

  type Unit = r: real | 0.0 <= r <= 1.0
  type Positive = n: nat | n >= 1 witness 1

  datatype Candidate = Candidate(
    id: string, node: string, backendClass: string, backend: string, selector: seq<Member>,
    priority: Positive, cost: nat, verifierRecipe: Option<string>, hints: seq<string>)

  datatype Backend = Backend(backendClass: string, taskTypes: seq<string>, privacyLevels: seq<string>)

  datatype ModelTier = WeakGeneral | StandardTier | Strong | Frontier | Specialist
  datatype Scope = UserLocal | TeamLocal | SystemWide | Peer
  datatype Availability = Available | Degraded | Unavailable | Unknown

  datatype Profile = Profile(
    backendClass: string, scope: Scope, availability: Availability, tier: Option<ModelTier>,
    capabilities: map<string, Unit>, p50: Option<nat>, passRate: Option<Unit>, sampleSize: nat,
      verifiedFor: seq<string>)

  datatype CostPreference = CostFirst | Balanced | QualityFirst
  datatype Requirement = Requirement(capability: string, minScore: Unit)

  /** `difficulty` counts from trivial (0) to expert (4). */
  datatype TaskProfile = TaskProfile(
    taskType: string, difficulty: nat, latencyHigh: bool, costPreference: CostPreference, required: seq<Requirement>)

  /** Task levels count from L0 to L3. */
  datatype Analysis = Analysis(preflight: string, taskLevel: nat, privacyLevel: string, rawSecret: bool,
                               confidence: Unit)

  /** One real per scored component, in the order capability, policy, quality, cost, latency, trust. */
  type Components = s: seq<real> | |s| == 6 witness [0.0, 0.0, 0.0, 0.0, 0.0, 0.0]

  function SumOf(s: seq<real>): real { if s == [] then 0.0 else s[0] + SumOf(s[1..]) }

  function Weigh(fit: real, weight: real): real { Round4(fit * weight) }

  /** The weighted components, each rounded, added up. */
  function WeightedSum(fits: seq<real>, weights: seq<real>): real
    requires |fits| == |weights|
  {
    if fits == [] then 0.0 else Weigh(fits[0], weights[0]) + WeightedSum(fits[1..], weights[1..])
  }

  ghost predicate Leq(s: seq<real>, t: seq<real>) {
    |s| == |t| && forall i :: 0 <= i < |s| ==> s[i] <= t[i]
  }

  ghost predicate NonNegative(s: seq<real>) { forall i :: 0 <= i < |s| ==> s[i] >= 0.0 }

  ghost predicate UnitFits(s: seq<real>) { forall i :: 0 <= i < |s| ==> 0.0 <= s[i] <= 1.0 }

  const DEFAULT_WEIGHTS: Components := [0.30, 0.25, 0.20, 0.10, 0.05, 0.10]

  /////// Weights

  function Shares(weights: seq<real>, total: real): seq<real>
    requires total > 0.0
  {
    if weights == [] then [] else [Round4(weights[0] / total)] + Shares(weights[1..], total)
  }

  lemma {:induction false} SharesLength(weights: seq<real>, total: real)
    requires total > 0.0
    ensures |Shares(weights, total)| == |weights|
  {
    if weights != [] { SharesLength(weights[1..], total); }
  }

  /** `configured` holds the routebook's weights, with the default for each missing one. */
  function ScoreWeights(configured: Components): Components {
    var total := SumOf(configured);
    if total <= 0.0 then DEFAULT_WEIGHTS
    else
      SharesLength(configured, total);
      Shares(configured, total)
  }

  ghost predicate OnGrid(x: real) { Round4(x) == x }

  /** Non-negative, on the four-decimal grid, and summing to one within rounding. */
  ghost predicate GoodWeights(w: seq<real>) {
    NonNegative(w) && (forall i :: 0 <= i < |w| ==> OnGrid(w[i])) && 0.9997 <= SumOf(w) <= 1.0003
  }

  lemma RoundTwice(x: real)
    ensures OnGrid(Round4(x))
  {
    RoundGrid(HalfEven(x * 10000.0));
  }

  lemma RoundNonNegative(x: real)
    requires x >= 0.0
    ensures Round4(x) >= 0.0
  {
    RoundGrid(0);
    RoundMonotone(0.0, x);
  }

  lemma DefaultsOnGrid()
    ensures forall i :: 0 <= i < 6 ==> OnGrid(DEFAULT_WEIGHTS[i])
  {
    RoundGrid(3000);
    RoundGrid(2500);
    RoundGrid(2000);
    RoundGrid(1000);
    RoundGrid(500);
  }

  lemma SplitQuotient(x: real, y: real, total: real)
    requires total > 0.0
    ensures (x + y) / total == x / total + y / total
  {
  }

  /** Each rounded share is off by at most half a ten-thousandth. */
  lemma {:induction false} SharesNear(weights: seq<real>, total: real)
    requires total > 0.0 && NonNegative(weights)
    ensures |Shares(weights, total)| == |weights| && NonNegative(Shares(weights, total))
    ensures forall i :: 0 <= i < |Shares(weights, total)| ==> OnGrid(Shares(weights, total)[i])
    ensures var off := SumOf(Shares(weights, total)) - SumOf(weights) / total;
            -0.00005 * |weights| as real <= off <= 0.00005 * |weights| as real
  {
    if weights != [] {
      var share := weights[0] / total;
      SharesNear(weights[1..], total);
      SplitQuotient(weights[0], SumOf(weights[1..]), total);
      RoundNonNegative(share);
      RoundTwice(share);
      RoundNear(share);
      assert Shares(weights, total)[1..] == Shares(weights[1..], total);
    }
  }

  /** Normalised rounded weights sum to within 0.0003 of one. */
  lemma WeightsSumNearOne(configured: Components)
    requires NonNegative(configured)
    ensures GoodWeights(ScoreWeights(configured))
  {
    var total := SumOf(configured);
    if total <= 0.0 {
      DefaultsOnGrid();
      SixSum(DEFAULT_WEIGHTS);
    } else {
      SharesNear(configured, total);
      assert total / total == 1.0 && |configured| as real == 6.0;
    }
  }

  lemma SixSum(s: Components)
    ensures SumOf(s) == s[0] + s[1] + s[2] + s[3] + s[4] + s[5]
  {
    assert s[1..][1..] == s[2..] && s[2..][1..] == s[3..] && s[3..][1..] == s[4..] && s[4..][1..] == s[5..]
           && s[5..][1..] == [];
    assert SumOf(s[5..]) == s[5];
    assert SumOf(s[4..]) == s[4] + s[5];
    assert SumOf(s[3..]) == s[3] + SumOf(s[4..]);
    assert SumOf(s[2..]) == s[2] + SumOf(s[3..]);
  }

  /////// Totals

  function Min(x: real, y: real): real { if x <= y then x else y }
  function Max(x: real, y: real): real { if x >= y then x else y }

  function PriorityPenalty(priority: Positive): real { Min(0.08, (priority - 1) as real * 0.04) }

  /** The sum the clamps apply to. */
  function Raw(weights: Components, fits: Components, penalty: real, priority: Positive): real {
    WeightedSum(fits, weights) - penalty - PriorityPenalty(priority)
  }

  function Clamped(raw: real): real { Max(0.0, Min(1.0, raw)) }

  function Total(weights: Components, fits: Components, penalty: real, priority: Positive, passing: bool): real {
    if passing then Round4(Clamped(Raw(weights, fits, penalty, priority))) else 0.0
  }

  lemma WeighMonotone(f: real, g: real, w: real)
    requires f <= g && w >= 0.0
    ensures Weigh(f, w) <= Weigh(g, w)
  {
    assert f * w <= g * w;
    RoundMonotone(f * w, g * w);
  }

  /** On the grid a full fit earns the weight itself, a smaller one no more. */
  lemma WeighBound(f: Unit, w: real)
    requires w >= 0.0 && OnGrid(w)
    ensures 0.0 <= Weigh(f, w) <= w
  {
    WeighMonotone(f, 1.0, w);
    WeighMonotone(0.0, f, w);
    assert 1.0 * w == w && 0.0 * w == 0.0;
    RoundGrid(0);
  }

  lemma {:induction false} WeightedMonotone(weights: seq<real>, f: seq<real>, g: seq<real>)
    requires |weights| == |f| && NonNegative(weights) && Leq(f, g)
    ensures WeightedSum(f, weights) <= WeightedSum(g, weights)
  {
    if f != [] {
      WeighMonotone(f[0], g[0], weights[0]);
      WeightedMonotone(weights[1..], f[1..], g[1..]);
      assert WeightedSum(g, weights) == Weigh(g[0], weights[0]) + WeightedSum(g[1..], weights[1..]);
    }
  }

  lemma {:induction false} WeightedBound(weights: seq<real>, f: seq<real>)
    requires |weights| == |f| && NonNegative(weights) && (forall i :: 0 <= i < |weights| ==> OnGrid(weights[i]))
             && UnitFits(f)
    ensures 0.0 <= WeightedSum(f, weights) <= SumOf(weights)
  {
    if f != [] {
      WeighBound(f[0], weights[0]);
      WeightedBound(weights[1..], f[1..]);
    }
  }

  /** With fits in the unit interval the upper clamp never acts and no total exceeds 0.9703. */
  lemma TotalBound(weights: Components, fits: Components, penalty: real, priority: Positive, passing: bool)
    requires GoodWeights(weights) && UnitFits(fits) && penalty >= 0.03
    ensures 0.0 <= Total(weights, fits, penalty, priority, passing) <= 0.9703
    ensures Raw(weights, fits, penalty, priority) <= 0.9703
    ensures Clamped(Raw(weights, fits, penalty, priority)) == Max(0.0, Raw(weights, fits, penalty, priority))
  {
    WeightedBound(weights, fits);
    var clamped := Clamped(Raw(weights, fits, penalty, priority));
    RoundNonNegative(clamped);
    RoundGrid(9703);
    RoundMonotone(clamped, 0.9703);
  }

  /** At least as good in every component and no worse in both penalties: no smaller total. */
  lemma TotalMonotone(weights: Components, f: Components, g: Components, penalty: real, penalty': real,
                      priority: Positive, priority': Positive)
    requires NonNegative(weights) && Leq(f, g) && penalty' <= penalty && priority' <= priority
    ensures Total(weights, f, penalty, priority, true) <= Total(weights, g, penalty', priority', true)
  {
    WeightedMonotone(weights, f, g);
    var x, y := Raw(weights, f, penalty, priority), Raw(weights, g, penalty', priority');
    RoundMonotone(Clamped(x), Clamped(y));
  }

  /////// Fits of one candidate

  function CapabilityScore(r: Requirement, capabilities: map<string, Unit>): Unit {
    if r.capability !in capabilities then 0.0
    else
      var ratio := capabilities[r.capability] / Max(r.minScore, 0.01);
      Min(1.0, ratio)
  }

  function CapabilitySum(required: seq<Requirement>, capabilities: map<string, Unit>): real {
    if required == [] then 0.0
    else
      CapabilitySum(required[..|required| - 1], capabilities) + CapabilityScore(required[|required| - 1], capabilities)
  }

  function CapabilityFit(task: TaskProfile, profile: Profile): real {
    if task.required == [] then 1.0
    else CapabilitySum(task.required, profile.capabilities) / |task.required| as real
  }

  function TierOrder(tier: ModelTier): nat {
    match tier
    case WeakGeneral => 0
    case StandardTier => 1
    case Strong => 2
    case Frontier => 3
    case Specialist => 3
  }

  function TierFit(task: TaskProfile, profile: Profile): Unit {
    if profile.tier.None? then
      if task.difficulty <= 1 && "deterministic_local" in profile.capabilities then 0.95
      else if task.difficulty <= 2 && profile.backendClass == "browser_fetch" then 0.80
      else 0.45
    else
      var tier := TierOrder(profile.tier.value);
      var required := if task.difficulty <= 1 then 0 else if task.difficulty <= 2 then 1 else 2;
      if tier >= required then Min(1.0, 0.82 + (tier - required) as real * 0.07)
      else Max(0.25, 0.72 - (required - tier) as real * 0.18)
  }

  function MemoryFit(profile: Profile): Unit {
    if profile.sampleSize > 0 && profile.passRate.Some? then profile.passRate.value else 0.70
  }

  function QualityFit(task: TaskProfile, profile: Profile): Unit {
    var verifier := if task.taskType in profile.verifiedFor then 0.85 else 0.55;
    0.55 * TierFit(task, profile) + 0.25 * verifier + 0.20 * MemoryFit(profile)
  }

  function CostFit(cost: nat, preference: CostPreference): Unit {
    if cost == 0 then 1.0
    else
      var base :=
        if cost <= 1_000 then 0.80 else if cost <= 10_000 then 0.65 else if cost <= 100_000 then 0.45 else 0.25;
      match preference
      case CostFirst => Max(0.0, base - 0.10)
      case QualityFirst => Min(1.0, base + 0.05)
      case Balanced => base
  }

  function LatencyFit(profile: Profile, latencyHigh: bool): Unit {
    if profile.availability == Degraded then 0.45
    else if profile.p50.None? then (if latencyHigh then 0.58 else 0.65)
    else if profile.p50.value <= 500 then 0.95
    else if profile.p50.value <= 2_000 then 0.75
    else 0.45
  }

  function TrustFit(scope: Scope): Unit {
    match scope
    case UserLocal => 1.0
    case SystemWide => 0.90
    case TeamLocal => 0.85
    case Peer => 0.40
  }

  datatype FilterStatus = Pass | NotRequired | PendingPolicyDecision | Fail

  function PassIf(ok: bool): FilterStatus { if ok then Pass else Fail }

  /** What one scoring call is given besides the candidates. */
  datatype Context = Context(
    taskType: string, planLevel: nat, analysis: Analysis, task: TaskProfile, weights: Components,
    forbidden: set<string>, registry: map<string, Backend>, profiles: map<string, Profile>)

  function WorkerOf(c: Candidate): Option<Json> { Get(c.selector, "worker_id") }

  function HardFilters(ctx: Context, c: Candidate, profile: Profile, backend: Backend): seq<FilterStatus> {
    [ PassIf(ctx.analysis.preflight == "allow"),
      PassIf(ctx.taskType in backend.taskTypes),
      PassIf(ctx.analysis.privacyLevel in backend.privacyLevels),
      PassIf(ctx.analysis.taskLevel == 0 || (c.verifierRecipe.Some? && c.verifierRecipe.value != "")),
      PassIf(c.backendClass !in ctx.forbidden),
      PassIf(c.backendClass !in GATEWAY_CLASSES || WorkerOf(c) == Some(Str(GATEWAY_WORKER))),
      PassIf(!ctx.analysis.rawSecret),
      PassIf(profile.availability != Unavailable),
      PassIf(ctx.planLevel >= ctx.analysis.taskLevel),
      if profile.scope != Peer then NotRequired else Fail ]
  }

  predicate FiltersPass(results: seq<FilterStatus>) { Fail !in results }

  function UncertaintyPenalty(profile: Profile, confidence: Unit, results: seq<FilterStatus>): real {
    Min(0.25, 0.03 + Max(0.0, 1.0 - confidence) * 0.12
              + (if profile.p50.None? then 0.03 else 0.0)
              + (if profile.sampleSize == 0 then 0.04 else 0.0)
              + (if PendingPolicyDecision in results then 0.03 else 0.0))
  }

  predicate Known(ctx: Context, c: Candidate) { c.backend in ctx.registry && c.backend in ctx.profiles }

  function FiltersOf(ctx: Context, c: Candidate): seq<FilterStatus>
    requires Known(ctx, c)
  {
    HardFilters(ctx, c, ctx.profiles[c.backend], ctx.registry[c.backend])
  }

  predicate Passes(ctx: Context, c: Candidate)
    requires Known(ctx, c)
  {
    FiltersPass(FiltersOf(ctx, c))
  }

  /** What makes a candidate eligible, in terms of the task, the candidate and the manifests. */
  ghost predicate Eligible(ctx: Context, c: Candidate)
    requires Known(ctx, c)
  {
    var backend, capacity := ctx.registry[c.backend], ctx.profiles[c.backend];
    && ctx.analysis.preflight == "allow"
    && ctx.taskType in backend.taskTypes
    && ctx.analysis.privacyLevel in backend.privacyLevels
    && (ctx.analysis.taskLevel > 0 ==> c.verifierRecipe.Some? && c.verifierRecipe.value != "")
    && c.backendClass !in ctx.forbidden
    && (c.backendClass == "api_model_gateway" || c.backendClass == "primary_model_gateway" ==>
          Get(c.selector, "worker_id") == Some(Str("wrk_control_plane_gateway")))
    && !ctx.analysis.rawSecret
    && capacity.availability != Unavailable
    && ctx.analysis.taskLevel <= ctx.planLevel
    && capacity.scope != Peer
  }

  /** The ten hard filters let a candidate pass exactly when it is eligible. */
  lemma PassesIffEligible(ctx: Context, c: Candidate)
    requires Known(ctx, c)
    ensures Passes(ctx, c) <==> Eligible(ctx, c)
  {
    var filters := FiltersOf(ctx, c);
    if Passes(ctx, c) {
      forall i | 0 <= i < 10 ensures filters[i] != Fail { assert filters[i] in filters; }
      assert filters[0] != Fail && filters[1] != Fail && filters[2] != Fail && filters[3] != Fail && filters[4] != Fail;
      assert filters[5] != Fail && filters[6] != Fail && filters[7] != Fail && filters[8] != Fail && filters[9] != Fail;
    }
  }

  function Fits(ctx: Context, c: Candidate): Components
    requires Known(ctx, c)
  {
    var profile := ctx.profiles[c.backend];
    [ CapabilityFit(ctx.task, profile), if Passes(ctx, c) then 1.0 else 0.0, QualityFit(ctx.task, profile),
      CostFit(c.cost, ctx.task.costPreference), LatencyFit(profile, ctx.task.latencyHigh), TrustFit(profile.scope) ]
  }

  function PenaltyOf(ctx: Context, c: Candidate): real
    requires Known(ctx, c)
  {
    UncertaintyPenalty(ctx.profiles[c.backend], ctx.analysis.confidence, FiltersOf(ctx, c))
  }

  function TotalOf(ctx: Context, c: Candidate): real
    requires Known(ctx, c)
  {
    Total(ctx.weights, Fits(ctx, c), PenaltyOf(ctx, c), c.priority, Passes(ctx, c))
  }

  lemma {:induction false} CapabilitySumBound(required: seq<Requirement>, capabilities: map<string, Unit>)
    ensures 0.0 <= CapabilitySum(required, capabilities) <= |required| as real
  {
    if required != [] { CapabilitySumBound(required[..|required| - 1], capabilities); }
  }

  lemma AverageBound(sum: real, n: nat)
    requires 0.0 <= sum <= n as real && n > 0
    ensures 0.0 <= sum / n as real <= 1.0
  {
  }

  /** Every field of every score passes the model's range checks, the penalty is at least 0.03,
      and the total stays clear of the upper clamp. */
  lemma ScoreInRange(ctx: Context, c: Candidate)
    requires Known(ctx, c) && GoodWeights(ctx.weights)
    ensures UnitFits(Fits(ctx, c)) && 0.03 <= PenaltyOf(ctx, c) <= 0.25
    ensures 0.0 <= TotalOf(ctx, c) <= 0.9703
    ensures Clamped(Raw(ctx.weights, Fits(ctx, c), PenaltyOf(ctx, c), c.priority))
            == Max(0.0, Raw(ctx.weights, Fits(ctx, c), PenaltyOf(ctx, c), c.priority))
  {
    var profile := ctx.profiles[c.backend];
    if ctx.task.required != [] {
      CapabilitySumBound(ctx.task.required, profile.capabilities);
      AverageBound(CapabilitySum(ctx.task.required, profile.capabilities), |ctx.task.required|);
    }
    TotalBound(ctx.weights, Fits(ctx, c), PenaltyOf(ctx, c), c.priority, Passes(ctx, c));
  }

  /** The cap never acts and no filter is ever pending, so the penalty is the plain sum. */
  lemma PenaltyExactly(ctx: Context, c: Candidate)
    requires Known(ctx, c)
    ensures var capacity := ctx.profiles[c.backend];
            PenaltyOf(ctx, c) == 0.15 - 0.12 * ctx.analysis.confidence
                                 + (if capacity.p50.Some? then 0.0 else 0.03)
                                 + (if capacity.sampleSize > 0 then 0.0 else 0.04)
  {
    assert PendingPolicyDecision !in FiltersOf(ctx, c);
  }

  /** The capability fit is full exactly when every requirement is met. */
  lemma CapabilityFull(task: TaskProfile, profile: Profile)
    ensures CapabilityFit(task, profile) == 1.0 <==>
              forall r :: r in task.required ==> Met(r, profile.capabilities)
  {
    CapabilitySumBound(task.required, profile.capabilities);
    CapabilitySumFull(task.required, profile.capabilities);
    if task.required != [] { FullMean(CapabilitySum(task.required, profile.capabilities), |task.required|); }
  }

  lemma FullMean(sum: real, n: nat)
    requires n > 0
    ensures sum / n as real == 1.0 <==> sum == n as real
  {
  }

  /** The capability is there, and scores at least what is asked and at least 0.01. */
  ghost predicate Met(r: Requirement, capabilities: map<string, Unit>) {
    && r.capability in capabilities
    && capabilities[r.capability] >= r.minScore && capabilities[r.capability] >= 0.01
  }

  lemma ScoreFull(r: Requirement, capabilities: map<string, Unit>)
    ensures CapabilityScore(r, capabilities) == 1.0 <==> Met(r, capabilities)
  {
    if r.capability in capabilities { AtLeastOne(capabilities[r.capability], Max(r.minScore, 0.01)); }
  }

  lemma AtLeastOne(x: real, d: real)
    requires d > 0.0
    ensures x / d >= 1.0 <==> x >= d
  {
    if x >= d { QuotientMonotone(d, x, d); }
    if x / d >= 1.0 { assert x == (x / d) * d; }
  }

  lemma {:induction false} CapabilitySumFull(required: seq<Requirement>, capabilities: map<string, Unit>)
    ensures CapabilitySum(required, capabilities) == |required| as real <==>
              forall r :: r in required ==> Met(r, capabilities)
  {
    if required != [] {
      var init, last := required[..|required| - 1], required[|required| - 1];
      CapabilitySumBound(init, capabilities);
      CapabilitySumFull(init, capabilities);
      ScoreFull(last, capabilities);
      assert required == init + [last];
    }
  }

  /** A free candidate fits fully; otherwise four price bands decide, and a preference shifts the fit
      without ever reaching the clamps. */
  lemma CostFitExactly(cost: nat)
    ensures forall preference :: CostFit(cost, preference) == 1.0 <==> cost == 0
    ensures var fit := CostFit(cost, Balanced);
            && fit in {1.0, 0.80, 0.65, 0.45, 0.25}
            && (fit >= 0.80 <==> cost <= 1_000) && (fit >= 0.65 <==> cost <= 10_000)
            && (fit >= 0.45 <==> cost <= 100_000)
            && (cost > 0 ==> CostFit(cost, CostFirst) == fit - 0.10 && CostFit(cost, QualityFirst) == fit + 0.05)
  {
  }

  /** Degraded capacity is as slow as any; an unknown latency lies between the middle and the last band. */
  lemma LatencyFitExactly(profile: Profile, latencyHigh: bool)
    ensures var fit, steady := LatencyFit(profile, latencyHigh), profile.availability != Degraded;
            && fit in {0.95, 0.75, 0.65, 0.58, 0.45}
            && (fit == 0.95 <==> steady && profile.p50.Some? && profile.p50.value <= 500)
            && (fit == 0.75 <==> steady && profile.p50.Some? && 500 < profile.p50.value <= 2_000)
            && (fit == 0.65 <==> steady && profile.p50 == None && !latencyHigh)
            && (fit == 0.58 <==> steady && profile.p50 == None && latencyHigh)
  {
  }

  lemma TrustFitExactly(scope: Scope)
    ensures TrustFit(scope) in {1.0, 0.90, 0.85, 0.40}
    ensures TrustFit(scope) == 1.0 <==> scope == UserLocal
    ensures TrustFit(scope) >= 0.90 <==> scope == UserLocal || scope == SystemWide
    ensures TrustFit(scope) >= 0.85 <==> scope != Peer
  {
  }

  /** The values the tier fit can take: the floor never acts, the cap only three tiers up. */
  lemma TierFitExactly(task: TaskProfile, profile: Profile)
    ensures var fit, easy, middling := TierFit(task, profile), task.difficulty <= 1, task.difficulty == 2;
            match profile.tier
            case None =>
              && (fit == 0.95 <==> easy && "deterministic_local" in profile.capabilities)
              && (fit == 0.80 <==> fit != 0.95 && (easy || middling) && profile.backendClass == "browser_fetch")
              && fit in {0.95, 0.80, 0.45}
            case Some(WeakGeneral) => fit == if easy then 0.82 else if middling then 0.54 else 0.36
            case Some(StandardTier) => fit == if easy then 0.89 else if middling then 0.82 else 0.54
            case Some(Strong) => fit == if easy then 0.96 else if middling then 0.89 else 0.82
            case Some(_) => fit == if easy then 1.0 else if middling then 0.96 else 0.89
  {
  }

  /** The quality fit: the tier counts 0.55, a pass rate 0.20, and being verified for the task is
      worth 0.075 more. */
  lemma QualityFitExactly(task: TaskProfile, profile: Profile)
    ensures QualityFit(task, profile) == 0.1375 + 0.55 * TierFit(task, profile) + PassRate(profile) / 5.0
                                         + if task.taskType in profile.verifiedFor then 0.075 else 0.0
  {
  }

  /////// The total against the formula without rounding

  ghost function Dot(s: seq<real>, t: seq<real>): real
    requires |s| == |t|
  {
    if s == [] then 0.0 else s[0] * t[0] + Dot(s[1..], t[1..])
  }

  ghost function IdealTotal(shares: Components, fits: Components, penalty: real, priority: Positive): real {
    Max(0.0, Dot(fits, shares) - penalty - if priority == 1 then 0.0 else if priority == 2 then 0.04 else 0.08)
  }

  /** A fit times a rounded share is off by at most a ten-thousandth. */
  lemma WeighNear(f: Unit, w: real, share: real)
    requires -0.00005 <= w - share <= 0.00005
    ensures -0.0001 <= Weigh(f, w) - f * share <= 0.0001
  {
    RoundNear(f * w);
    ScaledNear(f, w - share);
    Distribute(f, w, share);
    TwoSteps(Weigh(f, w), f * w, f * share, f * (w - share));
  }

  lemma TwoSteps(rounded: real, exact: real, ideal: real, off: real)
    requires -0.00005 <= rounded - exact <= 0.00005 && -0.00005 <= off <= 0.00005 && exact - ideal == off
    ensures -0.0001 <= rounded - ideal <= 0.0001
  {
  }

  lemma Distribute(f: real, w: real, share: real)
    ensures f * (w - share) == f * w - f * share
  {
  }

  lemma ScaledNear(f: Unit, d: real)
    requires -0.00005 <= d <= 0.00005
    ensures -0.00005 <= f * d <= 0.00005
  {
    if d >= 0.0 {
      assert 0.0 <= f * d <= 1.0 * d;
    } else {
      assert 0.0 <= f * (-d) <= 1.0 * (-d);
    }
  }

  ghost predicate NearShares(weights: seq<real>, shares: seq<real>) {
    |weights| == |shares| && forall i :: 0 <= i < |shares| ==> -0.00005 <= weights[i] - shares[i] <= 0.00005
  }

  lemma {:induction false} WeightedNear(fits: seq<real>, weights: seq<real>, shares: seq<real>)
    requires |fits| == |weights| && UnitFits(fits) && NearShares(weights, shares)
    ensures var off := WeightedSum(fits, weights) - Dot(fits, shares);
            -0.0001 * |fits| as real <= off <= 0.0001 * |fits| as real
  {
    if fits != [] {
      WeighNear(fits[0], weights[0], shares[0]);
      WeightedNear(fits[1..], weights[1..], shares[1..]);
      AddNear(Weigh(fits[0], weights[0]), fits[0] * shares[0], WeightedSum(fits[1..], weights[1..]),
              Dot(fits[1..], shares[1..]), |fits| - 1);
    }
  }

  lemma AddNear(x: real, y: real, sum: real, dot: real, n: nat)
    requires -0.0001 <= x - y <= 0.0001 && -0.0001 * n as real <= sum - dot <= 0.0001 * n as real
    ensures -0.0001 * (n + 1) as real <= (x + sum) - (y + dot) <= 0.0001 * (n + 1) as real
  {
  }

  lemma {:induction false} SharesAt(weights: seq<real>, total: real, i: nat)
    requires total > 0.0 && i < |weights|
    ensures |Shares(weights, total)| == |weights| && Shares(weights, total)[i] == Round4(weights[i] / total)
  {
    SharesLength(weights, total);
    if i > 0 { SharesAt(weights[1..], total, i - 1); }
  }

  lemma RoundedShares(configured: Components, shares: Components)
    requires SumOf(configured) > 0.0 && forall i :: 0 <= i < 6 ==> shares[i] == configured[i] / SumOf(configured)
    ensures NearShares(ScoreWeights(configured), shares)
  {
    forall i | 0 <= i < 6 ensures -0.00005 <= ScoreWeights(configured)[i] - shares[i] <= 0.00005 {
      SharesAt(configured, SumOf(configured), i);
      RoundNear(shares[i]);
    }
  }

  /** Main result: an eligible candidate's total is within 0.00065 of the sum of its capability, policy,
      quality, cost, latency and trust fits, weighted by the configured shares in that order, less both
      penalties and cut off at zero; any other candidate's is zero. */
  lemma ScoreNear(ctx: Context, c: Candidate, configured: Components, shares: Components)
    requires Known(ctx, c) && NonNegative(configured) && SumOf(configured) > 0.0
    requires ctx.weights == ScoreWeights(configured)
    requires forall i :: 0 <= i < 6 ==> shares[i] == configured[i] / SumOf(configured)
    ensures Eligible(ctx, c) ==>
              var task, capacity := ctx.task, ctx.profiles[c.backend];
              var fits := [CapabilityFit(task, capacity), 1.0, QualityFit(task, capacity),
                           CostFit(c.cost, task.costPreference), LatencyFit(capacity, task.latencyHigh),
                           TrustFit(capacity.scope)];
              var ideal := IdealTotal(shares, fits, PenaltyOf(ctx, c), c.priority);
              -0.00065 <= TotalOf(ctx, c) - ideal <= 0.00065
    ensures !Eligible(ctx, c) ==> TotalOf(ctx, c) == 0.0
  {
    PassesIffEligible(ctx, c);
    WeightsSumNearOne(configured);
    ScoreInRange(ctx, c);
    var fits, penalty := Fits(ctx, c), PenaltyOf(ctx, c);
    RoundedShares(configured, shares);
    WeightedNear(fits, ctx.weights, shares);
    assert |fits| as real == 6.0;
    RoundNear(Clamped(Raw(ctx.weights, fits, penalty, c.priority)));
  }

  /////// Better inputs never score lower

  /** Capacity `q` is no better than `p` for this task, in the terms of the manifests. */
  ghost predicate NoBetter(task: TaskProfile, q: Profile, p: Profile) {
    && (forall r :: r in task.required && r.capability in q.capabilities ==>
          r.capability in p.capabilities && q.capabilities[r.capability] <= p.capabilities[r.capability])
    && q.backendClass == p.backendClass && q.tier.Some? == p.tier.Some?
    && (q.tier.Some? ==> NoStronger(q.tier.value, p.tier.value))
    && ("deterministic_local" in q.capabilities ==> "deterministic_local" in p.capabilities)
    && (task.taskType in q.verifiedFor ==> task.taskType in p.verifiedFor)
    && PassRate(q) <= PassRate(p) && (p.sampleSize == 0 ==> q.sampleSize == 0)
    && (p.availability == Degraded ==> q.availability == Degraded)
    && q.p50.Some? == p.p50.Some? && (q.p50.Some? ==> p.p50.value <= q.p50.value)
    && (|| p.scope == q.scope
        || p.scope == UserLocal
        || q.scope == Peer
        || (p.scope == SystemWide && q.scope == TeamLocal))
  }

  /** Weak, standard, strong, and at the top both frontier and specialist. */
  ghost predicate NoStronger(t: ModelTier, u: ModelTier) {
    t == u || t == WeakGeneral || u == Frontier || u == Specialist || (t == StandardTier && u == Strong)
  }

  /** The measured pass rate; one that was never measured counts as 0.70. */
  ghost function PassRate(p: Profile): real {
    match p.passRate
    case Some(rate) => if p.sampleSize == 0 then 0.70 else rate
    case None => 0.70
  }

  lemma CapabilityScoreMonotone(r: Requirement, q: map<string, Unit>, p: map<string, Unit>)
    requires r.capability in q ==> r.capability in p && q[r.capability] <= p[r.capability]
    ensures CapabilityScore(r, q) <= CapabilityScore(r, p)
  {
    if r.capability in q { QuotientMonotone(q[r.capability], p[r.capability], Max(r.minScore, 0.01)); }
  }

  lemma QuotientMonotone(x: real, y: real, d: real)
    requires x <= y && d > 0.0
    ensures x / d <= y / d
  {
  }

  lemma {:induction false} CapabilitySumMonotone(required: seq<Requirement>, q: map<string, Unit>, p: map<string, Unit>)
    requires forall r :: r in required && r.capability in q ==> r.capability in p && q[r.capability] <= p[r.capability]
    ensures CapabilitySum(required, q) <= CapabilitySum(required, p)
  {
    if required != [] {
      CapabilitySumMonotone(required[..|required| - 1], q, p);
      CapabilityScoreMonotone(required[|required| - 1], q, p);
    }
  }

  lemma CapabilityFitMonotone(task: TaskProfile, q: Profile, p: Profile)
    requires NoBetter(task, q, p)
    ensures CapabilityFit(task, q) <= CapabilityFit(task, p)
  {
    if task.required != [] {
      CapabilitySumMonotone(task.required, q.capabilities, p.capabilities);
      QuotientMonotone(CapabilitySum(task.required, q.capabilities), CapabilitySum(task.required, p.capabilities),
                       |task.required| as real);
    }
  }

  lemma QualityFitMonotone(task: TaskProfile, q: Profile, p: Profile)
    requires NoBetter(task, q, p)
    ensures TierFit(task, q) <= TierFit(task, p) && QualityFit(task, q) <= QualityFit(task, p)
  {
  }

  lemma CostFitMonotone(cost: nat, cost': nat, preference: CostPreference)
    requires cost <= cost'
    ensures CostFit(cost', preference) <= CostFit(cost, preference)
  {
  }

  /** A passing candidate that is no dearer, on capacity that is no worse, is at least as good in
      every component and pays no larger penalty. */
  lemma BetterFits(ctx: Context, d: Candidate, c: Candidate)
    requires Known(ctx, c) && Known(ctx, d) && Passes(ctx, c) && c.cost <= d.cost
    requires NoBetter(ctx.task, ctx.profiles[d.backend], ctx.profiles[c.backend])
    ensures Leq(Fits(ctx, d), Fits(ctx, c)) && PenaltyOf(ctx, c) <= PenaltyOf(ctx, d)
  {
    var q, p := ctx.profiles[d.backend], ctx.profiles[c.backend];
    CapabilityFitMonotone(ctx.task, q, p);
    QualityFitMonotone(ctx.task, q, p);
    CostFitMonotone(c.cost, d.cost, ctx.task.costPreference);
    assert LatencyFit(q, ctx.task.latencyHigh) <= LatencyFit(p, ctx.task.latencyHigh);
    assert PendingPolicyDecision !in FiltersOf(ctx, c) && PendingPolicyDecision !in FiltersOf(ctx, d);
  }
}
