// Result envelopes: how a backend adapter builds one, how the verifier checks
// one, and when the verifier recommends accepting it.

module Envelopes {
  import opened Common
  import opened Hashes
  import opened Scheduler

  const KNOWN_BACKEND_CLASSES: set<string> := {
    "api_model_gateway", "browser_fetch", "local_model", "local_script", "local_tool", "primary_model_gateway" }

  datatype Context = Context(workUnit: Id, attempt: Id, assignment: Id, backend: Id, backendClass: string,
                             worker: Option<Id>)

  function BackendClassOrNone(name: string): Option<string> {
    if name in KNOWN_BACKEND_CLASSES then Some(name) else None
  }

  function ContextPayload(ctx: Context, output: Json, usage: seq<Id>, status: ResultStatus,
                          errors: seq<string>): ResultPayload {
    ResultPayload(ctx.workUnit, ctx.attempt, ctx.assignment, Some(ctx.backend), Some(ctx.backendClass),
                  OutputHash(output), status, usage, errors)
  }

  /** `id` is the adapter's digest-derived envelope id. */
  function BuildEnvelope(ctx: Context, id: Id, output: Json, usage: seq<Id>, status: ResultStatus,
                         errors: seq<string>): Envelope {
    Envelope(id, ctx.workUnit, ctx.attempt, ctx.assignment, ctx.worker, status,
             Some(ctx.backend), BackendClassOrNone(ctx.backendClass), output, OutputHash(output),
             EnvelopeHash(ContextPayload(ctx, output, usage, status, errors)), usage, errors)
  }

  /** The verifier's own recomputation, from the envelope alone. */
  function ExpectedResultHash(env: Envelope): Hash {
    EnvelopeHash(ResultPayload(env.workUnit, env.attempt, env.assignment, env.backend, env.backendClass,
                               env.outputHash, env.status, env.usageRecords, env.errorCodes))
  }

  predicate OutputHashValid(env: Envelope) { env.outputHash == OutputHash(env.output) }
  predicate ResultHashValid(env: Envelope) { env.resultHash == ExpectedResultHash(env) }

  /** Producer and verifier agree exactly on the known backend classes; the output hash
      always checks. */
  lemma ProducerVerifierAgree(ctx: Context, id: Id, output: Json, usage: seq<Id>, status: ResultStatus,
                              errors: seq<string>)
    ensures var env := BuildEnvelope(ctx, id, output, usage, status, errors);
            OutputHashValid(env) && (ResultHashValid(env) <==> ctx.backendClass in KNOWN_BACKEND_CLASSES)
  {
  }

  /** An envelope that checks, rewritten to quarantined as a late submit does, still checks
      exactly when it was quarantined to begin with. */
  lemma LateRewriteBreaksHash(env: Envelope)
    requires ResultHashValid(env)
    ensures ResultHashValid(env.(status := ResultQuarantined)) <==> env.status == ResultQuarantined
  {
  }

  /** What a late submit stores: the same hash beside the rewritten status. */
  lemma LateRowKeepsHash(db: Db, a: Id, worker: Id, cred: Credential, env: Envelope)
    requires Submit(db, a, worker, cred, env.output, Some(env), env.id).Committed?
    ensures var out := Submit(db, a, worker, cred, env.output, Some(env), env.id);
            var row := out.db.results[|db.results|];
            && row.resultHash == env.resultHash && row.outputHash == env.outputHash && row.output == env.output
            && (ResultHashValid(env) && env.status != ResultQuarantined && Late(db, db.assignments[a].attempt) ==>
                  row.resultHash != ExpectedResultHash(env.(status := row.status)))
  {
  }

  /** A tampered identifier, class, output or record list cannot keep the result hash. */
  lemma ResultHashBindsFields(env: Envelope, env': Envelope)
    requires ResultHashValid(env) && ResultHashValid(env') && env.resultHash == env'.resultHash
    requires OutputHashValid(env) && OutputHashValid(env')
    ensures && env.output == env'.output && env.status == env'.status && env.assignment == env'.assignment
            && env.attempt == env'.attempt && env.workUnit == env'.workUnit && env.backend == env'.backend
            && env.backendClass == env'.backendClass && env.usageRecords == env'.usageRecords
            && env.errorCodes == env'.errorCodes
  {
  }
}

module Verifier {
  import opened Common
  import opened Hashes
  import opened Envelopes
  import S = Scheduler

  datatype CheckStatus = Passed | Failed | NeedsReview | Skipped

  datatype CheckName =
    | ResultEnvelopeIntegrity | OutputHashPresent | OutputHashCheck | ResultHashCheck
    | PolicyLinkage | SecretRedaction | OutputSchema
    | UrlPolicySafety | UrlTimeout | UrlStatus
    | DedupOvermerge | DedupExact
    | TopicLabelEnum | TopicConfidenceRange | TopicConfidence | TopicClassification
    | ClaimText | ClaimEntity | ClaimTypeEnum | ClaimConfidenceRange | ClaimSourceRef | ClaimEvidenceHint
    | ClaimExtraction
    | WebpageEmpty | WebpagePromptInjection | WebpageExtraction
    | RecipeKnown

  datatype Check = Check(name: CheckName, status: CheckStatus)

  datatype RecipeId =
    | UrlCheckV0 | DedupV0 | TopicClassificationV0 | ClaimExtractionV0 | WebpageExtractionV0 | OtherRecipe

  datatype Recommendation = Accept | AcceptWithWarning | Retry | Fallback | Reject | Quarantine | Escalate | Review

  /** The keys of a recipe's recommendation table. */
  datatype Key =
    | SecretDetected | OutputHashMissing | HashMismatch | SchemaInvalid
    | PrivateIpOrRedirect | Timeout | Http4xx | DefaultFailure | Overmerge
    | LabelNotEnum | LowConfidence | MissingSourceRef | MissingEntity | EmptyPage | PromptInjection

  datatype Policy = Policy(workUnit: Option<Id>, decision: Option<string>)

  /** What the verifier is told besides the envelope: the policy decision, whether the secret
      patterns match anywhere in it, and whether a configured schema accepts the output. */
  datatype Evidence = Evidence(policy: Option<Policy>, secretFound: bool, schemaAccepts: Option<bool>)

  /////// Python values

  predicate Truthy(v: Json) {
    match v
    case Null => false
    case Bool(b) => b
    case Int(i) => i != 0
    case Float(f) => f != 0.0
    case Str(s) => s != ""
    case List(items) => items != []
    case Obj(members) => members != []
  }

  function Members(output: Json): seq<Member> { if output.Obj? then output.members else [] }

  function Attr(members: seq<Member>, key: string): Json {
    var v := Get(members, key);
    if v.Some? then v.value else Null
  }

  /** Numeric, not a bool, and within [0, 1]. */
  predicate UnitInterval(v: Json) {
    (v.Int? && 0 <= v.i <= 1) || (v.Float? && 0.0 <= v.f <= 1.0)
  }

  function AsReal(v: Json): real
    requires v.Int? || v.Float? || v.Bool?
  {
    match v
    case Int(i) => i as real
    case Float(f) => f
    case Bool(b) => if b then 1.0 else 0.0
  }

  /** Python equality: numbers compare across types. */
  predicate PyEq(x: Json, y: Json)
    decreases x
  {
    if (x.Int? || x.Float? || x.Bool?) && (y.Int? || y.Float? || y.Bool?) then AsReal(x) == AsReal(y)
    else if x.List? && y.List? then
      |x.items| == |y.items| && forall i :: 0 <= i < |x.items| ==> PyEq(x.items[i], y.items[i])
    else if x.Obj? && y.Obj? then
      && (forall i :: 0 <= i < |x.members| ==>
            var other := Get(y.members, x.members[i].key);
            other.Some? && PyEq(x.members[i].value, other.value))
      && (forall i :: 0 <= i < |y.members| ==> Get(x.members, y.members[i].key).Some?)
    else x == y
  }

  /////// Common checks

  function CheckIntegrity(env: Envelope): seq<Check> {
    [Check(ResultEnvelopeIntegrity,
           if env.id.text != "" && env.workUnit.text != "" && env.attempt.text != "" && env.assignment.text != ""
           then Passed
           else Failed)]
  }

  function CheckHashes(env: Envelope): seq<Check> {
    if env.outputHash == ForeignText("") then [Check(OutputHashPresent, Failed)]
    else [Check(OutputHashCheck, if OutputHashValid(env) then Passed else Failed),
          Check(ResultHashCheck, if ResultHashValid(env) then Passed else Failed)]
  }

  function CheckPolicyLinkage(env: Envelope, policy: Option<Policy>): seq<Check> {
    [Check(PolicyLinkage,
           if policy.None? then Skipped
           else if policy.value.workUnit != Some(env.workUnit) || policy.value.decision != Some("approved") then Failed
           else Passed)]
  }

  function CheckSecrets(found: bool): seq<Check> { [Check(SecretRedaction, if found then Failed else Passed)] }

  function CheckSchema(accepts: Option<bool>): seq<Check> {
    [Check(OutputSchema, if accepts.None? then Skipped else if accepts.value then Passed else Failed)]
  }

  /////// Task checks

  function UrlCheck(o: seq<Member>): seq<Check> {
    if Truthy(Attr(o, "private_ip_denied")) || Truthy(Attr(o, "redirect_denied")) then [Check(UrlPolicySafety, Failed)]
    else if Truthy(Attr(o, "timed_out")) then [Check(UrlTimeout, Failed)]
    else
      var code := Attr(o, "status_code");
      if code == Null && Attr(o, "ok") == Bool(true) then [Check(UrlStatus, Passed)]
      else if code.Int? && 200 <= code.i < 300 then [Check(UrlStatus, Passed)]
      else if code.Int? && 400 <= code.i < 500 then [Check(UrlStatus, NeedsReview)]
      else [Check(UrlStatus, Failed)]
  }

  function DedupCheck(o: seq<Member>): seq<Check> {
    if Truthy(Attr(o, "overmerge_detected")) then [Check(DedupOvermerge, NeedsReview)]
    else
      var count := Attr(o, "duplicate_count");   // a Python bool is an int
      if Get(o, "unique_items").Some? && (count.Int? || count.Bool?) then [Check(DedupExact, Passed)]
      else [Check(DedupExact, Failed)]
  }

  predicate LabelAllowed(o: seq<Member>) {
    var labels := Attr(o, "allowed_labels");
    labels.List? ==> exists i :: 0 <= i < |labels.items| && PyEq(Attr(o, "label"), labels.items[i])
  }

  function TopicCheck(o: seq<Member>): seq<Check> {
    var confidence := Attr(o, "confidence");
    if !LabelAllowed(o) then [Check(TopicLabelEnum, Failed)]
    else if !UnitInterval(confidence) then [Check(TopicConfidenceRange, Failed)]
    else if AsReal(confidence) < 0.65 then [Check(TopicConfidence, NeedsReview)]
    else [Check(TopicClassification, Passed)]
  }

  const ALLOWED_CLAIM_TYPES: set<string> := {"factual", "metric", "policy", "product", "other"}

  function NonEmptyStrings(items: seq<Json>): seq<string> {
    if items == [] then []
    else (if items[0].Str? && items[0].s != "" then [items[0].s] else []) + NonEmptyStrings(items[1..])
  }

  function StringsOf(v: Json): seq<string> { if v.List? then NonEmptyStrings(v.items) else [] }

  predicate ClaimTypeAllowed(o: seq<Member>, kind: string) {
    var listed := StringsOf(Attr(o, "allowed_claim_types"));
    kind in ALLOWED_CLAIM_TYPES && ((exists t :: t in listed && t in ALLOWED_CLAIM_TYPES) ==> kind in listed)
  }

  function SourceRefs(claim: seq<Member>): seq<string> {
    var refs := StringsOf(Attr(claim, "source_post_refs"));
    if refs != [] then refs
    else
      var single := Attr(claim, "source_ref");
      if single.Str? && single.s != "" then [single.s] else []
  }

  predicate RefsAllowed(refs: seq<string>, ids: seq<string>) {
    forall r :: r in refs ==> if ids != [] then r in ids else "src_" <= r || "fixture_" <= r
  }

  predicate NonEmptyText(v: Json) { v.Str? && v.s != "" }

  function ClaimTextOf(c: seq<Member>): Json {
    if Truthy(Attr(c, "claim_text")) then Attr(c, "claim_text") else Attr(c, "text")
  }

  function FailIf(bad: bool, name: CheckName): seq<Check> { if bad then [Check(name, Failed)] else [] }

  predicate BadType(o: seq<Member>, c: seq<Member>) {
    var kind := Attr(c, "claim_type");
    !kind.Str? || !ClaimTypeAllowed(o, kind.s)
  }

  predicate BadRefs(o: seq<Member>, c: seq<Member>) {
    SourceRefs(c) == [] || !RefsAllowed(SourceRefs(c), StringsOf(Attr(o, "source_ids")))
  }

  /** The failures one claim contributes. */
  function ClaimFailures(o: seq<Member>, claim: Json): seq<Check> {
    if !claim.Obj? then [Check(ClaimEntity, Failed)]
    else
      var c := claim.members;
      FailIf(!NonEmptyText(ClaimTextOf(c)), ClaimText)
      + FailIf(!Truthy(Attr(c, "entity")), ClaimEntity)
      + FailIf(BadType(o, c), ClaimTypeEnum)
      + FailIf(!UnitInterval(Attr(c, "confidence")), ClaimConfidenceRange)
      + FailIf(BadRefs(o, c), ClaimSourceRef)
      + FailIf(!NonEmptyText(Attr(c, "evidence_hint")), ClaimEvidenceHint)
  }

  function Flat(parts: seq<seq<Check>>): seq<Check> {
    if parts == [] then [] else Flat(parts[..|parts| - 1]) + parts[|parts| - 1]
  }

  function PerClaim(o: seq<Member>, claims: seq<Json>): seq<seq<Check>> {
    seq(|claims|, i requires 0 <= i < |claims| => ClaimFailures(o, claims[i]))
  }

  function AllClaimFailures(o: seq<Member>, claims: seq<Json>): seq<Check> { Flat(PerClaim(o, claims)) }

  function ClaimCheck(o: seq<Member>): seq<Check> {
    var claims := Attr(o, "claims");
    if !claims.List? || claims.items == [] then [Check(ClaimEntity, Failed)]
    else
      var failures := AllClaimFailures(o, claims.items);
      if failures != [] then failures else [Check(ClaimExtraction, Passed)]
  }

  function WebpageCheck(o: seq<Member>): seq<Check> {
    var extracted := Attr(o, "extracted");
    if !extracted.Obj? || extracted.members == [] then [Check(WebpageEmpty, Failed)]
    else if Truthy(Attr(o, "prompt_injection_detected")) then [Check(WebpagePromptInjection, NeedsReview)]
    else [Check(WebpageExtraction, Passed)]
  }

  function TaskChecks(recipe: RecipeId, output: Json): seq<Check> {
    var o := Members(output);
    match recipe
    case UrlCheckV0 => UrlCheck(o)
    case DedupV0 => DedupCheck(o)
    case TopicClassificationV0 => TopicCheck(o)
    case ClaimExtractionV0 => ClaimCheck(o)
    case WebpageExtractionV0 => WebpageCheck(o)
    case OtherRecipe => [Check(RecipeKnown, Failed)]
  }

  function AllChecks(recipe: RecipeId, env: Envelope, ev: Evidence): seq<Check> {
    CheckIntegrity(env) + CheckHashes(env) + CheckPolicyLinkage(env, ev.policy) + CheckSecrets(ev.secretFound)
    + CheckSchema(ev.schemaAccepts) + TaskChecks(recipe, env.output)
  }

  /////// Recommendation

  function Lookup(table: map<Key, Recommendation>, key: Key, default: Recommendation): Recommendation {
    if key in table then table[key] else default
  }

  predicate Has(checks: seq<Check>, name: CheckName, status: CheckStatus) { Check(name, status) in checks }

  function TaskRecommendation(table: map<Key, Recommendation>, checks: seq<Check>): Option<Recommendation> {
    if Has(checks, UrlPolicySafety, Failed) then Some(Lookup(table, PrivateIpOrRedirect, Quarantine))
    else if Has(checks, UrlTimeout, Failed) then Some(Lookup(table, Timeout, Retry))
    else if Has(checks, UrlStatus, NeedsReview) then Some(Lookup(table, Http4xx, AcceptWithWarning))
    else if Has(checks, UrlStatus, Failed) then Some(Lookup(table, DefaultFailure, Reject))
    else if Has(checks, DedupOvermerge, NeedsReview) then Some(Lookup(table, Overmerge, AcceptWithWarning))
    else if Has(checks, DedupExact, Failed) then Some(Lookup(table, DefaultFailure, Reject))
    else if Has(checks, TopicLabelEnum, Failed) then Some(Lookup(table, LabelNotEnum, Retry))
    else if Has(checks, TopicConfidenceRange, Failed) then Some(Lookup(table, SchemaInvalid, Retry))
    else if Has(checks, TopicConfidence, NeedsReview) then Some(Lookup(table, LowConfidence, AcceptWithWarning))
    else if Has(checks, ClaimSourceRef, Failed) then Some(Lookup(table, MissingSourceRef, Fallback))
    else if Has(checks, ClaimEntity, Failed) then Some(Lookup(table, MissingEntity, Retry))
    else if || Has(checks, ClaimText, Failed)
            || Has(checks, ClaimTypeEnum, Failed)
            || Has(checks, ClaimConfidenceRange, Failed)
            || Has(checks, ClaimEvidenceHint, Failed)
    then Some(Lookup(table, SchemaInvalid, Retry))
    else if Has(checks, WebpageEmpty, Failed) then Some(Lookup(table, EmptyPage, Fallback))
    else if Has(checks, WebpagePromptInjection, NeedsReview)
    then Some(Lookup(table, PromptInjection, AcceptWithWarning))
    else None
  }

  function Recommend(table: map<Key, Recommendation>, checks: seq<Check>): Recommendation {
    if Has(checks, SecretRedaction, Failed) then Lookup(table, SecretDetected, Quarantine)
    else if Has(checks, OutputHashPresent, Failed) then Lookup(table, OutputHashMissing, Reject)
    else if Has(checks, OutputHashCheck, Failed) || Has(checks, ResultHashCheck, Failed)
    then Lookup(table, HashMismatch, Quarantine)
    else if Has(checks, OutputSchema, Failed) then Lookup(table, SchemaInvalid, Retry)
    else if Has(checks, PolicyLinkage, Failed) then Quarantine
    else
      var task := TaskRecommendation(table, checks);
      if task.Some? then task.value else Accept
  }

  /////// No failing check falls through

  predicate Clean(c: Check) { c.status == Passed || c.status == Skipped }

  ghost predicate AllClean(checks: seq<Check>) { forall c :: c in checks ==> Clean(c) }

  /** The outcomes `Recommend` looks at. */
  predicate Handled(c: Check) {
    match c.status
    case Passed => true
    case Skipped => true
    case Failed =>
      && !c.name.ResultEnvelopeIntegrity?
      && !c.name.RecipeKnown?
      && !c.name.DedupOvermerge?
      && !c.name.TopicConfidence?
      && !c.name.TopicClassification?
      && !c.name.ClaimExtraction?
      && !c.name.WebpagePromptInjection?
      && !c.name.WebpageExtraction?
    case NeedsReview =>
      c.name.UrlStatus? || c.name.DedupOvermerge? || c.name.TopicConfidence? || c.name.WebpagePromptInjection?
  }

  predicate NeverAccepts(table: map<Key, Recommendation>) { forall k :: k in table ==> table[k] != Accept }

  lemma LookupNeverAccepts(table: map<Key, Recommendation>)
    requires NeverAccepts(table)
    ensures forall k, d :: d != Accept ==> Lookup(table, k, d) != Accept
  {
  }

  /** A handled failure or warning is never recommended for acceptance. */
  lemma AcceptMeansClean(table: map<Key, Recommendation>, checks: seq<Check>)
    requires NeverAccepts(table) && forall c :: c in checks ==> Handled(c)
    ensures Recommend(table, checks) == Accept <==> AllClean(checks)
  {
    LookupNeverAccepts(table);
    if Recommend(table, checks) == Accept {
      forall c | c in checks ensures Clean(c) {
        if !Clean(c) { DirtyIsSeen(table, checks, c); }
      }
    }
  }

  lemma DirtyIsSeen(table: map<Key, Recommendation>, checks: seq<Check>, c: Check)
    requires c in checks && Handled(c) && !Clean(c) && NeverAccepts(table)
    ensures Recommend(table, checks) != Accept
  {
    LookupNeverAccepts(table);
    assert Has(checks, c.name, c.status);
  }

  predicate NamedIds(env: Envelope) {
    env.id.text != "" && env.workUnit.text != "" && env.attempt.text != "" && env.assignment.text != ""
  }

  /** Checks a claim loop can produce. */
  predicate ClaimFailure(c: Check) {
    && c.status == Failed
    && (|| c.name.ClaimText?
        || c.name.ClaimEntity?
        || c.name.ClaimTypeEnum?
        || c.name.ClaimConfidenceRange?
        || c.name.ClaimSourceRef?
        || c.name.ClaimEvidenceHint?)
  }

  lemma {:induction false} FlatIn(parts: seq<seq<Check>>)
    ensures forall c :: c in Flat(parts) ==> exists i :: 0 <= i < |parts| && c in parts[i]
  {
    if parts != [] {
      var init := parts[..|parts| - 1];
      FlatIn(init);
      forall c | c in Flat(init) ensures exists i :: 0 <= i < |parts| && c in parts[i] {
        var i :| 0 <= i < |init| && c in init[i];
        assert c in parts[i];
      }
    }
  }

  ghost predicate OnlyClaimFailures(s: seq<Check>) { forall c :: c in s ==> ClaimFailure(c) }

  lemma JoinFailures(s: seq<Check>, t: seq<Check>)
    requires OnlyClaimFailures(s) && OnlyClaimFailures(t)
    ensures OnlyClaimFailures(s + t)
  {
  }

  lemma OneClaimHandled(o: seq<Member>, claim: Json)
    ensures OnlyClaimFailures(ClaimFailures(o, claim))
  {
    if claim.Obj? {
      var c := claim.members;
      var text, entity := FailIf(!NonEmptyText(ClaimTextOf(c)), ClaimText),
        FailIf(!Truthy(Attr(c, "entity")), ClaimEntity);
      var kind, range := FailIf(BadType(o, c), ClaimTypeEnum),
        FailIf(!UnitInterval(Attr(c, "confidence")), ClaimConfidenceRange);
      var refs, hint := FailIf(BadRefs(o, c), ClaimSourceRef),
        FailIf(!NonEmptyText(Attr(c, "evidence_hint")), ClaimEvidenceHint);
      JoinFailures(text, entity);
      JoinFailures(text + entity, kind);
      JoinFailures(text + entity + kind, range);
      JoinFailures(text + entity + kind + range, refs);
      JoinFailures(text + entity + kind + range + refs, hint);
    }
  }

  lemma ClaimFailuresHandled(o: seq<Member>, claims: seq<Json>)
    ensures forall c :: c in AllClaimFailures(o, claims) ==> ClaimFailure(c)
  {
    FlatIn(PerClaim(o, claims));
    forall i | 0 <= i < |claims| ensures OnlyClaimFailures(PerClaim(o, claims)[i]) { OneClaimHandled(o, claims[i]); }
  }

  lemma TaskChecksHandled(recipe: RecipeId, output: Json)
    requires recipe != OtherRecipe
    ensures forall c :: c in TaskChecks(recipe, output) ==> Handled(c)
  {
    var claims := Attr(Members(output), "claims");
    if recipe == ClaimExtractionV0 && claims.List? { ClaimFailuresHandled(Members(output), claims.items); }
  }

  lemma ChecksHandled(recipe: RecipeId, env: Envelope, ev: Evidence)
    requires recipe != OtherRecipe && NamedIds(env)
    ensures forall c :: c in AllChecks(recipe, env, ev) ==> Handled(c)
  {
    TaskChecksHandled(recipe, env.output);
    CommonSplit(recipe, env, ev);
  }

  lemma CommonSplit(recipe: RecipeId, env: Envelope, ev: Evidence)
    ensures forall c :: c in AllChecks(recipe, env, ev) <==>
              || c in CheckIntegrity(env)
              || c in CheckHashes(env)
              || c in CheckPolicyLinkage(env, ev.policy)
              || c in CheckSecrets(ev.secretFound)
              || c in CheckSchema(ev.schemaAccepts)
              || c in TaskChecks(recipe, env.output)
  {
  }

  /** Main result: for the five recipes, named ids and a table that never maps a failure or
      warning to accept, accept means exactly that every check passed or was skipped. */
  lemma NoFailureFallsThrough(recipe: RecipeId, env: Envelope, ev: Evidence, table: map<Key, Recommendation>)
    requires recipe != OtherRecipe && NamedIds(env) && NeverAccepts(table)
    ensures Recommend(table, AllChecks(recipe, env, ev)) == Accept <==> AllClean(AllChecks(recipe, env, ev))
  {
    ChecksHandled(recipe, env, ev);
    AcceptMeansClean(table, AllChecks(recipe, env, ev));
  }

  /** The two outcomes no branch looks at. */
  predicate Overlooked(c: Check) { c.status == Failed && (c.name.RecipeKnown? || c.name.ResultEnvelopeIntegrity?) }

  lemma OverlookedAbsent(checks: seq<Check>)
    requires forall c :: c in checks ==> Clean(c) || Overlooked(c)
    ensures forall name :: !Has(checks, name, NeedsReview)
    ensures forall name: CheckName :: !(name.RecipeKnown? || name.ResultEnvelopeIntegrity?) ==>
              !Has(checks, name, Failed)
  {
  }

  lemma OverlookedTask(table: map<Key, Recommendation>, checks: seq<Check>)
    requires forall c :: c in checks ==> Clean(c) || Overlooked(c)
    ensures TaskRecommendation(table, checks) == None
  {
    OverlookedAbsent(checks);
  }

  lemma OverlookedAccepted(table: map<Key, Recommendation>, checks: seq<Check>)
    requires forall c :: c in checks ==> Clean(c) || Overlooked(c)
    ensures Recommend(table, checks) == Accept
  {
    OverlookedTask(table, checks);
    OverlookedAbsent(checks);
  }

  lemma ChecksHandledOrOverlooked(recipe: RecipeId, env: Envelope, ev: Evidence)
    ensures forall c :: c in AllChecks(recipe, env, ev) ==> Handled(c) || Overlooked(c)
  {
    if recipe != OtherRecipe { TaskChecksHandled(recipe, env.output); }
    CommonSplit(recipe, env, ev);
  }

  /** Without any condition on recipe or ids: accept means exactly that nothing is wrong, apart
      from an unknown recipe and an empty id, which fail a check nobody looks at. */
  lemma AcceptExactly(recipe: RecipeId, env: Envelope, ev: Evidence, table: map<Key, Recommendation>)
    requires NeverAccepts(table)
    ensures Recommend(table, AllChecks(recipe, env, ev)) == Accept <==>
              forall c :: c in AllChecks(recipe, env, ev) ==> Clean(c) || Overlooked(c)
  {
    var checks := AllChecks(recipe, env, ev);
    ChecksHandledOrOverlooked(recipe, env, ev);
    if Recommend(table, checks) == Accept {
      forall c | c in checks ensures Clean(c) || Overlooked(c) {
        if !Clean(c) && Handled(c) { DirtyIsSeen(table, checks, c); }
      }
    } else if forall c :: c in checks ==> Clean(c) || Overlooked(c) {
      OverlookedAccepted(table, checks);
    }
  }

  /////// What accept says about the result itself

  /** The list holds this non-empty text; what else it holds does not matter. */
  ghost predicate Lists(v: Json, t: string) { v.List? && t != "" && Str(t) in v.items }

  ghost predicate ListsAny(v: Json) { exists t :: Lists(v, t) }

  /** One of the five types, and one the output allows if it allows any of the five. */
  ghost predicate GoodType(o: seq<Member>, kind: Json) {
    var allowed := Attr(o, "allowed_claim_types");
    && kind.Str? && kind.s in ["factual", "metric", "policy", "product", "other"]
    && (Lists(allowed, kind.s) || forall t :: t in ALLOWED_CLAIM_TYPES ==> !Lists(allowed, t))
  }

  /** The claim refers to this source: among its refs, or in its single ref if it lists none. */
  ghost predicate RefersTo(c: seq<Member>, r: string) {
    if ListsAny(Attr(c, "source_post_refs")) then Lists(Attr(c, "source_post_refs"), r)
    else r != "" && Attr(c, "source_ref") == Str(r)
  }

  ghost predicate KnownSource(o: seq<Member>, r: string) {
    if ListsAny(Attr(o, "source_ids")) then Lists(Attr(o, "source_ids"), r) else "src_" <= r || "fixture_" <= r
  }

  ghost predicate GoodRefs(o: seq<Member>, c: seq<Member>) {
    (exists r :: RefersTo(c, r)) && forall r :: RefersTo(c, r) ==> KnownSource(o, r)
  }

  ghost predicate GoodText(c: seq<Member>) {
    || NonEmptyText(Attr(c, "claim_text"))
    || (!Truthy(Attr(c, "claim_text")) && NonEmptyText(Attr(c, "text")))
  }

  /** A claim as the recipe wants it. */
  ghost predicate GoodClaim(o: seq<Member>, claim: Json) {
    && claim.Obj?
    && var c := claim.members;
    && GoodText(c) && Truthy(Attr(c, "entity")) && NonEmptyText(Attr(c, "evidence_hint"))
    && GoodType(o, Attr(c, "claim_type")) && Confident(Attr(c, "confidence"), 0.0) && GoodRefs(o, c)
  }

  lemma {:induction false} NonEmptyIn(items: seq<Json>, t: string)
    ensures t in NonEmptyStrings(items) <==> t != "" && Str(t) in items
  {
    if items != [] {
      NonEmptyIn(items[1..], t);
      assert items == [items[0]] + items[1..];
    }
  }

  lemma StringsIn(v: Json, t: string)
    ensures t in StringsOf(v) <==> Lists(v, t)
  {
    if v.List? { NonEmptyIn(v.items, t); }
  }

  lemma StringsAny(v: Json)
    ensures StringsOf(v) != [] <==> ListsAny(v)
  {
    if StringsOf(v) != [] {
      assert StringsOf(v)[0] in StringsOf(v);
      StringsIn(v, StringsOf(v)[0]);
    }
    if t :| Lists(v, t) { StringsIn(v, t); }
  }

  lemma TypeIff(o: seq<Member>, c: seq<Member>)
    ensures BadType(o, c) <==> !GoodType(o, Attr(c, "claim_type"))
  {
    var allowed := Attr(o, "allowed_claim_types");
    forall t ensures t in StringsOf(allowed) <==> Lists(allowed, t) { StringsIn(allowed, t); }
  }

  lemma RefsIn(c: seq<Member>, r: string)
    ensures r in SourceRefs(c) <==> RefersTo(c, r)
  {
    StringsAny(Attr(c, "source_post_refs"));
    StringsIn(Attr(c, "source_post_refs"), r);
  }

  lemma RefsIff(o: seq<Member>, c: seq<Member>)
    ensures BadRefs(o, c) <==> !GoodRefs(o, c)
  {
    var refs, ids := SourceRefs(c), Attr(o, "source_ids");
    forall r ensures r in refs <==> RefersTo(c, r) { RefsIn(c, r); }
    StringsAny(ids);
    forall r ensures r in StringsOf(ids) <==> Lists(ids, r) { StringsIn(ids, r); }
    if refs != [] { assert refs[0] in refs; }
  }

  lemma ClaimCleanIffGood(o: seq<Member>, claim: Json)
    ensures ClaimFailures(o, claim) == [] <==> GoodClaim(o, claim)
  {
    if claim.Obj? {
      var c := claim.members;
      assert BadType(o, c) <==> !GoodType(o, Attr(c, "claim_type")) by { TypeIff(o, c); }
      assert BadRefs(o, c) <==> !GoodRefs(o, c) by { RefsIff(o, c); }
      assert NonEmptyText(ClaimTextOf(c)) <==> GoodText(c);
      assert UnitInterval(Attr(c, "confidence")) <==> Confident(Attr(c, "confidence"), 0.0);
      NothingFails(!NonEmptyText(ClaimTextOf(c)), !Truthy(Attr(c, "entity")), BadType(o, c),
                   !UnitInterval(Attr(c, "confidence")), BadRefs(o, c), !NonEmptyText(Attr(c, "evidence_hint")));
    }
  }

  lemma NothingFails(text: bool, entity: bool, kind: bool, range: bool, refs: bool, hint: bool)
    ensures FailIf(text, ClaimText) + FailIf(entity, ClaimEntity) + FailIf(kind, ClaimTypeEnum)
            + FailIf(range, ClaimConfidenceRange) + FailIf(refs, ClaimSourceRef) + FailIf(hint, ClaimEvidenceHint) == []
            <==> !text && !entity && !kind && !range && !refs && !hint
  {
  }

  lemma {:induction false} FlatEmpty(parts: seq<seq<Check>>)
    ensures Flat(parts) == [] <==> forall i :: 0 <= i < |parts| ==> parts[i] == []
  {
    if parts != [] {
      var init := parts[..|parts| - 1];
      FlatEmpty(init);
      assert forall i :: 0 <= i < |init| ==> init[i] == parts[i];
      assert |Flat(parts)| == |Flat(init)| + |parts[|parts| - 1]|;
    }
  }

  lemma ClaimsCleanIffGood(o: seq<Member>, claims: seq<Json>)
    ensures AllClaimFailures(o, claims) == [] <==> forall claim :: claim in claims ==> GoodClaim(o, claim)
  {
    var parts := PerClaim(o, claims);
    FlatEmpty(parts);
    forall i | 0 <= i < |claims| ensures parts[i] == [] <==> GoodClaim(o, claims[i]) {
      ClaimCleanIffGood(o, claims[i]);
    }
    EachIffAll(o, claims, parts);
  }

  lemma EachIffAll(o: seq<Member>, claims: seq<Json>, parts: seq<seq<Check>>)
    requires |parts| == |claims| && forall i :: 0 <= i < |claims| ==> (parts[i] == [] <==> GoodClaim(o, claims[i]))
    ensures (forall i :: 0 <= i < |parts| ==> parts[i] == []) <==> forall claim :: claim in claims ==>
              GoodClaim(o, claim)
  {
  }

  /** If labels are listed, one of them equals the label. */
  ghost predicate GoodLabel(o: seq<Member>) {
    match Attr(o, "allowed_labels")
    case List(labels) => exists l :: l in labels && PyEq(Attr(o, "label"), l)
    case _ => true
  }

  /** A number, and no bool, from `least` to one. */
  ghost predicate Confident(v: Json, least: real) {
    match v
    case Int(i) => (i == 0 && least <= 0.0) || i == 1
    case Float(f) => 0.0 <= f <= 1.0 && least <= f
    case _ => false
  }

  lemma LabelIff(o: seq<Member>)
    ensures LabelAllowed(o) <==> GoodLabel(o)
  {
    var labels := Attr(o, "allowed_labels");
    if labels.List? && GoodLabel(o) {
      var l :| l in labels.items && PyEq(Attr(o, "label"), l);
      var i :| 0 <= i < |labels.items| && labels.items[i] == l;
    }
  }

  /** What each recipe demands of an output, without mentioning checks. */
  ghost predicate TaskGood(recipe: RecipeId, output: Json) {
    var o := Members(output);
    match recipe
    case UrlCheckV0 =>
      && !Truthy(Attr(o, "private_ip_denied")) && !Truthy(Attr(o, "redirect_denied")) && !Truthy(Attr(o, "timed_out"))
      && var code := Attr(o, "status_code");
         (code == Null && Attr(o, "ok") == Bool(true)) || (code.Int? && 200 <= code.i < 300)
    case DedupV0 =>
      && !Truthy(Attr(o, "overmerge_detected")) && Get(o, "unique_items").Some?
      && (Attr(o, "duplicate_count").Int? || Attr(o, "duplicate_count").Bool?)
    case TopicClassificationV0 =>
      GoodLabel(o) && Confident(Attr(o, "confidence"), 0.0) && Confident(Attr(o, "confidence"), 0.65)
    case ClaimExtractionV0 =>
      && Attr(o, "claims").List? && Attr(o, "claims").items != []
      && forall claim :: claim in Attr(o, "claims").items ==> GoodClaim(o, claim)
    case WebpageExtractionV0 =>
      Attr(o, "extracted").Obj? && Attr(o, "extracted").members != [] && !Truthy(Attr(o, "prompt_injection_detected"))
    case OtherRecipe => false
  }

  lemma TaskCleanIffGood(recipe: RecipeId, output: Json)
    ensures AllClean(TaskChecks(recipe, output)) <==> TaskGood(recipe, output)
  {
    var o := Members(output);
    var claims := Attr(o, "claims");
    LabelIff(o);
    if recipe == ClaimExtractionV0 && claims.List? && claims.items != [] {
      ClaimsCleanIffGood(o, claims.items);
      ClaimFailuresHandled(o, claims.items);
      var failures := AllClaimFailures(o, claims.items);
      if failures != [] { assert failures[0] in failures && ClaimFailure(failures[0]); }
    } else {
      SingleCheck(recipe, output);
    }
  }

  lemma SingleCheck(recipe: RecipeId, output: Json)
    requires recipe == ClaimExtractionV0 ==>
               !(Attr(Members(output), "claims").List? && Attr(Members(output), "claims").items != [])
    ensures |TaskChecks(recipe, output)| == 1
    ensures AllClean(TaskChecks(recipe, output)) <==> Clean(TaskChecks(recipe, output)[0])
  {
    assert TaskChecks(recipe, output)[0] in TaskChecks(recipe, output);
  }

  /** The policy decision, when there is one, approves this work unit. */
  predicate PolicyApproves(env: Envelope, policy: Option<Policy>) {
    policy.Some? ==> policy.value == Policy(Some(env.workUnit), Some("approved"))
  }

  /** Main result, in terms of the result itself and for any recipe: accept means exactly that both
      hashes recompute, the policy approves, no secret, schema satisfied if any, and the task's
      own demands are met if the recipe is one of the five. An unknown recipe demands nothing. */
  lemma AcceptedMeansSound(recipe: RecipeId, env: Envelope, ev: Evidence, table: map<Key, Recommendation>)
    requires NeverAccepts(table)
    ensures Recommend(table, AllChecks(recipe, env, ev)) == Accept <==>
              && OutputHashValid(env) && ResultHashValid(env) && PolicyApproves(env, ev.policy)
              && !ev.secretFound && ev.schemaAccepts != Some(false)
              && (recipe != OtherRecipe ==> TaskGood(recipe, env.output))
  {
    AcceptExactly(recipe, env, ev, table);
    CommonSplit(recipe, env, ev);
    CommonTolerable(env, ev);
    TaskTolerable(recipe, env.output);
    var all := AllChecks(recipe, env, ev);
    assert Tolerable(all) <==>
      && Tolerable(CheckIntegrity(env)) && Tolerable(CheckHashes(env)) && Tolerable(CheckPolicyLinkage(env, ev.policy))
      && Tolerable(CheckSecrets(ev.secretFound)) && Tolerable(CheckSchema(ev.schemaAccepts))
      && Tolerable(TaskChecks(recipe, env.output));
  }

  ghost predicate Tolerable(checks: seq<Check>) { forall c :: c in checks ==> Clean(c) || Overlooked(c) }

  lemma TaskTolerable(recipe: RecipeId, output: Json)
    ensures Tolerable(TaskChecks(recipe, output)) <==> (recipe != OtherRecipe ==> TaskGood(recipe, output))
  {
    if recipe != OtherRecipe {
      TaskChecksNamed(recipe, output);
      assert Tolerable(TaskChecks(recipe, output)) <==> AllClean(TaskChecks(recipe, output));
      TaskCleanIffGood(recipe, output);
    }
  }

  /** The five recipes' own checks are none of the overlooked ones. */
  lemma TaskChecksNamed(recipe: RecipeId, output: Json)
    requires recipe != OtherRecipe
    ensures forall c :: c in TaskChecks(recipe, output) ==> !Overlooked(c)
  {
    TaskChecksHandled(recipe, output);
  }

  lemma CommonTolerable(env: Envelope, ev: Evidence)
    ensures Tolerable(CheckIntegrity(env))
    ensures Tolerable(CheckHashes(env)) <==> OutputHashValid(env) && ResultHashValid(env)
    ensures Tolerable(CheckPolicyLinkage(env, ev.policy)) <==> PolicyApproves(env, ev.policy)
    ensures Tolerable(CheckSecrets(ev.secretFound)) <==> !ev.secretFound
    ensures Tolerable(CheckSchema(ev.schemaAccepts)) <==> ev.schemaAccepts != Some(false)
  {
    HashesClean(env);
    assert Tolerable(CheckHashes(env)) <==> AllClean(CheckHashes(env));
    assert CheckPolicyLinkage(env, ev.policy)[0] in CheckPolicyLinkage(env, ev.policy);
    assert CheckSecrets(ev.secretFound)[0] in CheckSecrets(ev.secretFound);
    assert CheckSchema(ev.schemaAccepts)[0] in CheckSchema(ev.schemaAccepts);
  }

  /** It does happen: any output of a known backend class, under an unknown recipe and with no
      further evidence, is recommended for acceptance although its task check failed. */
  lemma UnknownRecipeAccepted(ctx: Context, id: Id, output: Json, usage: seq<Id>, errors: seq<string>)
    requires ctx.backendClass in KNOWN_BACKEND_CLASSES
    ensures var env := BuildEnvelope(ctx, id, output, usage, ResultSucceeded, errors);
            var checks := AllChecks(OtherRecipe, env, Evidence(None, false, None));
            Check(RecipeKnown, Failed) in checks && Recommend(map[], checks) == Accept
  {
    var env := BuildEnvelope(ctx, id, output, usage, ResultSucceeded, errors);
    AcceptedMeansSound(OtherRecipe, env, Evidence(None, false, None), map[]);
    CommonSplit(OtherRecipe, env, Evidence(None, false, None));
  }

  /////// From adapter through submit to verdict

  /** The envelope as the database holds it after a submit. */
  ghost function StoredEnvelope(out: S.Outcome, before: S.Db, env: Envelope): Envelope
    requires out.Committed? && |out.db.results| > |before.results|
  {
    env.(status := out.db.results[|before.results|].status)
  }

  /** An envelope the adapter built, once stored, passes both hash checks exactly when its
      backend class is known and the submit was not late, unless it was quarantined anyway. */
  lemma StoredEnvelopeChecks(db: S.Db, a: Id, worker: Id, cred: S.Credential, freshId: Id,
                             ctx: Context, id: Id, output: Json, usage: seq<Id>, status: ResultStatus,
                               errors: seq<string>)
    requires S.Submit(db, a, worker, cred, output, Some(BuildEnvelope(ctx, id, output, usage, status, errors)),
                      freshId).Committed?
    ensures var env := BuildEnvelope(ctx, id, output, usage, status, errors);
            var out := S.Submit(db, a, worker, cred, output, Some(env), freshId);
            && |out.db.results| > |db.results|
            && (AllClean(CheckHashes(StoredEnvelope(out, db, env))) <==>
                  ctx.backendClass in KNOWN_BACKEND_CLASSES
                    && (S.Late(db, db.assignments[a].attempt) ==> status == ResultQuarantined))
  {
    var env := BuildEnvelope(ctx, id, output, usage, status, errors);
    var out := S.Submit(db, a, worker, cred, output, Some(env), freshId);
    var row := out.db.results[|db.results|];
    assert row.status == if S.Late(db, db.assignments[a].attempt) then ResultQuarantined else status;
    var stored := StoredEnvelope(out, db, env);
    HashesClean(stored);
  }

  lemma HashesClean(env: Envelope)
    ensures AllClean(CheckHashes(env)) <==> OutputHashValid(env) && ResultHashValid(env)
  {
    assert CheckHashes(env)[0] in CheckHashes(env);
    if |CheckHashes(env)| == 2 { assert CheckHashes(env)[1] in CheckHashes(env); }
  }

  /** So the verifier never recommends accepting what a late submit rewrote, nor the work of an
      unknown backend class, whatever the recipe, the ids and the evidence. */
  lemma LateNeverAccepted(db: S.Db, a: Id, worker: Id, cred: S.Credential, freshId: Id,
                          ctx: Context, id: Id, output: Json, usage: seq<Id>, status: ResultStatus, errors: seq<string>,
                          recipe: RecipeId, ev: Evidence, table: map<Key, Recommendation>)
    requires S.Submit(db, a, worker, cred, output, Some(BuildEnvelope(ctx, id, output, usage, status, errors)),
                      freshId).Committed?
    requires NeverAccepts(table)
    requires ctx.backendClass !in KNOWN_BACKEND_CLASSES
             || (S.Late(db, db.assignments[a].attempt) && status != ResultQuarantined)
    ensures var env := BuildEnvelope(ctx, id, output, usage, status, errors);
            var out := S.Submit(db, a, worker, cred, output, Some(env), freshId);
            && |out.db.results| > |db.results|
            && Recommend(table, AllChecks(recipe, StoredEnvelope(out, db, env), ev)) != Accept
  {
    StoredEnvelopeChecks(db, a, worker, cred, freshId, ctx, id, output, usage, status, errors);
    var env := BuildEnvelope(ctx, id, output, usage, status, errors);
    BadHashRefused(StoredEnvelope(S.Submit(db, a, worker, cred, output, Some(env), freshId), db, env), recipe, ev,
                   table);
  }

  lemma BadHashRefused(env: Envelope, recipe: RecipeId, ev: Evidence, table: map<Key, Recommendation>)
    requires NeverAccepts(table) && !AllClean(CheckHashes(env))
    ensures Recommend(table, AllChecks(recipe, env, ev)) != Accept
  {
    CommonSplit(recipe, env, ev);
    var c :| c in CheckHashes(env) && !Clean(c);
    DirtyIsSeen(table, AllChecks(recipe, env, ev), c);
  }
}
