// The verifier's verdict, said without checks: which fault of the result decides,
// and under which key of the recipe's table.

module Verdicts {
  import opened Common
  import opened Hashes
  import opened Envelopes
  import opened Verifier
  import S = Scheduler
  import I = Integrity
  import F = Fencing
  import R = Refusals

  /** What decides: a key of the table with the answer it has by default, or a fixed answer. */
  datatype Cause = Keyed(key: Key, default: Recommendation) | Always(answer: Recommendation)

  /** The faults of a result in the order in which they decide. */
  ghost function CauseOf(recipe: RecipeId, env: Envelope, ev: Evidence): Option<Cause> {
    if ev.secretFound then Some(Keyed(SecretDetected, Quarantine))
    else if env.outputHash == ForeignText("") then Some(Keyed(OutputHashMissing, Reject))
    else if !OutputHashValid(env) || !ResultHashValid(env) then Some(Keyed(HashMismatch, Quarantine))
    else if ev.schemaAccepts == Some(false) then Some(Keyed(SchemaInvalid, Retry))
    else if !PolicyApproves(env, ev.policy) then Some(Always(Quarantine))
    else TaskCause(recipe, Members(env.output))
  }

  ghost function TaskCause(recipe: RecipeId, o: seq<Member>): Option<Cause> {
    match recipe
    case UrlCheckV0 => UrlCause(o)
    case DedupV0 =>
      if Truthy(Attr(o, "overmerge_detected")) then Some(Keyed(Overmerge, AcceptWithWarning))
      else if Get(o, "unique_items").None? then Some(Keyed(DefaultFailure, Reject))
      else if !Attr(o, "duplicate_count").Int? && !Attr(o, "duplicate_count").Bool? then
        Some(Keyed(DefaultFailure, Reject))
      else None
    case TopicClassificationV0 =>
      if !GoodLabel(o) then Some(Keyed(LabelNotEnum, Retry))
      else if !Confident(Attr(o, "confidence"), 0.0) then Some(Keyed(SchemaInvalid, Retry))
      else if !Confident(Attr(o, "confidence"), 0.65) then Some(Keyed(LowConfidence, AcceptWithWarning))
      else None
    case ClaimExtractionV0 =>
      if !Attr(o, "claims").List? || Attr(o, "claims").items == [] then Some(Keyed(MissingEntity, Retry))
      else ClaimCause(o, Attr(o, "claims").items)
    case WebpageExtractionV0 =>
      if !Attr(o, "extracted").Obj? || Attr(o, "extracted").members == [] then Some(Keyed(EmptyPage, Verifier.Fallback))
      else if Truthy(Attr(o, "prompt_injection_detected")) then Some(Keyed(PromptInjection, AcceptWithWarning))
      else None
    case OtherRecipe => None
  }

  ghost function UrlCause(o: seq<Member>): Option<Cause> {
    if Truthy(Attr(o, "private_ip_denied")) || Truthy(Attr(o, "redirect_denied")) then
      Some(Keyed(PrivateIpOrRedirect, Quarantine))
    else if Truthy(Attr(o, "timed_out")) then Some(Keyed(Timeout, Retry))
    else
      match Attr(o, "status_code")
      case Null => if Attr(o, "ok") == Bool(true) then None else Some(Keyed(DefaultFailure, Reject))
      case Int(code) =>
        if code / 100 == 2 then None
        else if code / 100 == 4 then Some(Keyed(Http4xx, AcceptWithWarning))
        else Some(Keyed(DefaultFailure, Reject))
      case _ => Some(Keyed(DefaultFailure, Reject))
  }

  /** Unknown sources first, then missing entities, then whatever else is wrong with any claim. */
  ghost function ClaimCause(o: seq<Member>, claims: seq<Json>): Option<Cause> {
    if exists claim :: claim in claims && claim.Obj? && !GoodRefs(o, claim.members) then
      Some(Keyed(MissingSourceRef, Verifier.Fallback))
    else if exists claim :: claim in claims && (!claim.Obj? || !Truthy(Attr(claim.members, "entity"))) then
      Some(Keyed(MissingEntity, Retry))
    else if exists claim :: claim in claims && !GoodClaim(o, claim) then Some(Keyed(SchemaInvalid, Retry))
    else None
  }

  /** The answer a table gives to a cause. */
  ghost function Answer(table: map<Key, Recommendation>, cause: Option<Cause>): Recommendation {
    match cause
    case None => Accept
    case Some(Keyed(key, default)) => if key in table then table[key] else default
    case Some(Always(answer)) => answer
  }

  /////// The task checks decide the task's cause

  lemma {:induction false} InFlat(parts: seq<seq<Check>>, c: Check)
    ensures c in Flat(parts) <==> exists i :: 0 <= i < |parts| && c in parts[i]
  {
    if parts != [] {
      var init, last := parts[..|parts| - 1], parts[|parts| - 1];
      InFlat(init, c);
      if c in Flat(init) {
        var i :| 0 <= i < |init| && c in init[i];
        assert c in parts[i];
      } else if c in last {
        assert c in parts[|parts| - 1];
      }
      if i :| 0 <= i < |parts| && c in parts[i] { assert i < |init| ==> c in init[i]; }
    }
  }

  lemma FailedIn(o: seq<Member>, claims: seq<Json>, name: CheckName)
    ensures Has(AllClaimFailures(o, claims), name, Failed) <==>
              exists claim :: claim in claims && Has(ClaimFailures(o, claim), name, Failed)
  {
    var parts := PerClaim(o, claims);
    InFlat(parts, Check(name, Failed));
    if i :| 0 <= i < |parts| && Check(name, Failed) in parts[i] { assert claims[i] in claims; }
    if claim :| claim in claims && Has(ClaimFailures(o, claim), name, Failed) {
      var i :| 0 <= i < |claims| && claims[i] == claim;
      assert Check(name, Failed) in parts[i];
    }
  }

  /** Which failures one claim contributes. */
  lemma ClaimHas(o: seq<Member>, claim: Json)
    ensures Has(ClaimFailures(o, claim), ClaimSourceRef, Failed) <==> claim.Obj? && !GoodRefs(o, claim.members)
    ensures Has(ClaimFailures(o, claim), ClaimEntity, Failed) <==>
              !claim.Obj? || !Truthy(Attr(claim.members, "entity"))
    ensures ClaimFailures(o, claim) == [] <==> GoodClaim(o, claim)
  {
    ClaimCleanIffGood(o, claim);
    if claim.Obj? { RefsIff(o, claim.members); }
  }

  lemma SomeBadRefs(o: seq<Member>, claims: seq<Json>)
    ensures Has(AllClaimFailures(o, claims), ClaimSourceRef, Failed) <==>
              exists claim :: claim in claims && claim.Obj? && !GoodRefs(o, claim.members)
  {
    FailedIn(o, claims, ClaimSourceRef);
    forall claim
      ensures Has(ClaimFailures(o, claim), ClaimSourceRef, Failed) <==> claim.Obj? && !GoodRefs(o, claim.members)
    {
      ClaimHas(o, claim);
    }
  }

  lemma SomeWithoutEntity(o: seq<Member>, claims: seq<Json>)
    ensures Has(AllClaimFailures(o, claims), ClaimEntity, Failed) <==>
              exists claim :: claim in claims && (!claim.Obj? || !Truthy(Attr(claim.members, "entity")))
  {
    FailedIn(o, claims, ClaimEntity);
    forall claim
      ensures Has(ClaimFailures(o, claim), ClaimEntity, Failed) <==>
                !claim.Obj? || !Truthy(Attr(claim.members, "entity"))
    {
      ClaimHas(o, claim);
    }
  }

  /** The cause read off the failures of a claim list. */
  ghost function FailuresCause(failures: seq<Check>): Option<Cause> {
    if failures == [] then None
    else if Has(failures, ClaimSourceRef, Failed) then Some(Keyed(MissingSourceRef, Verifier.Fallback))
    else if Has(failures, ClaimEntity, Failed) then Some(Keyed(MissingEntity, Retry))
    else Some(Keyed(SchemaInvalid, Retry))
  }

  lemma ClaimsCause(o: seq<Member>, claims: seq<Json>)
    ensures ClaimCause(o, claims) == FailuresCause(AllClaimFailures(o, claims))
  {
    ClaimsCleanIffGood(o, claims);
    SomeBadRefs(o, claims);
    SomeWithoutEntity(o, claims);
  }

  /** What the verdict's task branch says of these checks. */
  ghost predicate Decides(table: map<Key, Recommendation>, checks: seq<Check>, cause: Option<Cause>) {
    match TaskRecommendation(table, checks)
    case None => cause == None
    case Some(answer) => cause.Some? && cause.value.Keyed? && answer == Answer(table, cause)
  }

  lemma FailuresDecide(table: map<Key, Recommendation>, failures: seq<Check>)
    requires failures != [] && OnlyClaimFailures(failures)
    ensures Decides(table, failures, FailuresCause(failures))
  {
    assert failures[0] in failures && ClaimFailure(failures[0]);
    assert Has(failures, failures[0].name, Failed);
  }

  lemma OnlyCheck(c: Check)
    ensures forall name, status :: Has([c], name, status) <==> c == Check(name, status)
  {
  }

  lemma UrlDecides(table: map<Key, Recommendation>, o: seq<Member>)
    ensures Decides(table, UrlCheck(o), UrlCause(o))
  {
    OnlyCheck(UrlCheck(o)[0]);
    assert UrlCheck(o) == [UrlCheck(o)[0]];
  }

  lemma DedupDecides(table: map<Key, Recommendation>, o: seq<Member>)
    ensures Decides(table, DedupCheck(o), TaskCause(DedupV0, o))
  {
    OnlyCheck(DedupCheck(o)[0]);
    assert DedupCheck(o) == [DedupCheck(o)[0]];
  }

  lemma TopicDecides(table: map<Key, Recommendation>, o: seq<Member>)
    ensures Decides(table, TopicCheck(o), TaskCause(TopicClassificationV0, o))
  {
    LabelIff(o);
    OnlyCheck(TopicCheck(o)[0]);
    assert TopicCheck(o) == [TopicCheck(o)[0]];
  }

  lemma WebpageDecides(table: map<Key, Recommendation>, o: seq<Member>)
    ensures Decides(table, WebpageCheck(o), TaskCause(WebpageExtractionV0, o))
  {
    OnlyCheck(WebpageCheck(o)[0]);
    assert WebpageCheck(o) == [WebpageCheck(o)[0]];
  }

  lemma ClaimDecides(table: map<Key, Recommendation>, o: seq<Member>)
    ensures Decides(table, ClaimCheck(o), TaskCause(ClaimExtractionV0, o))
  {
    var claims := Attr(o, "claims");
    if !claims.List? || claims.items == [] {
      EntityDecides(table);
    } else {
      var failures := AllClaimFailures(o, claims.items);
      assert TaskCause(ClaimExtractionV0, o) == FailuresCause(failures) by { ClaimsCause(o, claims.items); }
      if failures == [] {
        NothingDecides(table);
      } else {
        assert OnlyClaimFailures(failures) by { ClaimFailuresHandled(o, claims.items); }
        FailuresDecide(table, failures);
      }
    }
  }

  lemma EntityDecides(table: map<Key, Recommendation>)
    ensures Decides(table, [Check(ClaimEntity, Failed)], Some(Keyed(MissingEntity, Retry)))
  {
    OnlyCheck(Check(ClaimEntity, Failed));
  }

  lemma NothingDecides(table: map<Key, Recommendation>)
    ensures Decides(table, [Check(ClaimExtraction, Passed)], None)
  {
    OnlyCheck(Check(ClaimExtraction, Passed));
  }

  lemma TaskDecides(table: map<Key, Recommendation>, recipe: RecipeId, output: Json)
    ensures Decides(table, TaskChecks(recipe, output), TaskCause(recipe, Members(output)))
  {
    var o := Members(output);
    match recipe
    case UrlCheckV0 => UrlDecides(table, o);
    case DedupV0 => DedupDecides(table, o);
    case TopicClassificationV0 => TopicDecides(table, o);
    case ClaimExtractionV0 => ClaimDecides(table, o);
    case WebpageExtractionV0 => WebpageDecides(table, o);
    case OtherRecipe => OnlyCheck(Check(RecipeKnown, Failed));
  }

  /////// The common checks come first

  predicate CommonName(name: CheckName) {
    || name.ResultEnvelopeIntegrity?
    || name.OutputHashPresent?
    || name.OutputHashCheck?
    || name.ResultHashCheck?
    || name.PolicyLinkage?
    || name.SecretRedaction?
    || name.OutputSchema?
  }

  lemma TaskNames(recipe: RecipeId, output: Json)
    ensures forall c :: c in TaskChecks(recipe, output) ==> !CommonName(c.name)
  {
    var claims := Attr(Members(output), "claims");
    if recipe == ClaimExtractionV0 && claims.List? { ClaimFailuresHandled(Members(output), claims.items); }
  }

  function CommonChecks(env: Envelope, ev: Evidence): seq<Check> {
    CheckIntegrity(env) + CheckHashes(env) + CheckPolicyLinkage(env, ev.policy) + CheckSecrets(ev.secretFound)
    + CheckSchema(ev.schemaAccepts)
  }

  lemma CommonNames(env: Envelope, ev: Evidence)
    ensures forall c :: c in CommonChecks(env, ev) ==> CommonName(c.name)
    ensures var checks := CommonChecks(env, ev);
            && (Has(checks, SecretRedaction, Failed) <==> ev.secretFound)
            && (Has(checks, OutputHashPresent, Failed) <==> env.outputHash == ForeignText(""))
            && (Has(checks, OutputSchema, Failed) <==> ev.schemaAccepts == Some(false))
            && (Has(checks, PolicyLinkage, Failed) <==> !PolicyApproves(env, ev.policy))
  {
  }

  /** The two checks nobody looks at, and when they fail. */
  lemma OverlookedExactly(recipe: RecipeId, env: Envelope, ev: Evidence)
    ensures var checks := AllChecks(recipe, env, ev);
            && (Has(checks, ResultEnvelopeIntegrity, Failed) <==>
                  env.id == Id("") || env.workUnit == Id("") || env.attempt == Id("") || env.assignment == Id(""))
            && (Has(checks, RecipeKnown, Failed) <==> recipe == OtherRecipe)
  {
    var common, task := CommonChecks(env, ev), TaskChecks(recipe, env.output);
    assert AllChecks(recipe, env, ev) == common + task;
    assert forall c :: c in common ==> CommonName(c.name) by { CommonNames(env, ev); }
    TaskNames(recipe, env.output);
    IntegrityFails(env, ev);
    RecipeFails(recipe, env.output);
  }

  lemma IntegrityFails(env: Envelope, ev: Evidence)
    ensures Has(CommonChecks(env, ev), ResultEnvelopeIntegrity, Failed) <==>
              env.id == Id("") || env.workUnit == Id("") || env.attempt == Id("") || env.assignment == Id("")
  {
    assert CommonChecks(env, ev)[0] == CheckIntegrity(env)[0];
  }

  lemma RecipeFails(recipe: RecipeId, output: Json)
    ensures Has(TaskChecks(recipe, output), RecipeKnown, Failed) <==> recipe == OtherRecipe
  {
    if recipe != OtherRecipe { TaskChecksHandled(recipe, output); }
    assert TaskChecks(OtherRecipe, output)[0].name == RecipeKnown;
  }

  lemma CommonHashes(env: Envelope, ev: Evidence)
    requires env.outputHash != ForeignText("")
    ensures var checks := CommonChecks(env, ev);
            Has(checks, OutputHashCheck, Failed) || Has(checks, ResultHashCheck, Failed) <==>
              !OutputHashValid(env) || !ResultHashValid(env)
  {
    var checks := CommonChecks(env, ev);
    assert CheckHashes(env)[0] in CheckHashes(env) && CheckHashes(env)[1] in CheckHashes(env);
    assert forall c :: c in CheckHashes(env) ==> c in checks;
  }

  /** A recommendation for the task looks at no common check. */
  lemma TaskPart(table: map<Key, Recommendation>, common: seq<Check>, task: seq<Check>)
    requires forall c :: c in common ==> CommonName(c.name)
    ensures TaskRecommendation(table, common + task) == TaskRecommendation(table, task)
  {
    forall name, status ensures !CommonName(name) ==> (Has(common + task, name, status) <==> Has(task, name, status)) {}
  }

  /** And the common branches look at no task check. */
  lemma CommonPart(table: map<Key, Recommendation>, common: seq<Check>, task: seq<Check>)
    requires forall c :: c in task ==> !CommonName(c.name)
    ensures forall name: CheckName, status: CheckStatus :: CommonName(name) ==>
              (Has(common + task, name, status) <==> Has(common, name, status))
  {
  }

  /** Main result, for every recipe, envelope, evidence and table: the first fault of the result, in
      the order above, decides, and the table or the default answers; without a fault the verdict is
      accept. */
  lemma VerdictExactly(recipe: RecipeId, env: Envelope, ev: Evidence, table: map<Key, Recommendation>)
    ensures Recommend(table, AllChecks(recipe, env, ev)) == Answer(table, CauseOf(recipe, env, ev))
  {
    var common, task := CommonChecks(env, ev), TaskChecks(recipe, env.output);
    assert AllChecks(recipe, env, ev) == common + task;
    CommonNames(env, ev);
    if env.outputHash != ForeignText("") { CommonHashes(env, ev); }
    TaskNames(recipe, env.output);
    CommonPart(table, common, task);
    TaskPart(table, common, task);
    TaskDecides(table, recipe, env.output);
    FirstFault(table, common, task);
  }

  /** Recommend, with its tests read off the two parts. */
  lemma FirstFault(table: map<Key, Recommendation>, common: seq<Check>, task: seq<Check>)
    requires forall name: CheckName, status: CheckStatus :: CommonName(name) ==>
               (Has(common + task, name, status) <==> Has(common, name, status))
    requires TaskRecommendation(table, common + task) == TaskRecommendation(table, task)
    ensures Recommend(table, common + task) ==
            if Has(common, SecretRedaction, Failed) then Answer(table, Some(Keyed(SecretDetected, Quarantine)))
            else if Has(common, OutputHashPresent, Failed) then Answer(table, Some(Keyed(OutputHashMissing, Reject)))
            else if Has(common, OutputHashCheck, Failed) || Has(common, ResultHashCheck, Failed)
            then Answer(table, Some(Keyed(HashMismatch, Quarantine)))
            else if Has(common, OutputSchema, Failed) then Answer(table, Some(Keyed(SchemaInvalid, Retry)))
            else if Has(common, PolicyLinkage, Failed) then Quarantine
            else if TaskRecommendation(table, task).Some? then TaskRecommendation(table, task).value
            else Accept
  {
  }

  /////// What a warning lets through

  predicate WarningKey(key: Key) { key.Http4xx? || key.Overmerge? || key.LowConfidence? || key.PromptInjection? }

  /** No entry accepts, and only the four warning keys may accept with a warning. */
  predicate Careful(table: map<Key, Recommendation>) {
    forall k :: k in table ==> table[k] != Accept && (table[k] == AcceptWithWarning ==> WarningKey(k))
  }

  /** With such a table, what is accepted with or without a warning has no failed check apart from
      the two nobody looks at. */
  lemma AcceptedHasNoFailure(recipe: RecipeId, env: Envelope, ev: Evidence, table: map<Key, Recommendation>)
    requires Careful(table)
    ensures var checks := AllChecks(recipe, env, ev);
            Recommend(table, checks) == Accept || Recommend(table, checks) == AcceptWithWarning ==>
              forall c :: c in checks && c.status == Failed ==> Overlooked(c)
  {
    VerdictExactly(recipe, env, ev, table);
    var checks, cause := AllChecks(recipe, env, ev), CauseOf(recipe, env, ev);
    if Answer(table, cause) == Accept {
      AcceptExactly(recipe, env, ev, table);
    } else if Answer(table, cause) == AcceptWithWarning {
      assert Warns(cause);
      WarnedHasNoFailure(recipe, env, ev);
    }
  }

  lemma CommonUnfailed(env: Envelope, ev: Evidence)
    requires OutputHashValid(env) && ResultHashValid(env) && PolicyApproves(env, ev.policy)
    requires !ev.secretFound && ev.schemaAccepts != Some(false)
    ensures forall c :: c in CommonChecks(env, ev) && c.status == Failed ==> Overlooked(c)
  {
  }

  /** A warning comes from a single check that needs review. */
  lemma WarnedTask(recipe: RecipeId, output: Json)
    requires Warns(TaskCause(recipe, Members(output)))
    ensures exists c :: TaskChecks(recipe, output) == [c] && c.status == NeedsReview
  {
    var o := Members(output);
    match recipe
    case UrlCheckV0 => assert UrlCheck(o) == [Check(UrlStatus, NeedsReview)];
    case DedupV0 => assert DedupCheck(o) == [Check(DedupOvermerge, NeedsReview)];
    case TopicClassificationV0 =>
      LabelIff(o);
      assert TopicCheck(o) == [Check(TopicConfidence, NeedsReview)];
    case WebpageExtractionV0 => assert WebpageCheck(o) == [Check(WebpagePromptInjection, NeedsReview)];
    case _ =>
  }

  ghost predicate Warns(cause: Option<Cause>) { cause.Some? && cause.value.Keyed? && WarningKey(cause.value.key) }

  lemma WarnedHasNoFailure(recipe: RecipeId, env: Envelope, ev: Evidence)
    requires Warns(CauseOf(recipe, env, ev))
    ensures forall c :: c in AllChecks(recipe, env, ev) && c.status == Failed ==> Overlooked(c)
  {
    assert Warns(TaskCause(recipe, Members(env.output)));
    WarnedTask(recipe, env.output);
    CommonUnfailed(env, ev);
    assert AllChecks(recipe, env, ev) == CommonChecks(env, ev) + TaskChecks(recipe, env.output);
  }

  /////// The adapter's envelopes are taken

  /** An envelope the adapter builds for the worker's own assignment, sent under its lease, is stored
      with the output and the output's hash, unless its id is taken. */
  lemma BuiltIsTaken(db: S.Db, a: Id, worker: Id, cred: S.Credential, ctx: Context, id: Id, output: Json,
                     usage: seq<Id>, status: ResultStatus, errors: seq<string>, freshId: Id)
    requires I.Sound(db) && R.Owns(db, a, worker) && R.Proves(cred, db.assignments[a].tokenHash) && R.Unused(db, id)
    requires ctx.assignment == a && ctx.attempt == db.assignments[a].attempt
    requires ctx.workUnit == db.assignments[a].workUnit && (ctx.worker == None || ctx.worker == Some(worker))
    ensures var env := BuildEnvelope(ctx, id, output, usage, status, errors);
            var out := S.Submit(db, a, worker, cred, output, Some(env), freshId);
            && out.Committed? && |out.db.results| == |db.results| + 1
            && var stored := out.db.results[|db.results|];
               stored.id == id && stored.output == output && stored.outputHash == OutputHash(output)
  {
    var env := BuildEnvelope(ctx, id, output, usage, status, errors);
    R.CommitsExactly(db, S.DoSubmit(a, worker, cred, output, Some(env), freshId));
    F.SubmitFences(db, a, worker, cred, output, Some(env), freshId);
  }

  /////// As it runs

  /** The claim loop: appends each claim's failures in order. */
  method CollectClaimFailures(o: seq<Member>, claims: seq<Json>) returns (failures: seq<Check>)
    ensures failures == AllClaimFailures(o, claims)
    ensures failures == [] <==> forall claim :: claim in claims ==> GoodClaim(o, claim)
  {
    failures := [];
    ghost var parts := PerClaim(o, claims);
    for i := 0 to |claims|
      invariant failures == Flat(parts[..i])
    {
      assert parts[..i + 1][..i] == parts[..i];
      if !claims[i].Obj? {
        failures := failures + [Check(ClaimEntity, Failed)];
        continue;
      }
      failures := failures + ClaimFailures(o, claims[i]);
    }
    assert parts[..|parts|] == parts;
    ClaimsCleanIffGood(o, claims);
  }

  /** VerifierRunner.run: the check list grows group by group, then decides. */
  method RunVerifier(recipe: RecipeId, env: Envelope, ev: Evidence, table: map<Key, Recommendation>)
    returns (checks: seq<Check>, verdict: Recommendation)
    ensures checks == AllChecks(recipe, env, ev) && verdict == Answer(table, CauseOf(recipe, env, ev))
    ensures Careful(table) && (verdict == Accept || verdict == AcceptWithWarning) ==>
              forall c :: c in checks && c.status == Failed ==> Overlooked(c)
    ensures recipe != OtherRecipe && NamedIds(env) && NeverAccepts(table) ==> (verdict == Accept <==> AllClean(checks))
  {
    checks := CheckIntegrity(env);
    checks := checks + CheckHashes(env);
    checks := checks + CheckPolicyLinkage(env, ev.policy);
    checks := checks + CheckSecrets(ev.secretFound);
    checks := checks + CheckSchema(ev.schemaAccepts);
    checks := checks + TaskChecks(recipe, env.output);
    verdict := Recommend(table, checks);
    VerdictExactly(recipe, env, ev, table);
    if Careful(table) { AcceptedHasNoFailure(recipe, env, ev, table); }
    if recipe != OtherRecipe && NamedIds(env) && NeverAccepts(table) { NoFailureFallsThrough(recipe, env, ev, table); }
  }
}
