// Route plans: the guardrail scan, normalisation, and re-validation after the
// scorer has changed the selection.

module Routing {
  import opened Common
  import opened Gateways
  import opened TimeText
  import opened Sorting
  import opened Scoring
  import opened Ranking

  datatype Plan = Plan(
    id: string, workUnit: string, taskType: string, taskLevel: string, candidates: seq<Candidate>, selected: string,
    verifierRecipe: string, risk: string, hints: seq<string>, createdAt: string, validatedAt: Option<string>)

  /** The routebook's guardrails. `lower` is str.lower and `render` is str, which this model leaves open. */
  datatype Guardrails = Guardrails(
    fieldFragments: seq<string>, pathFragments: seq<string>, backendFragments: seq<string>,
    lower: string -> string, render: Json -> string,
    forbiddenClasses: set<string>, verifierMapping: map<string, string>, requiresVerifier: map<string, bool>,
    registry: map<string, Backend>)

  /////// The plan as a document

  function Text(s: Option<string>): Json { if s.Some? then Str(s.value) else Null }

  function Texts(s: seq<string>): Json { List(seq(|s|, i requires 0 <= i < |s| => Str(s[i]))) }

  function CandidateMembers(c: Candidate): seq<Member> {
    [ Member("schema_version", Str("p0.v1")), Member("route_candidate_id", Str(c.id)),
      Member("capacity_node_id", Str(c.node)), Member("backend_class", Str(c.backendClass)),
      Member("backend_id", Str(c.backend)), Member("worker_selector", Obj(c.selector)),
      Member("priority", Int(c.priority)), Member("estimated_cost_micros", Int(c.cost)),
      Member("verifier_recipe_id", Text(c.verifierRecipe)), Member("policy_hints", Texts(c.hints)) ]
  }

  function CandidateList(cs: seq<Candidate>): Json {
    List(seq(|cs|, i requires 0 <= i < |cs| => Obj(CandidateMembers(cs[i]))))
  }

  function PlanMembers(p: Plan): seq<Member> {
    [ Member("schema_version", Str("p0.v1")), Member("route_plan_id", Str(p.id)),
      Member("work_unit_id", Str(p.workUnit)), Member("task_type", Str(p.taskType)),
      Member("task_level", Str(p.taskLevel)), Member("candidates", CandidateList(p.candidates)),
      Member("selected_candidate_id", Str(p.selected)), Member("verifier_recipe_id", Str(p.verifierRecipe)),
      Member("risk_level", Str(p.risk)), Member("policy_hints", Texts(p.hints)),
      Member("created_at", Str(p.createdAt)), Member("validated_at", Text(p.validatedAt)) ]
  }

  const CANDIDATES := 5
  const SELECTED := 6

  /////// The scan

  /** Python's `fragment in text`. */
  predicate Contains(text: string, fragment: string) {
    fragment <= text || (text != "" && Contains(text[1..], fragment))
  }

  predicate ContainsAny(text: string, fragments: seq<string>) {
    exists f :: f in fragments && Contains(text, f)
  }

  function DashesToUnderscores(s: string): (r: string)
    ensures |r| == |s| && forall i :: 0 <= i < |s| ==> r[i] == if s[i] == '-' then '_' else s[i]
  {
    if s == "" then "" else [if s[0] == '-' then '_' else s[0]] + DashesToUnderscores(s[1..])
  }

  function NormalKey(g: Guardrails, key: string): string { DashesToUnderscores(g.lower(key)) }

  /** allowed_domains_source must be hashable and neither of the two denied sources. */
  predicate SourceAllowed(source: Option<Json>) {
    source.Some? ==>
      !source.value.List? && !source.value.Obj? && source.value != Str("fetched_content") && source.value != Str("llm")
  }

  predicate KeyAllowed(g: Guardrails, m: Member) {
    && !ContainsAny(NormalKey(g, m.key), g.fieldFragments)
    && (NormalKey(g, m.key) == "backend_id" ==> !ContainsAny(g.render(m.value), g.backendFragments))
  }

  /** _scan raises nothing anywhere below this value. */
  predicate ScanAllows(g: Guardrails, v: Json) {
    match v
    case Obj(members) =>
      && SourceAllowed(Get(members, "allowed_domains_source"))
      && (forall i :: 0 <= i < |members| ==> KeyAllowed(g, members[i]))
      && (forall i :: 0 <= i < |members| ==> ScanAllows(g, members[i].value))
    case List(items) => forall i :: 0 <= i < |items| ==> ScanAllows(g, items[i])
    case Str(s) => !ContainsAny(s, g.pathFragments)
    case _ => true
  }

  /////// Validation

  function RequiresVerifier(g: Guardrails, level: string): bool {
    if level in g.requiresVerifier then g.requiresVerifier[level] else level in {"L1", "L2", "L3"}
  }

  predicate VerifierAllowed(g: Guardrails, p: Plan) {
    RequiresVerifier(g, p.taskLevel) ==>
      && p.verifierRecipe != ""
      && p.taskType in g.verifierMapping && g.verifierMapping[p.taskType] == p.verifierRecipe
      && forall c :: c in p.candidates ==> c.verifierRecipe.Some? && c.verifierRecipe.value != ""
  }

  predicate CandidateAllowed(g: Guardrails, c: Candidate) {
    && c.backend in g.registry && g.registry[c.backend].backendClass == c.backendClass
    && c.backendClass !in g.forbiddenClasses
    && (c.backendClass in GATEWAY_CLASSES ==>
          WorkerOf(c) == Some(Str(GATEWAY_WORKER)) && c.node == "capnode:worker:" + GATEWAY_WORKER)
  }

  predicate IsCandidateId(cs: seq<Candidate>, id: string) { exists i :: 0 <= i < |cs| && cs[i].id == id }

  predicate Validates(g: Guardrails, p: Plan) {
    && ScanAllows(g, Obj(PlanMembers(p)))
    && VerifierAllowed(g, p)
    && IsCandidateId(p.candidates, p.selected) && forall c :: c in p.candidates ==> CandidateAllowed(g, c)
  }

  /** What str.lower does to text that is lower case already. */
  ghost predicate LowerKeepsLower(g: Guardrails) {
    forall s: string :: LowerText(s) ==> g.lower(s) == s
  }

  predicate LowerText(s: string) { forall i :: 0 <= i < |s| ==> 'a' <= s[i] <= 'z' || s[i] == '_' }

  /////// What a valid plan is free of

  /** `v` occurs in the document: as the whole, in a list item, or in the value of a member. */
  ghost predicate Occurs(v: Json, doc: Json)
    decreases doc
  {
    || v == doc
    || match doc
       case List(items) => exists i :: 0 <= i < |items| && Occurs(v, items[i])
       case Obj(members) => exists i :: 0 <= i < |members| && Occurs(v, members[i].value)
       case _ => false
  }

  ghost predicate StandsAt(fragment: string, text: string, k: int) {
    0 <= k <= k + |fragment| <= |text| && text[k..k + |fragment|] == fragment
  }

  /** None of the fragments stands anywhere in the text. */
  ghost predicate FreeOf(text: string, fragments: seq<string>) {
    forall f, k :: f in fragments ==> !StandsAt(f, text, k)
  }

  lemma {:induction false} ContainsIff(text: string, fragment: string)
    ensures Contains(text, fragment) <==> exists k :: StandsAt(fragment, text, k)
  {
    if fragment <= text {
      assert StandsAt(fragment, text, 0);
    } else if text != "" {
      ContainsIff(text[1..], fragment);
      if k :| StandsAt(fragment, text[1..], k) { assert StandsAt(fragment, text, k + 1); }
      if k :| StandsAt(fragment, text, k) { assert StandsAt(fragment, text[1..], k - 1); }
    }
  }

  lemma ContainsAnyIff(text: string, fragments: seq<string>)
    ensures ContainsAny(text, fragments) <==> !FreeOf(text, fragments)
  {
    forall f | f in fragments ensures Contains(text, f) <==> exists k :: StandsAt(f, text, k) { ContainsIff(text, f); }
  }

  /** No key with a forbidden fragment once in lower case with underscores, no backend id that
      renders with one, and no list of allowed domains from the two denied sources. */
  ghost predicate HarmlessObject(g: Guardrails, members: seq<Member>) {
    && (forall i :: 0 <= i < |members| ==> HarmlessMember(g, members[i]))
    && match Get(members, "allowed_domains_source")
       case None => true
       case Some(source) =>
         && source != Str("fetched_content") && source != Str("llm")
         && !source.List? && !source.Obj?   // not hashable
  }

  ghost predicate HarmlessMember(g: Guardrails, m: Member) {
    var key := DashesToUnderscores(g.lower(m.key));
    FreeOf(key, g.fieldFragments) && (key == "backend_id" ==> FreeOf(g.render(m.value), g.backendFragments))
  }

  /** Said of whatever occurs in the document, at any depth. */
  ghost predicate Harmless(g: Guardrails, doc: Json) {
    && (forall s :: Occurs(Str(s), doc) ==> FreeOf(s, g.pathFragments))
    && (forall members :: Occurs(Obj(members), doc) ==> HarmlessObject(g, members))
  }

  lemma KeyAllowedIff(g: Guardrails, m: Member)
    ensures KeyAllowed(g, m) <==> HarmlessMember(g, m)
  {
    ContainsAnyIff(NormalKey(g, m.key), g.fieldFragments);
    ContainsAnyIff(g.render(m.value), g.backendFragments);
  }

  lemma HarmlessParts(g: Guardrails, doc: Json, part: Json)
    requires Harmless(g, doc) && forall v :: Occurs(v, part) ==> Occurs(v, doc)
    ensures Harmless(g, part)
  {
  }

  /** The scan raises nothing exactly when nothing that occurs in the document is forbidden. */
  lemma {:induction false} ScanExactly(g: Guardrails, doc: Json)
    ensures ScanAllows(g, doc) <==> Harmless(g, doc)
    decreases doc
  {
    match doc
    case List(items) =>
      forall i | 0 <= i < |items| ensures ScanAllows(g, items[i]) <==> Harmless(g, items[i]) {
        ScanExactly(g, items[i]);
      }
      ScanList(g, items);
    case Obj(members) =>
      forall i | 0 <= i < |members| ensures ScanAllows(g, members[i].value) <==> Harmless(g, members[i].value) {
        ScanExactly(g, members[i].value);
      }
      ScanObject(g, members);
    case Str(s) => ContainsAnyIff(s, g.pathFragments);
    case _ =>
  }

  lemma ScanList(g: Guardrails, items: seq<Json>)
    requires forall i :: 0 <= i < |items| ==> (ScanAllows(g, items[i]) <==> Harmless(g, items[i]))
    ensures ScanAllows(g, List(items)) <==> Harmless(g, List(items))
  {
    if Harmless(g, List(items)) {
      forall i | 0 <= i < |items| ensures ScanAllows(g, items[i]) { HarmlessParts(g, List(items), items[i]); }
    }
  }

  lemma ScanObject(g: Guardrails, members: seq<Member>)
    requires forall i :: 0 <= i < |members| ==> (ScanAllows(g, members[i].value) <==> Harmless(g, members[i].value))
    ensures ScanAllows(g, Obj(members)) <==> Harmless(g, Obj(members))
  {
    forall i | 0 <= i < |members| ensures KeyAllowed(g, members[i]) <==> HarmlessMember(g, members[i]) {
      KeyAllowedIff(g, members[i]);
    }
    if Harmless(g, Obj(members)) {
      assert HarmlessObject(g, members);
      forall i | 0 <= i < |members| ensures ScanAllows(g, members[i].value) {
        HarmlessParts(g, Obj(members), members[i].value);
      }
    }
  }

  /** The texts a plan shows, at any depth. */
  ghost predicate PlanShows(p: Plan, s: string) {
    FieldShows(p, s) || exists c :: c in p.candidates && CandidateShows(c, s)
  }

  ghost predicate CandidateShows(c: Candidate, s: string) {
    || s in ["p0.v1", c.id, c.node, c.backendClass, c.backend]
    || s in c.hints || c.verifierRecipe == Some(s)
    || Occurs(Str(s), Obj(c.selector))
  }

  lemma TextsShow(texts: seq<string>, s: string)
    ensures Occurs(Str(s), Texts(texts)) <==> s in texts
  {
    if s in texts {
      var i :| 0 <= i < |texts| && texts[i] == s;
      assert Occurs(Str(s), Texts(texts).items[i]);
    }
  }

  lemma MemberShows(members: seq<Member>, v: Json, i: nat)
    requires i < |members| && Occurs(v, members[i].value)
    ensures Occurs(v, Obj(members))
  {
  }

  lemma CandidateTexts(c: Candidate, s: string)
    ensures Occurs(Str(s), Obj(CandidateMembers(c))) <==> CandidateShows(c, s)
  {
    var ms := CandidateMembers(c);
    TextsShow(c.hints, s);
    if Occurs(Str(s), Obj(ms)) {
      var i :| 0 <= i < |ms| && Occurs(Str(s), ms[i].value);
    }
    if CandidateShows(c, s) {
      var i := CandidatePlace(c, s);
      MemberShows(ms, Str(s), i);
    }
  }

  lemma CandidatePlace(c: Candidate, s: string) returns (i: nat)
    requires CandidateShows(c, s)
    ensures i < 10 && Occurs(Str(s), CandidateMembers(c)[i].value)
  {
    TextsShow(c.hints, s);
    i := if s == "p0.v1" then 0 else if s == c.id then 1 else if s == c.node then 2 else if s == c.backendClass then 3
      else if s == c.backend then 4 else if c.verifierRecipe == Some(s) then 8 else if s in c.hints then 9 else 5;
  }

  lemma ListShows(items: seq<Json>, v: Json)
    requires !v.List?
    ensures Occurs(v, List(items)) <==> exists doc :: doc in items && Occurs(v, doc)
  {
    if i :| 0 <= i < |items| && Occurs(v, items[i]) { assert items[i] in items; }
  }

  lemma CandidateListShows(cs: seq<Candidate>, v: Json)
    requires !v.List?
    ensures Occurs(v, CandidateList(cs)) <==> exists c :: c in cs && Occurs(v, Obj(CandidateMembers(c)))
  {
    var items := CandidateList(cs).items;
    ListShows(items, v);
    if doc :| doc in items && Occurs(v, doc) {
      var i :| 0 <= i < |items| && items[i] == doc;
      assert cs[i] in cs && doc == Obj(CandidateMembers(cs[i]));
    }
    if c :| c in cs && Occurs(v, Obj(CandidateMembers(c))) {
      var i :| 0 <= i < |cs| && cs[i] == c;
      assert items[i] in items;
    }
  }

  ghost predicate FieldShows(p: Plan, s: string) {
    || s in ["p0.v1", p.id, p.workUnit, p.taskType, p.taskLevel, p.selected, p.verifierRecipe, p.risk, p.createdAt]
    || s in p.hints || p.validatedAt == Some(s)
  }

  lemma PlanTexts(p: Plan, s: string)
    ensures Occurs(Str(s), Obj(PlanMembers(p))) <==> PlanShows(p, s)
  {
    CandidateListShows(p.candidates, Str(s));
    forall c | c in p.candidates ensures Occurs(Str(s), Obj(CandidateMembers(c))) <==> CandidateShows(c, s) {
      CandidateTexts(c, s);
    }
    FieldTexts(p, s);
  }

  lemma FieldTexts(p: Plan, s: string)
    ensures Occurs(Str(s), Obj(PlanMembers(p))) <==> FieldShows(p, s) || Occurs(Str(s), CandidateList(p.candidates))
  {
    var ms := PlanMembers(p);
    TextsShow(p.hints, s);
    if i :| 0 <= i < |ms| && Occurs(Str(s), ms[i].value) {}
    if FieldShows(p, s) {
      var i := FieldPlace(p, s);
      MemberShows(ms, Str(s), i);
    } else if Occurs(Str(s), CandidateList(p.candidates)) {
      MemberShows(ms, Str(s), CANDIDATES);
    }
  }

  lemma FieldPlace(p: Plan, s: string) returns (i: nat)
    requires FieldShows(p, s)
    ensures i < 12 && Occurs(Str(s), PlanMembers(p)[i].value)
  {
    TextsShow(p.hints, s);
    i := if s == "p0.v1" then 0 else if s == p.id then 1 else if s == p.workUnit then 2 else if s == p.taskType then 3
      else if s == p.taskLevel then 4 else if s == p.selected then SELECTED else if s == p.verifierRecipe then 7
      else if s == p.risk then 8 else if s in p.hints then 9 else if s == p.createdAt then 10 else 11;
  }

  lemma TextsHoldNoObject(texts: seq<string>, ms: seq<Member>)
    ensures !Occurs(Obj(ms), Texts(texts))
  {
  }

  lemma CandidateObjects(c: Candidate, ms: seq<Member>)
    ensures Occurs(Obj(ms), Obj(CandidateMembers(c))) <==> ms == CandidateMembers(c) || Occurs(Obj(ms), Obj(c.selector))
  {
    var cms := CandidateMembers(c);
    TextsHoldNoObject(c.hints, ms);
    if Occurs(Obj(ms), Obj(cms)) && ms != cms {
      var i :| 0 <= i < |cms| && Occurs(Obj(ms), cms[i].value);
    }
    if Occurs(Obj(ms), Obj(c.selector)) { MemberShows(cms, Obj(ms), 5); }
  }

  /** The objects in a plan: itself and what its candidates hold. */
  lemma PlanObjects(p: Plan, ms: seq<Member>)
    ensures Occurs(Obj(ms), Obj(PlanMembers(p))) <==>
              ms == PlanMembers(p) || exists c :: c in p.candidates && Occurs(Obj(ms), Obj(CandidateMembers(c)))
  {
    CandidateListShows(p.candidates, Obj(ms));
    FieldObjects(p, ms);
  }

  lemma FieldObjects(p: Plan, ms: seq<Member>)
    ensures Occurs(Obj(ms), Obj(PlanMembers(p))) <==>
              ms == PlanMembers(p) || Occurs(Obj(ms), CandidateList(p.candidates))
  {
    var pms := PlanMembers(p);
    TextsHoldNoObject(p.hints, ms);
    if i :| 0 <= i < |pms| && Occurs(Obj(ms), pms[i].value) {}
    if Occurs(Obj(ms), CandidateList(p.candidates)) { MemberShows(pms, Obj(ms), CANDIDATES); }
  }

  /** A plan as the guardrails want it, said without the scan. */
  ghost predicate GoodPlan(g: Guardrails, p: Plan) {
    && (forall s :: PlanShows(p, s) ==> FreeOf(s, g.pathFragments))
    && HarmlessObject(g, PlanMembers(p))
    && (forall c :: c in p.candidates ==> HarmlessCandidate(g, c) && CandidateRule(g, p.taskLevel, c))
    && (exists c :: c in p.candidates && c.id == p.selected)
    && (NeedsVerifier(g, p.taskLevel) ==> VerifierRule(g, p))
  }

  ghost predicate HarmlessCandidate(g: Guardrails, c: Candidate) {
    && HarmlessObject(g, CandidateMembers(c))
    && forall ms :: Occurs(Obj(ms), Obj(c.selector)) ==> HarmlessObject(g, ms)
  }

  /** What the routebook says of the level, or else any of the upper three. */
  ghost predicate NeedsVerifier(g: Guardrails, level: string) {
    match level in g.requiresVerifier
    case true => g.requiresVerifier[level]
    case false => level == "L1" || level == "L2" || level == "L3"
  }

  ghost predicate VerifierRule(g: Guardrails, p: Plan) {
    p.verifierRecipe != "" && p.taskType in g.verifierMapping && p.verifierRecipe == g.verifierMapping[p.taskType]
  }

  ghost predicate CandidateRule(g: Guardrails, level: string, c: Candidate) {
    && c.backend in g.registry && c.backendClass == g.registry[c.backend].backendClass
    && !(c.backendClass in g.forbiddenClasses)
    && (c.backendClass == "api_model_gateway" || c.backendClass == "primary_model_gateway" ==>
          && Get(c.selector, "worker_id") == Some(Str("wrk_control_plane_gateway"))
          && c.node == "capnode:worker:" + "wrk_control_plane_gateway")
    && (NeedsVerifier(g, level) ==> c.verifierRecipe.Some? && c.verifierRecipe.value != "")
  }

  lemma CandidateHarmless(g: Guardrails, c: Candidate)
    ensures HarmlessCandidate(g, c) <==>
              forall ms :: Occurs(Obj(ms), Obj(CandidateMembers(c))) ==> HarmlessObject(g, ms)
  {
    forall ms
      ensures Occurs(Obj(ms), Obj(CandidateMembers(c))) <==>
                ms == CandidateMembers(c) || Occurs(Obj(ms), Obj(c.selector))
    {
      CandidateObjects(c, ms);
    }
  }

  ghost predicate HarmlessObjects(g: Guardrails, doc: Json) {
    forall ms :: Occurs(Obj(ms), doc) ==> HarmlessObject(g, ms)
  }

  lemma PlanHarmless(g: Guardrails, p: Plan)
    ensures HarmlessObjects(g, Obj(PlanMembers(p))) <==>
              && HarmlessObject(g, PlanMembers(p))
              && forall c :: c in p.candidates ==> HarmlessObjects(g, Obj(CandidateMembers(c)))
  {
    forall ms
      ensures Occurs(Obj(ms), Obj(PlanMembers(p))) <==>
                ms == PlanMembers(p) || exists c :: c in p.candidates && Occurs(Obj(ms), Obj(CandidateMembers(c)))
    {
      PlanObjects(p, ms);
    }
  }

  lemma ScanIsGood(g: Guardrails, p: Plan)
    ensures ScanAllows(g, Obj(PlanMembers(p))) <==>
              && (forall s :: PlanShows(p, s) ==> FreeOf(s, g.pathFragments))
              && HarmlessObject(g, PlanMembers(p))
              && forall c :: c in p.candidates ==> HarmlessCandidate(g, c)
  {
    ScanExactly(g, Obj(PlanMembers(p)));
    PlanHarmless(g, p);
    forall c | c in p.candidates
      ensures HarmlessCandidate(g, c) <==> HarmlessObjects(g, Obj(CandidateMembers(c)))
    {
      CandidateHarmless(g, c);
    }
    forall s ensures Occurs(Str(s), Obj(PlanMembers(p))) <==> PlanShows(p, s) { PlanTexts(p, s); }
  }

  lemma VerifierIsGood(g: Guardrails, p: Plan)
    ensures VerifierAllowed(g, p) <==>
              && (NeedsVerifier(g, p.taskLevel) ==> VerifierRule(g, p))
              && forall c :: c in p.candidates && NeedsVerifier(g, p.taskLevel) ==>
                   c.verifierRecipe.Some? && c.verifierRecipe.value != ""
  {
  }

  lemma CandidateIsGood(g: Guardrails, level: string, c: Candidate)
    ensures CandidateRule(g, level, c) <==>
              && CandidateAllowed(g, c)
              && (NeedsVerifier(g, level) ==> c.verifierRecipe.Some? && c.verifierRecipe.value != "")
  {
  }

  /** Main result: a plan validates exactly when nothing it shows is forbidden and every rule
      about verifier, selection and candidates is met, field by field. */
  lemma ValidatesExactly(g: Guardrails, p: Plan)
    ensures Validates(g, p) <==> GoodPlan(g, p)
  {
    ScanIsGood(g, p);
    VerifierIsGood(g, p);
    forall c | c in p.candidates
      ensures CandidateRule(g, p.taskLevel, c) <==>
                && CandidateAllowed(g, c)
                && (NeedsVerifier(g, p.taskLevel) ==> c.verifierRecipe.Some? && c.verifierRecipe.value != "")
    {
      CandidateIsGood(g, p.taskLevel, c);
    }
    assert IsCandidateId(p.candidates, p.selected) <==> exists c :: c in p.candidates && c.id == p.selected;
  }

  /////// Re-validation

  lemma {:induction false} GetUpdate(ms: seq<Member>, k: nat, v: Json, key: string)
    requires k < |ms| && ms[k].key != key
    ensures Get(ms[k := Member(ms[k].key, v)], key) == Get(ms, key)
    decreases |ms|
  {
    if k > 0 {
      GetUpdate(ms[1..], k - 1, v, key);
      assert ms[k := Member(ms[k].key, v)][1..] == ms[1..][k - 1 := Member(ms[k].key, v)];
    } else {
      assert ms[k := Member(ms[k].key, v)][1..] == ms[1..];
    }
  }

  lemma LongKeyIsPlain(g: Guardrails, key: string)
    requires LowerKeepsLower(g) && LowerText(key) && |key| != |"backend_id"|
    ensures NormalKey(g, key) != "backend_id"
  {
  }

  lemma SelectedKeyIsPlain(g: Guardrails)
    requires LowerKeepsLower(g)
    ensures NormalKey(g, "selected_candidate_id") != "backend_id"
  {
    LongKeyIsPlain(g, "selected_candidate_id");
  }

  /** A candidate's id has been scanned as a text of its own. */
  lemma CandidateIdScanned(g: Guardrails, p: Plan, k: nat)
    requires ScanAllows(g, Obj(PlanMembers(p))) && k < |p.candidates|
    ensures ScanAllows(g, Str(p.candidates[k].id))
  {
    var ms := PlanMembers(p);
    assert ScanAllows(g, ms[CANDIDATES].value);
    var items := CandidateList(p.candidates).items;
    assert ScanAllows(g, items[k]);
    var cms := CandidateMembers(p.candidates[k]);
    assert items[k] == Obj(cms);
    assert ScanAllows(g, cms[1].value);
  }

  /** Replacing the value of a plain key by another allowed text keeps the document allowed. */
  lemma SwapAllowed(g: Guardrails, ms: seq<Member>, k: nat, id: string)
    requires ScanAllows(g, Obj(ms)) && k < |ms| && ScanAllows(g, Str(id))
    requires ms[k].key != "allowed_domains_source" && NormalKey(g, ms[k].key) != "backend_id"
    ensures ScanAllows(g, Obj(ms[k := Member(ms[k].key, Str(id))]))
  {
    var after := ms[k := Member(ms[k].key, Str(id))];
    GetUpdate(ms, k, Str(id), "allowed_domains_source");
    forall i | 0 <= i < |after| ensures KeyAllowed(g, after[i]) && ScanAllows(g, after[i].value) {
      assert KeyAllowed(g, ms[i]) && ScanAllows(g, ms[i].value);
    }
  }

  function Reselect(p: Plan, id: string): Plan { p.(selected := id) }

  lemma ReselectScanned(g: Guardrails, p: Plan, k: nat)
    requires LowerKeepsLower(g) && ScanAllows(g, Obj(PlanMembers(p))) && k < |p.candidates|
    ensures ScanAllows(g, Obj(PlanMembers(Reselect(p, p.candidates[k].id))))
  {
    var id := p.candidates[k].id;
    CandidateIdScanned(g, p, k);
    SelectedKeyIsPlain(g);
    var ms := PlanMembers(p);
    assert ms[SELECTED].key == "selected_candidate_id";
    assert PlanMembers(Reselect(p, id)) == ms[SELECTED := Member(ms[SELECTED].key, Str(id))];
    SwapAllowed(g, ms, SELECTED, id);
  }

  /** A valid plan stays valid under a new selection exactly when that is one of its candidates. */
  lemma ReselectValidates(g: Guardrails, p: Plan, id: string)
    requires LowerKeepsLower(g) && GoodPlan(g, p)
    ensures GoodPlan(g, Reselect(p, id)) <==> exists c :: c in p.candidates && c.id == id
    ensures Validates(g, Reselect(p, id)) <==> IsCandidateId(p.candidates, id)
  {
    ValidatesExactly(g, p);
    ValidatesExactly(g, Reselect(p, id));
    ReselectKeeps(g, p, id);
    assert IsCandidateId(p.candidates, id) <==> exists c :: c in p.candidates && c.id == id;
  }

  lemma ReselectKeeps(g: Guardrails, p: Plan, id: string)
    requires LowerKeepsLower(g) && Validates(g, p)
    ensures Validates(g, Reselect(p, id)) <==> IsCandidateId(p.candidates, id)
  {
    if IsCandidateId(p.candidates, id) {
      var k :| 0 <= k < |p.candidates| && p.candidates[k].id == id;
      ReselectScanned(g, p, k);
    }
  }

  /////// Normalisation

  predicate CandidateLess(c: Candidate, d: Candidate) {
    if c.priority != d.priority then c.priority < d.priority
    else if c.backend != d.backend then TextLess(c.backend, d.backend)
    else TextLess(c.id, d.id)
  }

  predicate MemberLess(m: Member, n: Member) { TextLess(m.key, n.key) }

  function NormalCandidate(c: Candidate): Candidate { c.(selector := Sort(MemberLess, c.selector)) }

  function NormalCandidates(cs: seq<Candidate>): (r: seq<Candidate>)
    ensures |r| == |cs|
  {
    seq(|cs|, i requires 0 <= i < |cs| => NormalCandidate(cs[i]))
  }

  /** Candidates by (priority, backend, id), each selector by key; the first is selected. */
  function Normalize(p: Plan): Plan
    requires p.candidates != []
  {
    SortPermutes(CandidateLess, p.candidates);
    var cs := Sort(CandidateLess, p.candidates);
    p.(candidates := NormalCandidates(cs), selected := cs[0].id)
  }

  lemma CandidateTotal(c: Candidate, d: Candidate)
    ensures CandidateLess(c, d) || CandidateLess(d, c)
            || (c.priority == d.priority && c.backend == d.backend && c.id == d.id)
    ensures !(CandidateLess(c, d) && CandidateLess(d, c)) && !CandidateLess(c, c)
  {
    TextTotal(c.backend, d.backend);
    TextTotal(c.id, d.id);
    Irreflexive(c.id);
    TextAsymmetric(c.id, d.id);
    TextAsymmetric(c.backend, d.backend);
  }

  lemma TextAsymmetric(a: string, b: string)
    ensures !(TextLess(a, b) && TextLess(b, a))
  {
    if TextLess(a, b) && TextLess(b, a) {
      TextTransitive(a, b, a);
      Irreflexive(a);
    }
  }

  lemma CandidateTransitive(c: Candidate, d: Candidate, e: Candidate)
    requires CandidateLess(c, d) && CandidateLess(d, e)
    ensures CandidateLess(c, e)
  {
    if TextLess(c.backend, d.backend) && TextLess(d.backend, e.backend) {
      TextTransitive(c.backend, d.backend, e.backend);
      TextAsymmetric(c.backend, d.backend);
    }
    if TextLess(c.id, d.id) && TextLess(d.id, e.id) { TextTransitive(c.id, d.id, e.id); }
  }

  lemma CandidateOrder()
    ensures StrictOrder(CandidateLess)
  {
    forall c: Candidate ensures !CandidateLess(c, c) { CandidateTotal(c, c); }
    forall c, d, e | CandidateLess(c, d) && CandidateLess(d, e) ensures CandidateLess(c, e) {
      CandidateTransitive(c, d, e);
    }
    forall c: Candidate, d: Candidate, e: Candidate | !CandidateLess(c, d) && !CandidateLess(d, e)
      ensures !CandidateLess(c, e) {
      CandidateTotal(c, d);
      CandidateTotal(d, e);
      if CandidateLess(d, c) && CandidateLess(c, e) { CandidateTransitive(d, c, e); }
    }
  }

  /** Not after, by priority, then backend, then id. */
  ghost predicate InOrder(c: Candidate, d: Candidate) {
    || c.priority < d.priority
    || (c.priority == d.priority && TextLess(c.backend, d.backend))
    || (c.priority == d.priority && c.backend == d.backend && (c.id == d.id || TextLess(c.id, d.id)))
  }

  /** `d` is `c` with its worker selector in key order. */
  ghost predicate TidyOf(c: Candidate, d: Candidate) {
    && d == c.(selector := d.selector) && multiset(d.selector) == multiset(c.selector)
    && forall i, j :: 0 <= i < j < |d.selector| ==> !TextLess(d.selector[j].key, d.selector[i].key)
  }

  lemma MemberOrder()
    ensures StrictOrder(MemberLess)
  {
    forall m: Member ensures !MemberLess(m, m) { Irreflexive(m.key); }
    forall l, m, n | MemberLess(l, m) && MemberLess(m, n) ensures MemberLess(l, n) {
      TextTransitive(l.key, m.key, n.key);
    }
    forall l: Member, m: Member, n: Member | !MemberLess(l, m) && !MemberLess(m, n) ensures !MemberLess(l, n) {
      TextTotal(l.key, m.key);
      TextTotal(m.key, n.key);
      if MemberLess(m, l) && MemberLess(l, n) { TextTransitive(m.key, l.key, n.key); }
    }
  }

  lemma Tidied(c: Candidate)
    ensures TidyOf(c, NormalCandidate(c))
  {
    MemberOrder();
    SortSorts(MemberLess, c.selector);
    SortPermutes(MemberLess, c.selector);
  }

  /** The normalised plan: the candidates rearranged into order, each tidied, the first selected,
      and nothing else changed. */
  ghost predicate NormalFormOf(p: Plan, n: Plan, cs: seq<Candidate>) {
    && n == p.(candidates := n.candidates, selected := n.selected)
    && multiset(cs) == multiset(p.candidates) && (forall i, j :: 0 <= i < j < |cs| ==> InOrder(cs[i], cs[j]))
    && |n.candidates| == |cs| && (forall i :: 0 <= i < |cs| ==> TidyOf(cs[i], n.candidates[i]))
    && n.candidates != [] && n.selected == n.candidates[0].id
  }

  lemma NormalizeExactly(p: Plan)
    requires p.candidates != []
    ensures exists cs :: NormalFormOf(p, Normalize(p), cs)
  {
    var cs := Sort(CandidateLess, p.candidates);
    CandidateOrder();
    SortSorts(CandidateLess, p.candidates);
    SortPermutes(CandidateLess, p.candidates);
    forall i, j | 0 <= i < j < |cs| ensures InOrder(cs[i], cs[j]) { CandidateTotal(cs[i], cs[j]); }
    forall i | 0 <= i < |cs| ensures TidyOf(cs[i], Normalize(p).candidates[i]) { Tidied(cs[i]); }
    assert NormalFormOf(p, Normalize(p), cs);
  }

  /** Whatever order the generator lists the candidates in, the normalised plan is the same. */
  lemma NormalizeCanonical(p: Plan, q: Plan)
    requires p.candidates != [] && q == p.(candidates := q.candidates, selected := q.selected)
    requires multiset(p.candidates) == multiset(q.candidates) && DistinctIds(p.candidates)
    ensures q.candidates != [] && Normalize(p) == Normalize(q)
  {
    assert |multiset(p.candidates)| == |multiset(q.candidates)|;
    var s, t := Sort(CandidateLess, p.candidates), Sort(CandidateLess, q.candidates);
    CandidateOrder();
    SortSorts(CandidateLess, p.candidates);
    SortSorts(CandidateLess, q.candidates);
    SortPermutes(CandidateLess, p.candidates);
    SortPermutes(CandidateLess, q.candidates);
    forall c, d | c in s && d in s && c != d ensures CandidateLess(c, d) || CandidateLess(d, c) {
      assert c in multiset(p.candidates) && d in multiset(p.candidates);
      CandidateTotal(c, d);
    }
    SortedUnique(CandidateLess, s, t);
  }

  /////// plan_route

  datatype RouteError = NoCandidates | InvalidPlan | BackendMissing

  datatype Routed = Planned(plan: Plan) | RouteFailed(error: RouteError)

  /** From a generated plan to the plan handed out; without scoring inputs the validated plan is final. */
  function PlanRoute(g: Guardrails, scoring: Option<Context>, p: Plan): Routed {
    if p.candidates == [] then RouteFailed(NoCandidates)
    else
      var n := Normalize(p);
      if !Validates(g, n) then RouteFailed(InvalidPlan)
      else if scoring.None? then Planned(n)
      else if !(forall c :: c in n.candidates ==> Known(scoring.value, c)) then RouteFailed(BackendMissing)
      else
        var q := Reselect(n, Selected(scoring.value, n.candidates, n.selected));
        if Validates(g, q) then Planned(q) else RouteFailed(InvalidPlan)
  }

  /** Scoring works on the validator's registry, with a profile made for every candidate. */
  ghost predicate ScoringFits(g: Guardrails, ctx: Context, cs: seq<Candidate>) {
    ctx.registry == g.registry && forall c :: c in cs && c.backend in ctx.registry ==> c.backend in ctx.profiles
  }

  lemma {:induction false} FirstPassingIn(ranked: seq<Trace>)
    ensures FirstPassing(ranked).Some? ==> exists t :: t in ranked && t.id == FirstPassing(ranked).value
  {
    if ranked != [] {
      if ranked[0].passing { assert ranked[0] in ranked; } else { FirstPassingIn(ranked[1..]); }
    }
  }

  /** The scorer selects one of the candidates or keeps the selection, repeated ids or not. */
  lemma SelectedIsCandidate(ctx: Context, cs: seq<Candidate>, existing: string)
    requires AllKnown(ctx, cs)
    ensures Selected(ctx, cs, existing) == existing || IsCandidateId(cs, Selected(ctx, cs, existing))
  {
    ByIdHas(cs);
    var traces, ranked := Traces(ctx, cs, ById(cs)), Ranked(ctx, cs);
    FirstPassingIn(ranked);
    if FirstPassing(ranked).Some? {
      var t :| t in ranked && t.id == FirstPassing(ranked).value;
      SortPermutes(TraceLess, traces);
      assert t in multiset(ranked) && t in traces;
      var i :| 0 <= i < |traces| && traces[i] == t;
      assert cs[i].id == t.id;
    }
  }

  /** Main result: planning fails only for want of candidates or in the first validation. Neither
      the scorer nor the second validation can raise once that has passed. */
  lemma SecondValidationNeverRaises(g: Guardrails, scoring: Option<Context>, p: Plan)
    requires LowerKeepsLower(g)
             && (scoring.Some? && p.candidates != [] ==> ScoringFits(g, scoring.value, Normalize(p).candidates))
    ensures PlanRoute(g, scoring, p).Planned? <==> p.candidates != [] && GoodPlan(g, Normalize(p))
    ensures PlanRoute(g, scoring, p).Planned? ==>
              var out, n := PlanRoute(g, scoring, p).plan, Normalize(p);
              && GoodPlan(g, out) && out == n.(selected := out.selected)
              && (scoring.Some? ==>
                    AllKnown(scoring.value, n.candidates)
                      && out.selected == Selected(scoring.value, n.candidates, n.selected))
  {
    if p.candidates != [] {
      var n := Normalize(p);
      ValidatesExactly(g, n);
      if Validates(g, n) && scoring.Some? { ScoredPlanValidates(g, scoring.value, n); }
      if Validates(g, n) { ValidatesExactly(g, PlanRoute(g, scoring, p).plan); }
    }
  }

  /** The scorer knows every candidate of a plan that validates, and its selection validates. */
  lemma ScoredPlanValidates(g: Guardrails, ctx: Context, n: Plan)
    requires LowerKeepsLower(g) && Validates(g, n) && ScoringFits(g, ctx, n.candidates)
    ensures AllKnown(ctx, n.candidates) && Validates(g, Reselect(n, Selected(ctx, n.candidates, n.selected)))
  {
    forall c | c in n.candidates ensures Known(ctx, c) { assert CandidateAllowed(g, c); }
    SelectedIsCandidate(ctx, n.candidates, n.selected);
    ReselectKeeps(g, n, Selected(ctx, n.candidates, n.selected));
  }

  /** Planning does not depend on the order the generator lists the candidates in. */
  lemma PlanRouteCanonical(g: Guardrails, scoring: Option<Context>, p: Plan, q: Plan)
    requires q == p.(candidates := q.candidates, selected := q.selected)
    requires multiset(p.candidates) == multiset(q.candidates) && DistinctIds(p.candidates)
    ensures PlanRoute(g, scoring, p) == PlanRoute(g, scoring, q)
  {
    if p.candidates != [] {
      NormalizeCanonical(p, q);
    } else {
      assert |multiset(p.candidates)| == |multiset(q.candidates)|;
    }
  }
}
