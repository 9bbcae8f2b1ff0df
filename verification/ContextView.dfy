/** The agent-facing view of a decision context, `canonical_decision_context_view`
    (conclusion/validator.py): a fixpoint of the allowlists it is filtered by. */
module ContextView {
  import opened Json
  import opened References
  import opened RemovalReport

  // ---- the allowlists ----

  /** Python truthiness of a JSON value. */
  predicate Truthy(j: Json) {
    match j
    case Null => false
    case Bool(b) => b
    case Num(n) => n != 0.0
    case Str(s) => s != ""
    case Arr(items) => items != []
    case Obj(fs) => fs != Empty
  }

  /** `str(value)`, which leaves strings as they are; other renderings are the caller's. */
  ghost predicate Renders(text: Json -> string) {
    forall s: string {:trigger text(Str(s))} :: text(Str(s)) == s
  }

  function StringsIn(j: Option<Json>): set<string> {
    match j
    case Some(Arr(items)) => set i | 0 <= i < |items| && items[i].Str? :: items[i].s
    case _ => {}
  }

  /** The value of an entry that `if item.get(key)` admits. */
  function Given(j: Json, key: string): Option<Json> {
    match j
    case Obj(fs) => (match Get(fs, key) case Some(v) => if Truthy(v) then Some(v) else None case None => None)
    case _ => None
  }

  function GivenTexts(text: Json -> string, j: Option<Json>, key: string): set<string> {
    match j
    case Some(Arr(items)) => set i | 0 <= i < |items| && Given(items[i], key).Some? :: text(Given(items[i], key).value)
    case _ => {}
  }

  function ValueOr(fs: Fields, key: string, otherwise: Json): Json {
    match Get(fs, key)
    case Some(v) => v
    case None => otherwise
  }

  function ProblemIds(text: Json -> string, fs: Fields): set<string> {
    var own := ValueOr(fs, "deliberation_result_id", Null);
    {text(own),
     match Given(ValueOr(fs, "target_problem", Null), "problem_id")
     case Some(v) => text(v)
     case None => text(own)}
  }

  /** `_reference_allowlists` for the view, which leaves candidates unchecked. */
  function ViewAllow(text: Json -> string, fs: Fields): map<string, set<string>> {
    map[CLAIM := StringsIn(Get(fs, "key_claim_ids")),
        EVIDENCE := StringsIn(Get(fs, "evidence_ids")),
        ANALYSIS := StringsIn(Get(fs, "analysis_ids")),
        SOURCE := StringsIn(Get(fs, "source_ids")),
        STAKEHOLDER := GivenTexts(text, Get(fs, "affected_stakeholders"), "stakeholder_id"),
        PROBLEM := ProblemIds(text, fs)]
  }

  function ViewRules(text: Json -> string, fs: Fields): Rules {
    Rules(ReferenceKind, ViewAllow(text, fs))
  }

  /** The view handed to agents. */
  function View(text: Json -> string, fs: Fields): Fields {
    CleanFields(ViewRules(text, fs), fs)
  }

  // ---- field names ----

  lemma KindOf(field: string, i: nat, prefix: string, ending: string)
    requires i < |KINDS| && field == prefix + "_" + KINDS[i] + ending && (ending == "_id" || ending == "_ids")
    ensures ReferenceKind(field) == Some(KINDS[i])
  {
    var tail := "_" + KINDS[i] + ending;
    assert field == prefix + tail;
    assert field[|field| - |tail|..] == tail;
    ReferenceKindIff(field, i);
  }

  lemma ClaimField()
    ensures ReferenceKind("key_claim_ids") == Some(CLAIM)
  {
    KindOf("key_claim_ids", 0, "key", "_ids");
  }

  lemma EvidenceField()
    ensures ReferenceKind("evidence_ids") == Some(EVIDENCE)
  {
    assert NamedAfter("evidence_ids", EVIDENCE);
    ReferenceKindIff("evidence_ids", 1);
  }

  lemma AnalysisField()
    ensures ReferenceKind("analysis_ids") == Some(ANALYSIS)
  {
    assert NamedAfter("analysis_ids", ANALYSIS);
    ReferenceKindIff("analysis_ids", 2);
  }

  lemma SourceField()
    ensures ReferenceKind("source_ids") == Some(SOURCE)
  {
    assert NamedAfter("source_ids", SOURCE);
    ReferenceKindIff("source_ids", 3);
  }

  lemma StakeholderField()
    ensures ReferenceKind("stakeholder_id") == Some(STAKEHOLDER)
  {
    assert NamedAfter("stakeholder_id", STAKEHOLDER);
    ReferenceKindIff("stakeholder_id", 5);
  }

  lemma ProblemField()
    ensures ReferenceKind("problem_id") == Some(PROBLEM)
  {
    assert NamedAfter("problem_id", PROBLEM);
    ReferenceKindIff("problem_id", 6);
  }

  lemma {:induction false} NoKind(field: string, kinds: seq<string>)
    requires forall k | k in kinds :: !NamedAfter(field, k)
    ensures FirstKind(field, kinds) == None
  {
    if kinds != [] {
      NoKind(field, kinds[1..]);
    }
  }

  lemma PlainField(field: string)
    requires |field| >= 7 && field != "viable_candidates"
    requires LastThree(Stem(field)) !in ["aim", "nce", "sis", "rce", "ate", "der", "lem"]
    ensures ReferenceKind(field) == None
  {
    forall k | k in KINDS ensures !NamedAfter(field, k) {
      assert LastThree(k) in ["aim", "nce", "sis", "rce", "ate", "der", "lem"];
      if NamedAfter(field, k) {
        NamedAfterEnding(field, k);
      }
    }
    NoKind(field, KINDS);
  }

  lemma PlainFields()
    ensures ReferenceKind("affected_stakeholders") == None
    ensures ReferenceKind("target_problem") == None
    ensures ReferenceKind("deliberation_result_id") == None
  {
    assert LastThree(Stem("affected_stakeholders")) == "hol";
    PlainField("affected_stakeholders");
    assert LastThree(Stem("target_problem")) == "rob";
    PlainField("target_problem");
    assert LastThree(Stem("deliberation_result_id")) == "ult";
    PlainField("deliberation_result_id");
  }

  // ---- the view keeps its own allowlists ----

  /** Where the context's own types leave it free, IDs are scalars, not containers. */
  predicate ScalarId(j: Json, key: string) {
    j.Obj? && Has(j.fields, key) ==> IsScalar(Get(j.fields, key).value)
  }

  predicate IsListField(field: string) {
    field == "key_claim_ids" || field == "evidence_ids" || field == "analysis_ids" || field == "source_ids"
  }

  /** The typing of a decision context, as far as the allowlists read it. */
  ghost predicate Typed(fs: Fields) {
    && UniqueKeys(Obj(fs))
    && (Has(fs, "deliberation_result_id") ==> Get(fs, "deliberation_result_id").value.Str?)
    && (Has(fs, "target_problem") ==>
          Get(fs, "target_problem").value.Obj? && ScalarId(Get(fs, "target_problem").value, "problem_id"))
    && (Has(fs, "affected_stakeholders") && Get(fs, "affected_stakeholders").value.Arr? ==>
          var items := Get(fs, "affected_stakeholders").value.items;
          forall i | 0 <= i < |items| :: ScalarId(items[i], "stakeholder_id"))
    && (forall k | IsListField(k) ::
          Has(fs, k) ==> Get(fs, k).value.Arr? && forall i | 0 <= i < |Get(fs, k).value.items| ::
              Get(fs, k).value.items[i].Str?)
  }

  lemma {:induction false} AllowedKept(rules: Rules, field: string, items: seq<Json>)
    requires forall i | 0 <= i < |items| :: items[i].Str? && !Bad(rules, field, items[i])
    ensures CleanKept(rules, field, items) == items
  {
    if items != [] {
      assert forall i | 0 <= i < |items[1..]| :: items[1..][i] == items[i + 1];
      AllowedKept(rules, field, items[1..]);
    }
  }

  /** A list of IDs that is its own allowlist keeps all of them. */
  lemma OwnListKept(rules: Rules, fs: Fields, field: string, kind: string)
    requires UniqueFields(fs) && rules.kindOf(field) == Some(kind)
    requires kind in rules.allow && rules.allow[kind] == StringsIn(Get(fs, field))
    requires Has(fs, field) ==>
               Get(fs, field).value.Arr? && forall i | 0 <= i < |Get(fs, field).value.items| ::
                   Get(fs, field).value.items[i].Str?
    ensures Get(CleanFields(rules, fs), field) == Get(fs, field)
  {
    CleanGet(rules, fs, field);
    if Has(fs, field) {
      AllowedKept(rules, field, Get(fs, field).value.items);
    }
  }

  /** An entry's own scalar ID is kept when it is allowed. */
  lemma GivenKept(rules: Rules, j: Json, key: string)
    requires UniqueKeys(j) && ScalarId(j, key)
    requires Given(j, key).Some? ==> !Bad(rules, key, Given(j, key).value)
    ensures Given(Clean(rules, j), key) == Given(j, key)
  {
    if j.Obj? {
      CleanGet(rules, j.fields, key);
      if Has(j.fields, key) {
        var v := Get(j.fields, key).value;
        assert Bad(rules, key, v) ==> Truthy(v);
      }
    }
  }

  lemma StakeholdersKept(text: Json -> string, rules: Rules, items: seq<Json>)
    requires Renders(text) && forall i | 0 <= i < |items| ::
              UniqueKeys(items[i]) && ScalarId(items[i], "stakeholder_id")
    requires rules.kindOf("stakeholder_id") == Some(STAKEHOLDER)
    requires STAKEHOLDER in rules.allow
    requires rules.allow[STAKEHOLDER] == GivenTexts(text, Some(Arr(items)), "stakeholder_id")
    ensures GivenTexts(text, Some(Arr(CleanItems(rules, items))), "stakeholder_id")
         == GivenTexts(text, Some(Arr(items)), "stakeholder_id")
  {
    var xs, key := CleanItems(rules, items), "stakeholder_id";
    CleanItemsAre(rules, items);
    forall i | 0 <= i < |items| ensures Given(xs[i], key) == Given(items[i], key) {
      if Given(items[i], key).Some? && Given(items[i], key).value.Str? {
        assert text(Str(Given(items[i], key).value.s)) in rules.allow[STAKEHOLDER];
      }
      GivenKept(rules, items[i], key);
    }
    SameTexts(text, xs, items, key);
  }

  lemma SameTexts(text: Json -> string, xs: seq<Json>, ys: seq<Json>, key: string)
    requires |xs| == |ys| && forall i | 0 <= i < |xs| :: Given(xs[i], key) == Given(ys[i], key)
    ensures GivenTexts(text, Some(Arr(xs)), key) == GivenTexts(text, Some(Arr(ys)), key)
  {
    var a, b := GivenTexts(text, Some(Arr(xs)), key), GivenTexts(text, Some(Arr(ys)), key);
    forall s | s in a ensures s in b {
      var i :| 0 <= i < |xs| && Given(xs[i], key).Some? && text(Given(xs[i], key).value) == s;
      assert Given(ys[i], key).Some?;
    }
    forall s | s in b ensures s in a {
      var i :| 0 <= i < |ys| && Given(ys[i], key).Some? && text(Given(ys[i], key).value) == s;
      assert Given(xs[i], key).Some?;
    }
  }

  lemma StakeholderEntry(text: Json -> string, fs: Fields)
    requires Renders(text) && Typed(fs)
    ensures GivenTexts(text, Get(View(text, fs), "affected_stakeholders"), "stakeholder_id")
         == GivenTexts(text, Get(fs, "affected_stakeholders"), "stakeholder_id")
  {
    var rules, field := ViewRules(text, fs), "affected_stakeholders";
    PlainFields();
    StakeholderField();
    CleanGet(rules, fs, field);
    if Has(fs, field) && Get(fs, field).value.Arr? {
      UniqueGet(fs, field);
      var items := Get(fs, field).value.items;
      NoneBadKeepsAll(rules, field, items);
      StakeholdersKept(text, rules, items);
    }
  }

  lemma ProblemEntry(text: Json -> string, fs: Fields)
    requires Renders(text) && Typed(fs)
    ensures ProblemIds(text, View(text, fs)) == ProblemIds(text, fs)
  {
    var rules := ViewRules(text, fs);
    PlainFields();
    ProblemField();
    CleanGet(rules, fs, "deliberation_result_id");
    CleanGet(rules, fs, "target_problem");
    if Has(fs, "target_problem") {
      UniqueGet(fs, "target_problem");
      var problem := Get(fs, "target_problem").value;
      if Given(problem, "problem_id").Some? && Given(problem, "problem_id").value.Str? {
        assert text(Str(Given(problem, "problem_id").value.s)) in ProblemIds(text, fs);
      }
      GivenKept(rules, problem, "problem_id");
    }
  }

  lemma ListTyped(fs: Fields, field: string)
    requires Typed(fs) && IsListField(field)
    ensures Has(fs, field) ==>
              Get(fs, field).value.Arr? && forall i | 0 <= i < |Get(fs, field).value.items| ::
                  Get(fs, field).value.items[i].Str?
  {
  }

  lemma ClaimEntry(text: Json -> string, fs: Fields)
    requires Typed(fs)
    ensures Get(View(text, fs), "key_claim_ids") == Get(fs, "key_claim_ids")
  {
    ClaimField();
    ListTyped(fs, "key_claim_ids");
    OwnListKept(ViewRules(text, fs), fs, "key_claim_ids", CLAIM);
  }

  lemma EvidenceEntry(text: Json -> string, fs: Fields)
    requires Typed(fs)
    ensures Get(View(text, fs), "evidence_ids") == Get(fs, "evidence_ids")
  {
    EvidenceField();
    ListTyped(fs, "evidence_ids");
    OwnListKept(ViewRules(text, fs), fs, "evidence_ids", EVIDENCE);
  }

  lemma AnalysisEntry(text: Json -> string, fs: Fields)
    requires Typed(fs)
    ensures Get(View(text, fs), "analysis_ids") == Get(fs, "analysis_ids")
  {
    AnalysisField();
    ListTyped(fs, "analysis_ids");
    OwnListKept(ViewRules(text, fs), fs, "analysis_ids", ANALYSIS);
  }

  lemma SourceEntry(text: Json -> string, fs: Fields)
    requires Typed(fs)
    ensures Get(View(text, fs), "source_ids") == Get(fs, "source_ids")
  {
    SourceField();
    ListTyped(fs, "source_ids");
    OwnListKept(ViewRules(text, fs), fs, "source_ids", SOURCE);
  }

  /** The view computes the same allowlists as the context it was filtered from, so nothing
      in it is unknown by its own lists and taking the view again changes nothing. */
  lemma ViewIsFixpoint(text: Json -> string, fs: Fields)
    requires Renders(text) && Typed(fs)
    ensures ViewAllow(text, View(text, fs)) == ViewAllow(text, fs)
    ensures UnknownInFields(ViewRules(text, View(text, fs)), View(text, fs), []) == []
    ensures View(text, View(text, fs)) == View(text, fs)
  {
    ClaimEntry(text, fs);
    EvidenceEntry(text, fs);
    AnalysisEntry(text, fs);
    SourceEntry(text, fs);
    StakeholderEntry(text, fs);
    ProblemEntry(text, fs);
    CleanFieldsHaveNoUnknown(ViewRules(text, fs), fs, []);
    CleanFieldsFixed(ViewRules(text, fs), View(text, fs), []);
  }

  /** The removals it reports are the violations of the context, the candidates' aside, if and
      only if nothing unknown stands inside an item that follows a removed one in its list. */
  lemma ViewReport(text: Json -> string, fs: Fields, candidates: set<string>)
    ensures var checked := Rules(ReferenceKind, ViewAllow(text, fs)[CANDIDATE := candidates]);
            RemovedInFields(ViewRules(text, fs), fs, []) == Without(UnknownInFields(checked, fs, []), CANDIDATE)
            <==> UnshiftedFields(ViewRules(text, fs), fs)
  {
    var checked := Rules(ReferenceKind, ViewAllow(text, fs)[CANDIDATE := candidates]);
    RemovedFieldsIff(ViewRules(text, fs), fs, []);
    UncheckedFields(checked, CANDIDATE, fs, []);
    assert CANDIDATE !in ViewAllow(text, fs);
    assert checked.allow - {CANDIDATE} == ViewAllow(text, fs);
  }
}
