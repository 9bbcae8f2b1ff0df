/** The production artifacts and the findings that the deterministic validator raises about
    them (playwright/schemas, playwright/validator.py). */
module PlaywrightArtifacts {
  import opened Collections
  import opened Json

  // ---- artifacts, as far as validation and repair read them ----

  datatype Paragraph = Paragraph(id: string, text: string, claims: seq<string>, evidence: seq<string>,
      citationRequired: bool)

  datatype Section = Section(id: string, paragraphs: seq<Paragraph>)

  datatype Draft = Draft(id: string, narrativeId: string, characterCount: nat, sections: seq<Section>)

  datatype NarrativeSection = NarrativeSection(id: string, kind: string, seconds: nat, claims: seq<string>,
      evidence: seq<string>)

  datatype Narrative = Narrative(id: string, contextId: string, seconds: nat, sections: seq<NarrativeSection>)

  datatype ClaimType =
    | SupportedFact | PartiallySupported | Interpretation | NormativeJudgment | RhetoricalExpression
    | Unsupported | NotVerifiable

  datatype Mapping = Mapping(
    id: string, paragraph: string, text: string, kind: ClaimType,
    claims: seq<string>, evidence: seq<string>, sources: seq<string>,
    locator: Option<seq<string>>, support: string, risk: string, revision: Option<string>)

  datatype Issue = Issue(paragraph: string, reason: string, claims: seq<string>, evidence: seq<string>,
      sources: seq<string>)

  datatype Manifest = Manifest(
    id: string, draftId: string, supportedClaims: seq<string>, mappings: seq<Mapping>,
    unsupportedClaims: seq<Issue>, missingLocators: seq<Issue>, sourceList: seq<(string, string)>)

  datatype ValidatedScript = ValidatedScript(
    id: string, draftId: string, manifestId: string, sections: seq<Section>,
    unresolved: seq<Issue>, limitations: seq<string>)

  datatype Cue = Cue(
    id: string, section: string, paragraph: string, evidence: seq<string>, sources: seq<string>, assets: seq<string>,
    factual: bool, showsCitation: bool)

  datatype Chart = Chart(paragraph: string, sources: seq<string>, evidence: seq<string>)

  datatype VisualPlan = VisualPlan(scriptId: string, cues: seq<Cue>, charts: seq<Chart>, assets: seq<string>)

  /** An entry of the source manifest; either ID may be absent. */
  datatype SourceEntry = SourceEntry(evidence: Option<string>, source: Option<string>)

  datatype Context = Context(
    id: string, claims: seq<string>, evidence: seq<string>, limitations: seq<string>,
    sources: seq<SourceEntry>, acceptedGaps: set<string>)

  /** `conclusionKept` stands for the comparison of the final conclusion with its hash. */
  datatype Artifacts = Artifacts(
    context: Context, narrative: Narrative, draft: Draft, script: ValidatedScript, manifest: Manifest,
    visuals: VisualPlan, conclusionKept: bool)

  // ---- derived sets ----

  function AllParagraphs(sections: seq<Section>): seq<Paragraph> {
    if sections == [] then [] else sections[0].paragraphs + AllParagraphs(sections[1..])
  }

  /** `{p.paragraph_id: p for ...}`: a later paragraph with the same ID wins. */
  function ById(ps: seq<Paragraph>): (r: map<string, Paragraph>)
    ensures forall id :: id in r ==> r[id] in ps && r[id].id == id
    ensures forall p | p in ps :: p.id in r
  {
    if ps == [] then map[]
    else
      var init, last := ps[..|ps| - 1], ps[|ps| - 1];
      assert ps == init + [last];
      ById(init)[last.id := last]
  }

  function DraftParagraphs(a: Artifacts): map<string, Paragraph> {
    ById(AllParagraphs(a.draft.sections))
  }

  function ScriptParagraphs(a: Artifacts): map<string, Paragraph> {
    ById(AllParagraphs(a.script.sections))
  }

  /** `dict.fromkeys` of the claims of a list of paragraphs: first occurrences, in order. */
  function FirstUse(ps: seq<Paragraph>): (r: seq<string>)
    ensures forall c :: c in r <==> exists p :: p in ps && c in p.claims
  {
    if ps == [] then []
    else
      var init, last := ps[..|ps| - 1], ps[|ps| - 1];
      assert ps == init + [last];
      AddNew(FirstUse(init), last.claims)
  }

  function AddNew(known: seq<string>, more: seq<string>): (r: seq<string>)
    ensures forall c :: c in r <==> c in known || c in more
    decreases |more|
  {
    if more == [] then known
    else AddNew(if more[0] in known then known else known + [more[0]], more[1..])
  }

  /** `canonical_script_claim_ids`: the claim set the script owns. */
  function CanonicalClaims(draft: Draft): seq<string> {
    FirstUse(AllParagraphs(draft.sections))
  }

  predicate NoRepeats(s: seq<string>) {
    forall i, j | 0 <= i < j < |s| :: s[i] != s[j]
  }

  lemma {:induction false} AddNewKeepsNoRepeats(known: seq<string>, more: seq<string>)
    requires NoRepeats(known)
    ensures NoRepeats(AddNew(known, more)) && known <= AddNew(known, more)
    decreases |more|
  {
    if more != [] {
      AddNewKeepsNoRepeats(if more[0] in known then known else known + [more[0]], more[1..]);
    }
  }

  /** Every claim of the script exactly once. */
  lemma {:induction false} FirstUseHasNoRepeats(ps: seq<Paragraph>)
    ensures NoRepeats(FirstUse(ps))
  {
    if ps != [] {
      FirstUseHasNoRepeats(ps[..|ps| - 1]);
      AddNewKeepsNoRepeats(FirstUse(ps[..|ps| - 1]), ps[|ps| - 1].claims);
    }
  }

  function KnownSources(a: Artifacts): (r: set<string>)
    ensures forall x :: x in r <==> x != "" && exists e :: e in a.context.sources && e.source == Some(x)
  {
    set e | e in a.context.sources && e.source.Some? && e.source.value != "" :: e.source.value
  }

  function ManifestEvidence(a: Artifacts): set<string> {
    set e | e in a.context.sources && e.evidence.Some? && e.evidence.value != "" :: e.evidence.value
  }

  function ClaimsOf(ms: seq<Mapping>): (r: set<string>)
    ensures forall c :: c in r <==> exists m :: m in ms && c in m.claims
  {
    set m, c | m in ms && c in m.claims :: c
  }

  function EvidenceOf(ms: seq<Mapping>): (r: set<string>)
    ensures forall c :: c in r <==> exists m :: m in ms && c in m.evidence
  {
    set m, c | m in ms && c in m.evidence :: c
  }

  /** `mappings_by_paragraph[paragraph_id]`. */
  function MappingsFor(ms: seq<Mapping>, paragraph: string): (r: seq<Mapping>)
    ensures forall m :: m in r <==> m in ms && m.paragraph == paragraph
  {
    if ms == [] then []
    else
      var init, last := ms[..|ms| - 1], ms[|ms| - 1];
      assert ms == init + [last];
      MappingsFor(init, paragraph) + if last.paragraph == paragraph then [last] else []
  }

  // ---- findings ----

  datatype Code =
    | FinalConclusionChanged | NarrativeContextMismatch | ScriptNarrativeMismatch | CitationScriptMismatch
    | ManifestScriptMismatch | CitationManifestMismatch | VisualScriptMismatch
    | NarrativeRequiredSectionMissing | NarrativeClaimCoverage | NarrativeEvidenceCoverage | NarrativeDurationMismatch
    | ScriptSectionMismatch | ValidatedScriptNewParagraph | ValidatedScriptParagraphMissing
    | ValidatedScriptTraceabilityChanged | CitationManifestClaimSetMismatch | ScriptCharacterCountMismatch
    | CitationUnknownParagraph | CitationUnknownClaim | CitationUnknownEvidence | CitationUnknownSource
    | UnsupportedClaimRemains | CitationMappingMissing | CitationMappingTraceabilityMismatch
    | ScriptUnknownClaim | ScriptUnknownEvidence
    | UnsupportedClaimListNotEmpty | CitationLocatorMissing | LimitationDisclosureMissing
    | VisualUnknownParagraph | VisualUnknownSection | VisualFactAddition | VisualUnknownSource | VisualUnknownAsset
    | FactualVisualWithoutCitation
    | ChartUnknownParagraph | ChartSourceMissing | ChartUnknownSource | ChartUnknownEvidence

  /** What a finding carries; sorted lists are sets here. */
  datatype Details =
    | Plain
    | Missing(ids: set<string>)
    | Difference(missing: set<string>, unexpected: set<string>)
    | InParagraph(paragraph: string)
    | Unmapped(paragraph: string, claims: seq<string>, evidence: seq<string>)
    | UnsupportedMapping(mapping: string, paragraph: string, claims: seq<string>, evidence: seq<string>)
    | Mismatch(paragraph: string, mappedClaims: set<string>, mappedEvidence: set<string>)
    | Issues(paragraphs: set<string>, issueClaims: set<string>)
    | InCue(cue: string, paragraph: string, ids: set<string>)

  datatype Finding = Finding(code: Code, details: Details)

  /** All findings are errors, two warnings aside. */
  predicate IsError(code: Code) {
    code != NarrativeDurationMismatch && code != ScriptCharacterCountMismatch
  }

  /** One test of the validator: what it raises when it fails. */
  datatype Check = Check(failed: bool, code: Code, details: Details)

  function Raise(checks: seq<Check>): seq<Finding> {
    if checks == [] then []
    else (if checks[0].failed then [Finding(checks[0].code, checks[0].details)] else []) + Raise(checks[1..])
  }

  lemma {:induction false} RaiseIff(checks: seq<Check>, f: Finding)
    ensures f in Raise(checks) <==>
              exists i | 0 <= i < |checks| :: checks[i].failed && f == Finding(checks[i].code, checks[i].details)
  {
    if checks != [] {
      RaiseIff(checks[1..], f);
      assert forall i | 0 < i < |checks| :: checks[i] == checks[1..][i - 1];
      if i :|
          0 <= i < |checks[1..]| && checks[1..][i].failed
          && f == Finding(checks[1..][i].code, checks[1..][i].details) {
        assert checks[i + 1].failed;
      }
    }
  }

  function IdentityChecks(a: Artifacts): seq<Check> {
    [
      Check(!a.conclusionKept, FinalConclusionChanged, Plain),
      Check(a.narrative.contextId != a.context.id, NarrativeContextMismatch, Plain),
      Check(a.draft.narrativeId != a.narrative.id, ScriptNarrativeMismatch, Plain),
      Check(a.script.draftId != a.draft.id, CitationScriptMismatch, Plain),
      Check(a.manifest.draftId != a.draft.id, ManifestScriptMismatch, Plain),
      Check(a.script.manifestId != a.manifest.id, CitationManifestMismatch, Plain),
      Check(a.visuals.scriptId != a.script.id, VisualScriptMismatch, Plain)
    ]
  }

  function IdentityFindings(a: Artifacts): seq<Finding> {
    Raise(IdentityChecks(a))
  }

  function RequiredKinds(a: Artifacts): set<string> {
    {"QUESTION", "EVIDENCE", "DECISION", "CONCLUSION"} + if a.context.limitations != [] then {"LIMITATION"} else {}
  }

  function NarrativeKinds(a: Artifacts): set<string> {
    set s | s in a.narrative.sections :: s.kind
  }

  function NarrativeClaims(a: Artifacts): set<string> {
    set s, c | s in a.narrative.sections && c in s.claims :: c
  }

  function NarrativeEvidence(a: Artifacts): set<string> {
    set s, c | s in a.narrative.sections && c in s.evidence :: c
  }

  function TotalSeconds(sections: seq<NarrativeSection>): nat {
    if sections == [] then 0 else TotalSeconds(sections[..|sections| - 1]) + sections[|sections| - 1].seconds
  }

  /** More than the floor and more than a fifth apart. */
  predicate FarApart(x: nat, y: nat, floor: nat, of: nat) {
    var delta := if x > y then x - y else y - x;
    delta > floor && delta > of / 5
  }

  function NarrativeChecks(a: Artifacts): seq<Check> {
    var kinds := RequiredKinds(a) - NarrativeKinds(a);
    var claims := Elems(a.context.claims) - NarrativeClaims(a);
    var evidence := Elems(a.context.evidence) - NarrativeEvidence(a);
    [
      Check(kinds != {}, NarrativeRequiredSectionMissing, Missing(kinds)),
      Check(claims != {}, NarrativeClaimCoverage, Missing(claims)),
      Check(evidence != {}, NarrativeEvidenceCoverage, Missing(evidence)),
      Check(FarApart(TotalSeconds(a.narrative.sections), a.narrative.seconds, 30, a.narrative.seconds),
           NarrativeDurationMismatch, Plain)
    ]
  }

  function NarrativeFindings(a: Artifacts): seq<Finding> {
    Raise(NarrativeChecks(a))
  }

  function DraftSectionIds(a: Artifacts): set<string> {
    set s | s in a.draft.sections :: s.id
  }

  function NarrativeSectionIds(a: Artifacts): set<string> {
    set s | s in a.narrative.sections :: s.id
  }

  function ScriptChecks(a: Artifacts): seq<Check> {
    var draft, script := DraftParagraphs(a).Keys, ScriptParagraphs(a).Keys;
    [
      Check(DraftSectionIds(a) != NarrativeSectionIds(a), ScriptSectionMismatch,
         Difference(NarrativeSectionIds(a) - DraftSectionIds(a), DraftSectionIds(a) - NarrativeSectionIds(a))),
      Check(script - draft != {}, ValidatedScriptNewParagraph, Plain),
      Check(draft - script != {}, ValidatedScriptParagraphMissing, Missing(draft - script))
    ]
  }

  function ScriptFindings(a: Artifacts): seq<Finding> {
    Raise(ScriptChecks(a))
  }

  predicate TraceabilityChanged(a: Artifacts, id: string) {
    && id in DraftParagraphs(a) && id in ScriptParagraphs(a)
    && var d, s := DraftParagraphs(a)[id], ScriptParagraphs(a)[id];
       d.claims != s.claims || d.evidence != s.evidence || d.citationRequired != s.citationRequired
  }

  /** The length of the paragraphs that `ById` keeps: of several with one ID, the last. */
  function TextLength(ps: seq<Paragraph>): nat {
    if ps == [] then 0
    else (if exists p | p in ps[1..] :: p.id == ps[0].id then 0 else |ps[0].text|) + TextLength(ps[1..])
  }

  function ClaimSetChecks(a: Artifacts): seq<Check> {
    var script, manifest := Elems(CanonicalClaims(a.draft)), Elems(a.manifest.supportedClaims);
    [
      Check(script != manifest, CitationManifestClaimSetMismatch, Difference(script - manifest, manifest - script))
    ]
  }

  function ClaimSetFindings(a: Artifacts): seq<Finding> {
    Raise(ClaimSetChecks(a))
  }

  function CountChecks(a: Artifacts): seq<Check> {
    var actual := TextLength(AllParagraphs(a.draft.sections));
    [
      Check(FarApart(actual, a.draft.characterCount, 50, actual), ScriptCharacterCountMismatch, Plain)
    ]
  }

  function CountFindings(a: Artifacts): seq<Finding> {
    Raise(CountChecks(a))
  }

  /** What the mapping loop adds for one mapping. */
  function MappingChecks(a: Artifacts, m: Mapping): seq<Check> {
    var claims := Elems(m.claims) - Elems(a.context.claims);
    var evidence := Elems(m.evidence) - Elems(a.context.evidence);
    var sources := Elems(m.sources) - KnownSources(a);
    [
      Check(m.paragraph !in DraftParagraphs(a), CitationUnknownParagraph, InParagraph(m.paragraph)),
      Check(claims != {}, CitationUnknownClaim, Missing(claims)),
      Check(evidence != {}, CitationUnknownEvidence, Missing(evidence)),
      Check(sources != {}, CitationUnknownSource, Missing(sources)),
      Check(m.kind == Unsupported, UnsupportedClaimRemains, UnsupportedMapping(m.id, m.paragraph, m.claims, m.evidence))
    ]
  }

  function MappingFindings(a: Artifacts, m: Mapping): seq<Finding> {
    Raise(MappingChecks(a, m))
  }

  /** What the paragraph loop adds for one paragraph of the draft. */
  function ParagraphChecks(a: Artifacts, p: Paragraph): seq<Check> {
    var mapped := MappingsFor(a.manifest.mappings, p.id);
    var claims, evidence := ClaimsOf(mapped), EvidenceOf(mapped);
    [
      Check(p.citationRequired && mapped == [], CitationMappingMissing, Unmapped(p.id, p.claims, p.evidence)),
      Check(p.citationRequired && mapped != [] && (claims != Elems(p.claims) || evidence != Elems(p.evidence)),
           CitationMappingTraceabilityMismatch, Mismatch(p.id, claims, evidence)),
      Check(Elems(p.claims) - Elems(a.context.claims) != {}, ScriptUnknownClaim, InParagraph(p.id)),
      Check(Elems(p.evidence) - Elems(a.context.evidence) != {}, ScriptUnknownEvidence, InParagraph(p.id))
    ]
  }

  function ParagraphFindings(a: Artifacts, p: Paragraph): seq<Finding> {
    Raise(ParagraphChecks(a, p))
  }

  function IssueParagraphs(issues: seq<Issue>): set<string> {
    set i | i in issues :: i.paragraph
  }

  function IssueClaims(issues: seq<Issue>): set<string> {
    set i, c | i in issues && c in i.claims :: c
  }

  function ListChecks(a: Artifacts): seq<Check> {
    var limitations := Elems(a.context.limitations) - Elems(a.script.limitations);
    [
      Check(a.manifest.unsupportedClaims != [], UnsupportedClaimListNotEmpty,
         Issues(IssueParagraphs(a.manifest.unsupportedClaims), IssueClaims(a.manifest.unsupportedClaims))),
      Check(a.manifest.missingLocators != [], CitationLocatorMissing,
          Issues(IssueParagraphs(a.manifest.missingLocators), {})),
      Check(limitations != {}, LimitationDisclosureMissing, Missing(limitations))
    ]
  }

  function ListFindings(a: Artifacts): seq<Finding> {
    Raise(ListChecks(a))
  }

  function ScriptSectionIds(a: Artifacts): set<string> {
    set s | s in a.script.sections :: s.id
  }

  function CueChecks(a: Artifacts, c: Cue): seq<Check> {
    if c.paragraph !in ScriptParagraphs(a) then [Check(true, VisualUnknownParagraph, InParagraph(c.paragraph))]
    else
      var added := Elems(c.evidence) - Elems(ScriptParagraphs(a)[c.paragraph].evidence);
      var assets := Elems(c.assets) - Elems(a.visuals.assets);
      [
        Check(c.section !in ScriptSectionIds(a), VisualUnknownSection, Plain),
        Check(added != {}, VisualFactAddition, InCue(c.id, c.paragraph, added)),
        Check(Elems(c.sources) - KnownSources(a) != {}, VisualUnknownSource, Plain),
        Check(assets != {}, VisualUnknownAsset, InCue(c.id, c.paragraph, assets)),
        Check(c.factual && !c.showsCitation, FactualVisualWithoutCitation, Plain)
      ]
  }

  function CueFindings(a: Artifacts, c: Cue): seq<Finding> {
    Raise(CueChecks(a, c))
  }

  function ChartChecks(a: Artifacts, c: Chart): seq<Check> {
    [
      Check(c.paragraph !in ScriptParagraphs(a), ChartUnknownParagraph, Plain),
      Check(c.sources == [], ChartSourceMissing, Plain),
      Check(c.sources != [] && Elems(c.sources) - KnownSources(a) != {}, ChartUnknownSource, Plain),
      Check(Elems(c.evidence) - (Elems(a.context.evidence) + ManifestEvidence(a)) != {}, ChartUnknownEvidence, Plain)
    ]
  }

  function ChartFindings(a: Artifacts, c: Chart): seq<Finding> {
    Raise(ChartChecks(a, c))
  }

  predicate TraceabilityRaised(a: Artifacts, f: Finding) {
    f.code == ValidatedScriptTraceabilityChanged && f.details.InParagraph?
        && TraceabilityChanged(a, f.details.paragraph)
  }

  predicate MappingRaised(a: Artifacts, f: Finding) {
    exists m | m in a.manifest.mappings :: f in MappingFindings(a, m)
  }

  predicate ParagraphRaised(a: Artifacts, f: Finding) {
    exists id | id in DraftParagraphs(a) :: f in ParagraphFindings(a, DraftParagraphs(a)[id])
  }

  predicate CueRaised(a: Artifacts, f: Finding) {
    exists c | c in a.visuals.cues :: f in CueFindings(a, c)
  }

  predicate ChartRaised(a: Artifacts, f: Finding) {
    exists c | c in a.visuals.charts :: f in ChartFindings(a, c)
  }

  /** The findings that do not come from a loop over mappings, paragraphs or visuals. */
  function DirectFindings(a: Artifacts): seq<Finding> {
    IdentityFindings(a) + NarrativeFindings(a) + ScriptFindings(a) + ClaimSetFindings(a) + CountFindings(a)
    + ListFindings(a)
  }

  lemma DirectAre(a: Artifacts, f: Finding)
    ensures f in DirectFindings(a) <==>
              || f in IdentityFindings(a) || f in NarrativeFindings(a) || f in ScriptFindings(a)
              || f in ClaimSetFindings(a) || f in CountFindings(a) || f in ListFindings(a)
  {
  }

  /** The validator raises this finding about the artifacts. */
  predicate Raised(a: Artifacts, f: Finding) {
    || f in DirectFindings(a) || TraceabilityRaised(a, f) || MappingRaised(a, f) || ParagraphRaised(a, f)
    || CueRaised(a, f) || ChartRaised(a, f)
  }

  ghost predicate Passes(a: Artifacts) {
    forall f | Raised(a, f) :: !IsError(f.code)
  }
}
