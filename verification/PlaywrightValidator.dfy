/** The deterministic validator as it runs, `PlaywrightValidator.validate`
    (playwright/validator.py). Findings are compared as a set: their IDs and order are left to
    the caller. */
module PlaywrightValidator {
  import opened Collections
  import opened PlaywrightArtifacts

  datatype Validation = Validation(isValid: bool, findings: seq<Finding>)

  /** The mappings of each paragraph, filled while the mapping loop runs. */
  method GroupMappings(mappings: seq<Mapping>) returns (groups: map<string, seq<Mapping>>)
    ensures forall p :: p in groups <==> MappingsFor(mappings, p) != []
    ensures forall p | p in groups :: groups[p] == MappingsFor(mappings, p)
  {
    groups := map[];
    for i := 0 to |mappings|
      invariant forall p :: p in groups <==> MappingsFor(mappings[..i], p) != []
      invariant forall p | p in groups :: groups[p] == MappingsFor(mappings[..i], p)
    {
      var m := mappings[i];
      assert mappings[..i + 1] == mappings[..i] + [m];
      assert (mappings[..i] + [m])[..i] == mappings[..i];
      if m.paragraph in groups {
        groups := groups[m.paragraph := groups[m.paragraph] + [m]];
      } else {
        groups := groups[m.paragraph := [m]];
      }
    }
    assert mappings[..|mappings|] == mappings;
  }

  method CheckMappings(a: Artifacts) returns (findings: seq<Finding>)
    ensures forall f :: f in findings <==> MappingRaised(a, f)
  {
    hide MappingFindings;
    findings := [];
    var ms := a.manifest.mappings;
    for i := 0 to |ms|
      invariant forall f :: f in findings <==> exists k | 0 <= k < i :: f in MappingFindings(a, ms[k])
    {
      findings := findings + MappingFindings(a, ms[i]);
    }
    forall f ensures f in findings <==> MappingRaised(a, f) {
      if f in findings {
        var k :| 0 <= k < |ms| && f in MappingFindings(a, ms[k]);
        assert ms[k] in ms;
      }
      if m :| m in ms && f in MappingFindings(a, m) {
        var k :| 0 <= k < |ms| && ms[k] == m;
      }
    }
  }

  method CheckTraceability(a: Artifacts) returns (findings: seq<Finding>)
    ensures forall f :: f in findings <==> TraceabilityRaised(a, f)
  {
    findings := [];
    var left := DraftParagraphs(a).Keys * ScriptParagraphs(a).Keys;
    while left != {}
      invariant left <= DraftParagraphs(a).Keys * ScriptParagraphs(a).Keys
      invariant forall f :: f in findings <==> TraceabilityRaised(a, f) && f.details.paragraph !in left
    {
      var id :| id in left;
      if TraceabilityChanged(a, id) {
        findings := findings + [Finding(ValidatedScriptTraceabilityChanged, InParagraph(id))];
      }
      left := left - {id};
    }
  }

  lemma ParagraphFindingsAre(a: Artifacts, p: Paragraph, f: Finding)
    ensures var c := ParagraphChecks(a, p);
            f in ParagraphFindings(a, p) <==>
              || (c[0].failed && f == Finding(c[0].code, c[0].details))
              || (c[1].failed && f == Finding(c[1].code, c[1].details))
              || (c[2].failed && f == Finding(c[2].code, c[2].details))
              || (c[3].failed && f == Finding(c[3].code, c[3].details))
  {
    RaiseIff(ParagraphChecks(a, p), f);
  }

  /** One turn of the paragraph loop. */
  method CheckParagraph(a: Artifacts, p: Paragraph, groups: map<string, seq<Mapping>>) returns (findings: seq<Finding>)
    requires forall q :: q in groups <==> MappingsFor(a.manifest.mappings, q) != []
    requires forall q | q in groups :: groups[q] == MappingsFor(a.manifest.mappings, q)
    ensures forall f :: f in findings <==> f in ParagraphFindings(a, p)
  {
    findings := [];
    var mapped := if p.id in groups then groups[p.id] else [];
    assert mapped == MappingsFor(a.manifest.mappings, p.id);
    var claims, evidence := ClaimsOf(mapped), EvidenceOf(mapped);
    if p.citationRequired && p.id !in groups {
      findings := findings + [Finding(CitationMappingMissing, Unmapped(p.id, p.claims, p.evidence))];
    } else if p.citationRequired && (claims != Elems(p.claims) || evidence != Elems(p.evidence)) {
      findings := findings + [Finding(CitationMappingTraceabilityMismatch, Mismatch(p.id, claims, evidence))];
    }
    if Elems(p.claims) - Elems(a.context.claims) != {} {
      findings := findings + [Finding(ScriptUnknownClaim, InParagraph(p.id))];
    }
    if Elems(p.evidence) - Elems(a.context.evidence) != {} {
      findings := findings + [Finding(ScriptUnknownEvidence, InParagraph(p.id))];
    }
    forall f ensures f in findings <==> f in ParagraphFindings(a, p) {
      ParagraphFindingsAre(a, p, f);
    }
  }

  method CheckParagraphs(a: Artifacts) returns (findings: seq<Finding>)
    ensures forall f :: f in findings <==> ParagraphRaised(a, f)
  {
    findings := [];
    var groups := GroupMappings(a.manifest.mappings);
    var draft := DraftParagraphs(a);
    var left := draft.Keys;
    while left != {}
      invariant left <= draft.Keys
      invariant forall f :: f in findings <==> exists id | id in draft && id !in left ::
                f in ParagraphFindings(a, draft[id])
    {
      var id :| id in left;
      var more := CheckParagraph(a, draft[id], groups);
      findings := findings + more;
      left := left - {id};
    }
  }

  method CheckVisuals(a: Artifacts) returns (findings: seq<Finding>)
    ensures forall f :: f in findings <==> CueRaised(a, f) || ChartRaised(a, f)
  {
    hide CueFindings, ChartFindings;
    findings := [];
    var cues, charts := a.visuals.cues, a.visuals.charts;
    for i := 0 to |cues|
      invariant forall f :: f in findings <==> exists k | 0 <= k < i :: f in CueFindings(a, cues[k])
    {
      findings := findings + CueFindings(a, cues[i]);
    }
    assert forall f :: f in findings <==> CueRaised(a, f) by {
      forall f ensures f in findings <==> CueRaised(a, f) {
        if c :| c in cues && f in CueFindings(a, c) {
          var k :| 0 <= k < |cues| && cues[k] == c;
        }
      }
    }
    ghost var seen := findings;
    for i := 0 to |charts|
      invariant forall f :: f in findings <==> f in seen || exists k | 0 <= k < i :: f in ChartFindings(a, charts[k])
    {
      findings := findings + ChartFindings(a, charts[i]);
    }
    forall f ensures f in findings <==> f in seen || ChartRaised(a, f) {
      if c :| c in charts && f in ChartFindings(a, c) {
        var k :| 0 <= k < |charts| && charts[k] == c;
      }
    }
  }

  /** All findings, block by block. */
  method CheckAll(a: Artifacts) returns (findings: seq<Finding>)
    ensures forall f :: f in findings <==> Raised(a, f)
  {
    var direct := DirectFindings(a);
    var traceability := CheckTraceability(a);
    var mappings := CheckMappings(a);
    var paragraphs := CheckParagraphs(a);
    var visuals := CheckVisuals(a);
    findings := direct + traceability;
    findings := findings + mappings;
    findings := findings + paragraphs;
    findings := findings + visuals;
  }

  /** The findings are exactly those the artifacts raise, and the result is valid exactly when
      none of them is an error. */
  method Validate(a: Artifacts) returns (v: Validation)
    ensures forall f :: f in v.findings <==> Raised(a, f)
    ensures v.isValid <==> Passes(a)
  {
    var findings := CheckAll(a);
    var errors := 0;
    for i := 0 to |findings|
      invariant errors == 0 <==> forall k | 0 <= k < i :: !IsError(findings[k].code)
      invariant errors >= 0
    {
      if IsError(findings[i].code) {
        errors := errors + 1;
      }
    }
    NoErrors(a, findings);
    return Validation(errors == 0, findings);
  }

  lemma NoErrors(a: Artifacts, findings: seq<Finding>)
    requires forall f :: f in findings <==> Raised(a, f)
    ensures Passes(a) <==> forall k | 0 <= k < |findings| :: !IsError(findings[k].code)
  {
    if forall k | 0 <= k < |findings| :: !IsError(findings[k].code) {
      forall f | Raised(a, f) ensures !IsError(f.code) {
        assert f in findings;
      }
    } else {
      var k :| 0 <= k < |findings| && IsError(findings[k].code);
      assert findings[k] in findings;
    }
  }
}
