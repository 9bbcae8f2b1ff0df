/** What it means for production artifacts to pass: the conditions behind the validator's
    findings, and that they are exactly what it checks (playwright/validator.py). */
module PlaywrightConsistency {
  import opened Collections
  import opened PlaywrightArtifacts

  predicate Linked(a: Artifacts) {
    && a.conclusionKept
    && a.narrative.contextId == a.context.id && a.draft.narrativeId == a.narrative.id
    && a.script.draftId == a.draft.id && a.manifest.draftId == a.draft.id && a.script.manifestId == a.manifest.id
    && a.visuals.scriptId == a.script.id
  }

  /** The narrative has every required kind of section and places every mandatory ID. */
  predicate NarrativeCovers(a: Artifacts) {
    && RequiredKinds(a) <= NarrativeKinds(a)
    && Elems(a.context.claims) <= NarrativeClaims(a) && Elems(a.context.evidence) <= NarrativeEvidence(a)
  }

  predicate SectionsMatch(a: Artifacts) {
    DraftSectionIds(a) == NarrativeSectionIds(a)
  }

  /** Editing kept exactly the draft's paragraphs and their traceability. */
  predicate ParagraphsKept(a: Artifacts) {
    && DraftParagraphs(a).Keys == ScriptParagraphs(a).Keys
    && forall id | id in DraftParagraphs(a) :: !TraceabilityChanged(a, id)
  }

  predicate ClaimsAgree(a: Artifacts) {
    Elems(CanonicalClaims(a.draft)) == Elems(a.manifest.supportedClaims)
  }

  /** A mapping refers only to things that exist. */
  predicate KnownMapping(a: Artifacts, m: Mapping) {
    && m.paragraph in DraftParagraphs(a)
    && Elems(m.claims) <= Elems(a.context.claims) && Elems(m.evidence) <= Elems(a.context.evidence)
    && Elems(m.sources) <= KnownSources(a)
  }

  /** A paragraph that needs a citation has one, and its mappings reproduce its traceability. */
  predicate Mapped(a: Artifacts, p: Paragraph) {
    p.citationRequired ==> MappingsFor(a.manifest.mappings, p.id) != []
  }

  predicate Reproduced(a: Artifacts, p: Paragraph) {
    var mapped := MappingsFor(a.manifest.mappings, p.id);
    p.citationRequired && mapped != [] ==>
        ClaimsOf(mapped) == Elems(p.claims) && EvidenceOf(mapped) == Elems(p.evidence)
  }

  predicate KnownParagraph(a: Artifacts, p: Paragraph) {
    Elems(p.claims) <= Elems(a.context.claims) && Elems(p.evidence) <= Elems(a.context.evidence)
  }

  predicate Disclosed(a: Artifacts) {
    a.manifest.missingLocators == [] && Elems(a.context.limitations) <= Elems(a.script.limitations)
  }

  predicate SoundCue(a: Artifacts, c: Cue) {
    && c.paragraph in ScriptParagraphs(a)
    && c.section in ScriptSectionIds(a)
    && Elems(c.evidence) <= Elems(ScriptParagraphs(a)[c.paragraph].evidence)
    && Elems(c.sources) <= KnownSources(a) && Elems(c.assets) <= Elems(a.visuals.assets)
    && (c.factual ==> c.showsCitation)
  }

  predicate SoundChart(a: Artifacts, c: Chart) {
    && c.paragraph in ScriptParagraphs(a)
    && c.sources != [] && Elems(c.sources) <= KnownSources(a)
    && Elems(c.evidence) <= Elems(a.context.evidence) + ManifestEvidence(a)
  }

  /** All conditions but the three that the deterministic repair can restore. */
  predicate SoundBase(a: Artifacts) {
    && Linked(a) && NarrativeCovers(a) && SectionsMatch(a) && ParagraphsKept(a) && ClaimsAgree(a) && Disclosed(a)
    && (forall m | m in a.manifest.mappings :: KnownMapping(a, m))
    && (forall id | id in DraftParagraphs(a) ::
         Reproduced(a, DraftParagraphs(a)[id]) && KnownParagraph(a, DraftParagraphs(a)[id]))
    && (forall c | c in a.visuals.cues :: SoundCue(a, c))
    && (forall c | c in a.visuals.charts :: SoundChart(a, c))
  }

  predicate Cited(a: Artifacts) {
    && (forall id | id in DraftParagraphs(a) :: Mapped(a, DraftParagraphs(a)[id]))
    && (forall m | m in a.manifest.mappings :: m.kind != Unsupported)
    && a.manifest.unsupportedClaims == []
  }

  predicate Repairable(code: Code) {
    code == CitationMappingMissing || code == UnsupportedClaimListNotEmpty || code == UnsupportedClaimRemains
  }

  predicate Blocks(f: Finding) {
    IsError(f.code) && !Repairable(f.code)
  }

  // ---- block by block ----

  /** None of the tests raises an error beyond the repairable ones. */
  predicate NoBlock(checks: seq<Check>) {
    forall i | 0 <= i < |checks| && checks[i].failed :: !IsError(checks[i].code) || Repairable(checks[i].code)
  }

  lemma RaiseBlocks(checks: seq<Check>)
    ensures (forall f | f in Raise(checks) :: !Blocks(f)) <==> NoBlock(checks)
  {
    if forall f | f in Raise(checks) :: !Blocks(f) {
      forall i | 0 <= i < |checks| && checks[i].failed ensures !IsError(checks[i].code) || Repairable(checks[i].code) {
        var f := Finding(checks[i].code, checks[i].details);
        RaiseIff(checks, f);
        assert !Blocks(f);
      }
    } else {
      var f :| f in Raise(checks) && Blocks(f);
      RaiseIff(checks, f);
    }
  }

  lemma Minus(a: set<string>, b: set<string>)
    ensures a - b == {} <==> a <= b
  {
    if a - b == {} {
      forall x | x in a ensures x in b {
        assert x !in a - b;
      }
    }
  }

  lemma IdentityBlock(a: Artifacts)
    ensures NoBlock(IdentityChecks(a)) <==> Linked(a)
  {
    var c := IdentityChecks(a);
    assert c[0].failed == !a.conclusionKept;
    assert c[1].failed == (a.narrative.contextId != a.context.id);
    assert c[2].failed == (a.draft.narrativeId != a.narrative.id);
    assert c[3].failed == (a.script.draftId != a.draft.id);
    assert c[4].failed == (a.manifest.draftId != a.draft.id);
    assert c[5].failed == (a.script.manifestId != a.manifest.id);
    assert c[6].failed == (a.visuals.scriptId != a.script.id);
  }

  lemma NarrativeBlock(a: Artifacts)
    ensures NoBlock(NarrativeChecks(a)) <==> NarrativeCovers(a)
  {
    var c := NarrativeChecks(a);
    Minus(RequiredKinds(a), NarrativeKinds(a));
    assert c[0].failed <==> !(RequiredKinds(a) <= NarrativeKinds(a));
    Minus(Elems(a.context.claims), NarrativeClaims(a));
    assert c[1].failed <==> !(Elems(a.context.claims) <= NarrativeClaims(a));
    Minus(Elems(a.context.evidence), NarrativeEvidence(a));
    assert c[2].failed <==> !(Elems(a.context.evidence) <= NarrativeEvidence(a));
    assert !IsError(c[3].code);
  }

  lemma SetsDiffer(a: set<string>, b: set<string>)
    ensures a - b == {} && b - a == {} <==> a == b
  {
    Minus(a, b);
    Minus(b, a);
  }

  lemma ScriptBlock(a: Artifacts)
    ensures NoBlock(ScriptChecks(a)) <==> SectionsMatch(a) && DraftParagraphs(a).Keys == ScriptParagraphs(a).Keys
  {
    var c := ScriptChecks(a);
    SetsDiffer(DraftParagraphs(a).Keys, ScriptParagraphs(a).Keys);
    assert c[0].failed <==> !SectionsMatch(a);
    assert c[1].failed <==> ScriptParagraphs(a).Keys - DraftParagraphs(a).Keys != {};
    assert c[2].failed <==> DraftParagraphs(a).Keys - ScriptParagraphs(a).Keys != {};
  }

  lemma ClaimSetBlock(a: Artifacts)
    ensures NoBlock(ClaimSetChecks(a)) <==> ClaimsAgree(a)
  {
    assert ClaimSetChecks(a)[0].failed <==> !ClaimsAgree(a);
  }

  lemma CountBlock(a: Artifacts)
    ensures NoBlock(CountChecks(a))
  {
    assert !IsError(CountChecks(a)[0].code);
  }

  lemma MappingBlock(a: Artifacts, m: Mapping)
    ensures NoBlock(MappingChecks(a, m)) <==> KnownMapping(a, m)
  {
    var c := MappingChecks(a, m);
    assert c[0].failed <==> m.paragraph !in DraftParagraphs(a);
    Minus(Elems(m.claims), Elems(a.context.claims));
    assert c[1].failed <==> !(Elems(m.claims) <= Elems(a.context.claims));
    Minus(Elems(m.evidence), Elems(a.context.evidence));
    assert c[2].failed <==> !(Elems(m.evidence) <= Elems(a.context.evidence));
    Minus(Elems(m.sources), KnownSources(a));
    assert c[3].failed <==> !(Elems(m.sources) <= KnownSources(a));
    assert Repairable(c[4].code);
  }

  lemma ParagraphBlock(a: Artifacts, p: Paragraph)
    ensures NoBlock(ParagraphChecks(a, p)) <==> Reproduced(a, p) && KnownParagraph(a, p)
  {
    var c := ParagraphChecks(a, p);
    assert Repairable(c[0].code);
    assert c[1].failed <==> !Reproduced(a, p);
    Minus(Elems(p.claims), Elems(a.context.claims));
    assert c[2].failed <==> !(Elems(p.claims) <= Elems(a.context.claims));
    Minus(Elems(p.evidence), Elems(a.context.evidence));
    assert c[3].failed <==> !(Elems(p.evidence) <= Elems(a.context.evidence));
  }

  lemma ListBlock(a: Artifacts)
    ensures NoBlock(ListChecks(a)) <==> Disclosed(a)
  {
    var c := ListChecks(a);
    assert Repairable(c[0].code);
    assert c[1].failed <==> a.manifest.missingLocators != [];
    Minus(Elems(a.context.limitations), Elems(a.script.limitations));
    assert c[2].failed <==> !(Elems(a.context.limitations) <= Elems(a.script.limitations));
  }

  lemma PlacedCueBlock(a: Artifacts, c: Cue)
    requires c.paragraph in ScriptParagraphs(a)
    ensures NoBlock(CueChecks(a, c)) <==> SoundCue(a, c)
  {
    hide Elems, KnownSources, ScriptParagraphs, ScriptSectionIds;
    var k, evidence := CueChecks(a, c), ScriptParagraphs(a)[c.paragraph].evidence;
    Minus(Elems(c.evidence), Elems(evidence));
    Minus(Elems(c.sources), KnownSources(a));
    Minus(Elems(c.assets), Elems(a.visuals.assets));
    assert |k| == 5;
    assert k[0].failed <==> c.section !in ScriptSectionIds(a);
    assert k[1].failed <==> Elems(c.evidence) - Elems(evidence) != {};
    assert k[2].failed <==> Elems(c.sources) - KnownSources(a) != {};
    assert k[3].failed <==> Elems(c.assets) - Elems(a.visuals.assets) != {};
    assert k[4].failed <==> c.factual && !c.showsCitation;
  }

  lemma CueBlock(a: Artifacts, c: Cue)
    ensures NoBlock(CueChecks(a, c)) <==> SoundCue(a, c)
  {
    if c.paragraph in ScriptParagraphs(a) {
      PlacedCueBlock(a, c);
    } else {
      assert CueChecks(a, c)[0].failed;
    }
  }

  lemma ChartBlock(a: Artifacts, c: Chart)
    ensures NoBlock(ChartChecks(a, c)) <==> SoundChart(a, c)
  {
    var k := ChartChecks(a, c);
    assert k[0].failed <==> c.paragraph !in ScriptParagraphs(a);
    assert k[1].failed <==> c.sources == [];
    Minus(Elems(c.sources), KnownSources(a));
    assert k[2].failed <==> c.sources != [] && !(Elems(c.sources) <= KnownSources(a));
    Minus(Elems(c.evidence), Elems(a.context.evidence) + ManifestEvidence(a));
    assert k[3].failed <==> !(Elems(c.evidence) <= Elems(a.context.evidence) + ManifestEvidence(a));
  }

  // ---- the whole validator ----

  predicate NoneBlocks(fs: seq<Finding>) {
    forall f | f in fs :: !Blocks(f)
  }

  lemma DirectBlocks(a: Artifacts)
    ensures NoneBlocks(DirectFindings(a)) <==>
              Linked(a) && NarrativeCovers(a) && SectionsMatch(a) && DraftParagraphs(a).Keys == ScriptParagraphs(a).Keys
              && ClaimsAgree(a) && Disclosed(a)
  {
    RaiseBlocks(IdentityChecks(a));
    IdentityBlock(a);
    RaiseBlocks(NarrativeChecks(a));
    NarrativeBlock(a);
    RaiseBlocks(ScriptChecks(a));
    ScriptBlock(a);
    RaiseBlocks(ClaimSetChecks(a));
    ClaimSetBlock(a);
    RaiseBlocks(CountChecks(a));
    CountBlock(a);
    RaiseBlocks(ListChecks(a));
    ListBlock(a);
    forall f ensures f in DirectFindings(a) <==>
                       || f in IdentityFindings(a) || f in NarrativeFindings(a) || f in ScriptFindings(a)
                       || f in ClaimSetFindings(a) || f in CountFindings(a) || f in ListFindings(a)
    {
      DirectAre(a, f);
    }
  }

  /** Every finding about the artifacts is a warning or one of the repairable errors. */
  ghost predicate OnlyRepairable(a: Artifacts) {
    forall f | Raised(a, f) :: !Blocks(f)
  }

  lemma TraceabilityBlocks(a: Artifacts)
    ensures (forall f :: !TraceabilityRaised(a, f)) <==>
              (forall id | id in DraftParagraphs(a) :: !TraceabilityChanged(a, id))
  {
    forall id | TraceabilityChanged(a, id)
      ensures TraceabilityRaised(a, Finding(ValidatedScriptTraceabilityChanged, InParagraph(id)))
    {
    }
  }

  lemma MappingsBlock(a: Artifacts)
    ensures (forall f | MappingRaised(a, f) :: !Blocks(f)) <==>
              (forall m | m in a.manifest.mappings :: KnownMapping(a, m))
  {
    forall m | m in a.manifest.mappings
      ensures KnownMapping(a, m) <==> forall f | f in MappingFindings(a, m) :: !Blocks(f)
    {
      MappingBlock(a, m);
      RaiseBlocks(MappingChecks(a, m));
    }
    if forall f | MappingRaised(a, f) :: !Blocks(f) {
      forall m | m in a.manifest.mappings ensures KnownMapping(a, m) {
        forall f | f in MappingFindings(a, m) ensures !Blocks(f) {
          assert MappingRaised(a, f);
        }
      }
    }
  }

  lemma ParagraphsBlock(a: Artifacts)
    ensures (forall f | ParagraphRaised(a, f) :: !Blocks(f)) <==>
            (forall id | id in DraftParagraphs(a) ::
                Reproduced(a, DraftParagraphs(a)[id]) && KnownParagraph(a, DraftParagraphs(a)[id]))
  {
    var d := DraftParagraphs(a);
    forall id | id in d
      ensures Reproduced(a, d[id]) && KnownParagraph(a, d[id]) <==> forall f | f in ParagraphFindings(a, d[id]) ::
                !Blocks(f)
    {
      ParagraphBlock(a, d[id]);
      RaiseBlocks(ParagraphChecks(a, d[id]));
    }
    if forall f | ParagraphRaised(a, f) :: !Blocks(f) {
      forall id | id in d ensures Reproduced(a, d[id]) && KnownParagraph(a, d[id]) {
        forall f | f in ParagraphFindings(a, d[id]) ensures !Blocks(f) {
          assert ParagraphRaised(a, f);
        }
      }
    }
  }

  lemma CuesBlock(a: Artifacts)
    ensures (forall f | CueRaised(a, f) :: !Blocks(f)) <==> (forall c | c in a.visuals.cues :: SoundCue(a, c))
  {
    forall c | c in a.visuals.cues ensures SoundCue(a, c) <==> forall f | f in CueFindings(a, c) :: !Blocks(f) {
      CueBlock(a, c);
      RaiseBlocks(CueChecks(a, c));
    }
    if forall f | CueRaised(a, f) :: !Blocks(f) {
      forall c | c in a.visuals.cues ensures SoundCue(a, c) {
        forall f | f in CueFindings(a, c) ensures !Blocks(f) {
          assert CueRaised(a, f);
        }
      }
    }
  }

  lemma ChartsBlock(a: Artifacts)
    ensures (forall f | ChartRaised(a, f) :: !Blocks(f)) <==> (forall c | c in a.visuals.charts :: SoundChart(a, c))
  {
    forall c | c in a.visuals.charts ensures SoundChart(a, c) <==> forall f | f in ChartFindings(a, c) :: !Blocks(f) {
      ChartBlock(a, c);
      RaiseBlocks(ChartChecks(a, c));
    }
    if forall f | ChartRaised(a, f) :: !Blocks(f) {
      forall c | c in a.visuals.charts ensures SoundChart(a, c) {
        forall f | f in ChartFindings(a, c) ensures !Blocks(f) {
          assert ChartRaised(a, f);
        }
      }
    }
  }

  lemma RaisedWhere(a: Artifacts, f: Finding)
    requires Raised(a, f)
    ensures f in DirectFindings(a) || TraceabilityRaised(a, f) || MappingRaised(a, f) || ParagraphRaised(a, f)
         || CueRaised(a, f) || ChartRaised(a, f)
  {
  }

  ghost predicate LoopsFree(a: Artifacts) {
    && (forall f :: !TraceabilityRaised(a, f))
    && (forall f | MappingRaised(a, f) :: !Blocks(f)) && (forall f | ParagraphRaised(a, f) :: !Blocks(f))
    && (forall f | CueRaised(a, f) :: !Blocks(f)) && (forall f | ChartRaised(a, f) :: !Blocks(f))
  }

  lemma FreeIsOnlyRepairable(a: Artifacts)
    requires NoneBlocks(DirectFindings(a)) && LoopsFree(a)
    ensures OnlyRepairable(a)
  {
    forall f | Raised(a, f) ensures !Blocks(f) {
      RaisedWhere(a, f);
    }
  }

  lemma IsRaised(a: Artifacts, f: Finding)
    ensures f in DirectFindings(a) ==> Raised(a, f)
    ensures TraceabilityRaised(a, f) ==> Raised(a, f)
    ensures MappingRaised(a, f) ==> Raised(a, f)
    ensures ParagraphRaised(a, f) ==> Raised(a, f)
    ensures CueRaised(a, f) ==> Raised(a, f)
    ensures ChartRaised(a, f) ==> Raised(a, f)
  {
  }

  lemma OnlyRepairableIsFree(a: Artifacts)
    requires OnlyRepairable(a)
    ensures NoneBlocks(DirectFindings(a)) && LoopsFree(a)
  {
    forall f ensures f in DirectFindings(a) ==> !Blocks(f) {
      IsRaised(a, f);
    }
    forall f ensures !TraceabilityRaised(a, f) {
      IsRaised(a, f);
    }
    forall f ensures MappingRaised(a, f) || ParagraphRaised(a, f) || CueRaised(a, f) || ChartRaised(a, f) ==>
        !Blocks(f) {
      IsRaised(a, f);
    }
  }

  /** The artifacts have nothing beyond repairable errors exactly when they meet the base
      conditions. */
  lemma OnlyRepairableIff(a: Artifacts)
    ensures OnlyRepairable(a) <==> SoundBase(a)
  {
    if OnlyRepairable(a) {
      OnlyRepairableIsFree(a);
    }
    if NoneBlocks(DirectFindings(a)) && LoopsFree(a) {
      FreeIsOnlyRepairable(a);
    }
    DirectBlocks(a);
    TraceabilityBlocks(a);
    MappingsBlock(a);
    ParagraphsBlock(a);
    CuesBlock(a);
    ChartsBlock(a);
  }

  /** The repairable errors are raised exactly when a citation is missing or unsupported. */
  lemma RepairableRaisedIff(a: Artifacts)
    ensures (forall f | Raised(a, f) :: !Repairable(f.code)) <==> Cited(a)
  {
    if !Cited(a) {
      var f := UncitedIsRaised(a);
    } else {
      forall f | Raised(a, f) ensures !Repairable(f.code) {
        CitedRaisesNone(a, f);
      }
    }
  }

  lemma FailedIsRaised(checks: seq<Check>, i: nat)
    requires i < |checks| && checks[i].failed
    ensures Finding(checks[i].code, checks[i].details) in Raise(checks)
  {
    RaiseIff(checks, Finding(checks[i].code, checks[i].details));
  }

  lemma UnmappedIsRaised(a: Artifacts, id: string) returns (f: Finding)
    requires id in DraftParagraphs(a) && !Mapped(a, DraftParagraphs(a)[id])
    ensures f.code == CitationMappingMissing && ParagraphRaised(a, f)
  {
    var checks := ParagraphChecks(a, DraftParagraphs(a)[id]);
    FailedIsRaised(checks, 0);
    f := Finding(checks[0].code, checks[0].details);
  }

  lemma UnsupportedIsRaised(a: Artifacts, m: Mapping) returns (f: Finding)
    requires m in a.manifest.mappings && m.kind == Unsupported
    ensures f.code == UnsupportedClaimRemains && MappingRaised(a, f)
  {
    var checks := MappingChecks(a, m);
    FailedIsRaised(checks, 4);
    f := Finding(checks[4].code, checks[4].details);
  }

  lemma ListedIsRaised(a: Artifacts) returns (f: Finding)
    requires a.manifest.unsupportedClaims != []
    ensures f.code == UnsupportedClaimListNotEmpty && f in DirectFindings(a)
  {
    var checks := ListChecks(a);
    FailedIsRaised(checks, 0);
    f := Finding(checks[0].code, checks[0].details);
    DirectAre(a, f);
  }

  lemma UncitedIsRaised(a: Artifacts) returns (f: Finding)
    requires !Cited(a)
    ensures Raised(a, f) && Repairable(f.code)
  {
    if id :| id in DraftParagraphs(a) && !Mapped(a, DraftParagraphs(a)[id]) {
      f := UnmappedIsRaised(a, id);
    } else if m :| m in a.manifest.mappings && m.kind == Unsupported {
      f := UnsupportedIsRaised(a, m);
    } else {
      f := ListedIsRaised(a);
    }
  }

  predicate NoneRepairable(checks: seq<Check>) {
    forall i | 0 <= i < |checks| && checks[i].failed :: !Repairable(checks[i].code)
  }

  lemma RaiseNoneRepairable(checks: seq<Check>, f: Finding)
    requires NoneRepairable(checks) && f in Raise(checks)
    ensures !Repairable(f.code)
  {
    RaiseIff(checks, f);
  }

  predicate OtherCodes(fs: seq<Finding>) {
    forall f | f in fs :: !Repairable(f.code)
  }

  lemma OtherChecks(checks: seq<Check>)
    requires NoneRepairable(checks)
    ensures OtherCodes(Raise(checks))
  {
    forall f | f in Raise(checks) ensures !Repairable(f.code) {
      RaiseNoneRepairable(checks, f);
    }
  }

  lemma IdentityOther(a: Artifacts)
    ensures OtherCodes(IdentityFindings(a))
  {
    OtherChecks(IdentityChecks(a));
  }

  lemma NarrativeOther(a: Artifacts)
    ensures OtherCodes(NarrativeFindings(a))
  {
    OtherChecks(NarrativeChecks(a));
  }

  lemma ScriptOther(a: Artifacts)
    ensures OtherCodes(ScriptFindings(a))
  {
    OtherChecks(ScriptChecks(a));
  }

  lemma SetOther(a: Artifacts)
    ensures OtherCodes(ClaimSetFindings(a)) && OtherCodes(CountFindings(a))
  {
    OtherChecks(ClaimSetChecks(a));
    OtherChecks(CountChecks(a));
  }

  lemma ListOther(a: Artifacts)
    requires a.manifest.unsupportedClaims == []
    ensures OtherCodes(ListFindings(a))
  {
    OtherChecks(ListChecks(a));
  }

  lemma MappingOther(a: Artifacts, m: Mapping)
    requires m.kind != Unsupported
    ensures OtherCodes(MappingFindings(a, m))
  {
    OtherChecks(MappingChecks(a, m));
  }

  lemma ParagraphOther(a: Artifacts, p: Paragraph)
    requires Mapped(a, p)
    ensures OtherCodes(ParagraphFindings(a, p))
  {
    var checks := ParagraphChecks(a, p);
    assert !checks[0].failed;
    OtherChecks(checks);
  }

  lemma CueOther(a: Artifacts, c: Cue)
    ensures OtherCodes(CueFindings(a, c))
  {
    OtherChecks(CueChecks(a, c));
  }

  lemma ChartOther(a: Artifacts, c: Chart)
    ensures OtherCodes(ChartFindings(a, c))
  {
    OtherChecks(ChartChecks(a, c));
  }

  lemma DirectOther(a: Artifacts)
    requires a.manifest.unsupportedClaims == []
    ensures OtherCodes(DirectFindings(a))
  {
    IdentityOther(a);
    NarrativeOther(a);
    ScriptOther(a);
    SetOther(a);
    ListOther(a);
    forall f | f in DirectFindings(a) ensures !Repairable(f.code) {
      DirectAre(a, f);
    }
  }

  lemma MappingNoneRepairable(a: Artifacts, f: Finding)
    requires Cited(a) && MappingRaised(a, f)
    ensures !Repairable(f.code)
  {
    var m :| m in a.manifest.mappings && f in MappingFindings(a, m);
    MappingOther(a, m);
  }

  lemma ParagraphNoneRepairable(a: Artifacts, f: Finding)
    requires Cited(a) && ParagraphRaised(a, f)
    ensures !Repairable(f.code)
  {
    var id :| id in DraftParagraphs(a) && f in ParagraphFindings(a, DraftParagraphs(a)[id]);
    ParagraphOther(a, DraftParagraphs(a)[id]);
  }

  lemma CueNoneRepairable(a: Artifacts, f: Finding)
    requires CueRaised(a, f)
    ensures !Repairable(f.code)
  {
    var c :| c in a.visuals.cues && f in CueFindings(a, c);
    CueOther(a, c);
  }

  lemma ChartNoneRepairable(a: Artifacts, f: Finding)
    requires ChartRaised(a, f)
    ensures !Repairable(f.code)
  {
    var c :| c in a.visuals.charts && f in ChartFindings(a, c);
    ChartOther(a, c);
  }

  lemma CitedRaisesNone(a: Artifacts, f: Finding)
    requires Cited(a) && Raised(a, f)
    ensures !Repairable(f.code)
  {
    RaisedWhere(a, f);
    if f in DirectFindings(a) {
      DirectOther(a);
    } else if MappingRaised(a, f) {
      MappingNoneRepairable(a, f);
    } else if ParagraphRaised(a, f) {
      ParagraphNoneRepairable(a, f);
    } else if CueRaised(a, f) {
      CueNoneRepairable(a, f);
    } else if ChartRaised(a, f) {
      ChartNoneRepairable(a, f);
    }
  }

  ghost predicate NothingRepairable(a: Artifacts) {
    forall f | Raised(a, f) :: !Repairable(f.code)
  }

  lemma SplitErrors(a: Artifacts)
    ensures Passes(a) <==> OnlyRepairable(a) && NothingRepairable(a)
  {
    forall f | Raised(a, f) ensures !IsError(f.code) <==> !Blocks(f) && !Repairable(f.code) {
    }
  }

  /** The validator passes exactly the consistent artifacts. */
  lemma PassesIff(a: Artifacts)
    ensures Passes(a) <==> SoundBase(a) && Cited(a)
  {
    SplitErrors(a);
    OnlyRepairableIff(a);
    RepairableRaisedIff(a);
  }
}
