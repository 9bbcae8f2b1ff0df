/** Artifacts with one repairable error: the premises of the repair's soundness are met. */
module PlaywrightExample {
  import opened Collections
  import opened Json
  import opened PlaywrightArtifacts
  import opened PlaywrightRepair

  /** Two paragraphs on the same claim; only the first has its mapping. */
  const FIRST := Paragraph("p1", "t", ["c"], ["e"], true)
  const SECOND := Paragraph("p2", "t", ["c"], ["e"], true)
  const SECTIONS := [Section("s", [FIRST, SECOND])]
  const DONOR := Mapping("m1", "p1", "t", SupportedFact, ["c"], ["e"], ["src"], Some(["src"]), "direct", "low", None)
  const PARTS := [
    NarrativeSection("s", "QUESTION", 0, [], []), NarrativeSection("s", "EVIDENCE", 0, ["c"], ["e"]),
    NarrativeSection("s", "DECISION", 0, [], []), NarrativeSection("s", "CONCLUSION", 0, [], [])]

  const ARTIFACTS := Artifacts(
    Context("x", ["c"], ["e"], [], [SourceEntry(Some("e"), Some("src"))], {}),
    Narrative("n", "x", 0, PARTS),
    Draft("d", "n", 2, SECTIONS),
    ValidatedScript("v", "d", "k", SECTIONS, [], []),
    Manifest("k", "d", ["c"], [DONOR], [], [], [("e", "src")]),
    VisualPlan("v", [], [], []),
    true)

  const FOUND := Finding(CitationMappingMissing, Unmapped("p2", ["c"], ["e"]))
  const SAVED := SavedFinding("f", FOUND, None, false)
  const STATE := State(0, Some([SAVED]), Some({"f"}), ARTIFACTS)

  lemma {:induction false} NonePass(checks: seq<Check>)
    requires forall i | 0 <= i < |checks| :: !checks[i].failed
    ensures Raise(checks) == []
  {
    if checks != [] {
      NonePass(checks[1..]);
    }
  }

  lemma ParagraphsAre()
    ensures DraftParagraphs(ARTIFACTS) == map["p1" := FIRST, "p2" := SECOND]
    ensures ScriptParagraphs(ARTIFACTS) == map["p1" := FIRST, "p2" := SECOND]
    ensures AllParagraphs(SECTIONS) == [FIRST, SECOND]
  {
    assert SECTIONS[1..] == [];
    assert AllParagraphs(SECTIONS) == [FIRST, SECOND] + AllParagraphs(SECTIONS[1..]);
    var ps := [FIRST, SECOND];
    assert ps[..1] == [FIRST] && [FIRST][..0] == [];
    assert ById([FIRST]) == ById([])["p1" := FIRST];
    assert ById(ps) == ById(ps[..1])["p2" := SECOND];
  }

  lemma IdentityPasses()
    ensures IdentityFindings(ARTIFACTS) == []
  {
    NonePass(IdentityChecks(ARTIFACTS));
  }

  lemma NarrativeIsCovered()
    ensures RequiredKinds(ARTIFACTS) - NarrativeKinds(ARTIFACTS) == {}
    ensures Elems(ARTIFACTS.context.claims) - NarrativeClaims(ARTIFACTS) == {}
    ensures Elems(ARTIFACTS.context.evidence) - NarrativeEvidence(ARTIFACTS) == {}
  {
    assert PARTS[0] in PARTS && PARTS[1] in PARTS && PARTS[2] in PARTS && PARTS[3] in PARTS;
    assert "c" in PARTS[1].claims && "e" in PARTS[1].evidence;
  }

  lemma NarrativePasses()
    ensures NarrativeFindings(ARTIFACTS) == []
  {
    hide RequiredKinds, NarrativeKinds, NarrativeClaims, NarrativeEvidence;
    NarrativeIsCovered();
    NoTime(PARTS);
    NonePass(NarrativeChecks(ARTIFACTS));
  }

  lemma {:induction false} NoTime(sections: seq<NarrativeSection>)
    requires forall s | s in sections :: s.seconds == 0
    ensures TotalSeconds(sections) == 0
  {
    if sections != [] {
      NoTime(sections[..|sections| - 1]);
    }
  }

  lemma ScriptAndListsPass()
    ensures ScriptFindings(ARTIFACTS) == [] && ListFindings(ARTIFACTS) == []
  {
    var a := ARTIFACTS;
    assert SECTIONS[0] in a.draft.sections && PARTS[0] in PARTS;
    assert DraftSectionIds(a) == {"s"} && NarrativeSectionIds(a) == {"s"};
    ParagraphsAre();
    NonePass(ScriptChecks(a));
    NonePass(ListChecks(a));
  }

  lemma SetAndCountPass()
    ensures ClaimSetFindings(ARTIFACTS) == [] && CountFindings(ARTIFACTS) == []
    ensures Elems(CanonicalClaims(ARTIFACTS.draft)) == {"c"}
  {
    var a, ps := ARTIFACTS, [FIRST, SECOND];
    ParagraphsAre();
    assert FIRST in ps;
    assert CanonicalClaims(a.draft) == FirstUse(ps);
    assert forall c :: c in FirstUse(ps) <==> c == "c";
    NonePass(ClaimSetChecks(a));
    assert ps[1..] == [SECOND] && [SECOND][1..] == [];
    assert TextLength([SECOND]) == 1 && TextLength(ps) == 2;
    NonePass(CountChecks(a));
  }

  lemma DonorPasses()
    ensures MappingFindings(ARTIFACTS, DONOR) == []
  {
    ParagraphsAre();
    assert SourceEntry(Some("e"), Some("src")) in ARTIFACTS.context.sources;
    assert "src" in KnownSources(ARTIFACTS);
    NonePass(MappingChecks(ARTIFACTS, DONOR));
  }

  lemma MappingsAre(ms: seq<Mapping>)
    requires forall m | m in ms :: m.claims == ["c"] && m.evidence == ["e"]
    ensures ms != [] ==> ClaimsOf(ms) == {"c"} && EvidenceOf(ms) == {"e"}
  {
    if ms != [] {
      assert ms[0] in ms;
    }
  }

  lemma FirstPasses()
    ensures ParagraphFindings(ARTIFACTS, FIRST) == []
  {
    var mapped := MappingsFor(ARTIFACTS.manifest.mappings, "p1");
    assert DONOR in mapped;
    MappingsAre(mapped);
    NonePass(ParagraphChecks(ARTIFACTS, FIRST));
  }

  lemma SecondIsFound(f: Finding)
    ensures f in ParagraphFindings(ARTIFACTS, SECOND) <==> f == FOUND
  {
    var checks := ParagraphChecks(ARTIFACTS, SECOND);
    assert [DONOR][..0] == [];
    assert MappingsFor([DONOR], "p2") == MappingsFor([], "p2") == [];
    RaiseIff(checks, f);
    assert checks[0].failed;
  }

  lemma NothingDirect(f: Finding)
    ensures f !in DirectFindings(ARTIFACTS)
  {
    hide IdentityFindings, NarrativeFindings, ScriptFindings, ListFindings, ClaimSetFindings, CountFindings;
    IdentityPasses();
    NarrativePasses();
    ScriptAndListsPass();
    SetAndCountPass();
    DirectAre(ARTIFACTS, f);
  }

  lemma NothingElse(f: Finding)
    ensures !TraceabilityRaised(ARTIFACTS, f) && !MappingRaised(ARTIFACTS, f)
    ensures !CueRaised(ARTIFACTS, f) && !ChartRaised(ARTIFACTS, f)
  {
    hide MappingFindings, CueFindings, ChartFindings;
    ParagraphsAre();
    DonorPasses();
  }

  lemma InSecond(f: Finding)
    ensures ParagraphRaised(ARTIFACTS, f) <==> f == FOUND
  {
    hide ParagraphFindings;
    ParagraphsAre();
    FirstPasses();
    SecondIsFound(f);
    assert DraftParagraphs(ARTIFACTS)["p2"] == SECOND;
  }

  /** The validator raises the one finding about the second paragraph. */
  lemma OneFinding(f: Finding)
    ensures Raised(ARTIFACTS, f) <==> f == FOUND
  {
    hide DirectFindings, TraceabilityRaised, MappingRaised, ParagraphRaised, CueRaised, ChartRaised;
    NothingDirect(f);
    NothingElse(f);
    InSecond(f);
  }

  const ADDED := Mapping("m2", "p2", "t", SupportedFact, ["c"], ["e"], ["src"], Some(["src"]), "direct",
                         "deterministic_traceability_reconstruction", None)

  function Name(p: Paragraph, sources: seq<string>): string {
    "m2"
  }

  lemma DonorAgrees()
    ensures Adds(ARTIFACTS, Name, FOUND, ADDED)
  {
    var a := ARTIFACTS;
    ParagraphsAre();
    assert SourceEntry(Some("e"), Some("src")) in a.context.sources;
    assert SourcesOf(a, "e") == {"src"};
    assert AllLocated(a, SECOND.evidence, ADDED.sources);
    assert DONOR in Donors(a, SECOND, ["src"]);
    assert MissingAt(a, FOUND, SECOND);
  }

  /** The repaired artifacts: the second paragraph has its mapping too. */
  const AFTER := ARTIFACTS.(manifest := Manifest("k", "d", CanonicalClaims(ARTIFACTS.draft), [DONOR, ADDED], [], [],
                                                 [("e", "src")]))

  lemma AfterIsRebuilt()
    ensures Rebuilt(ARTIFACTS, [ADDED], map[]) == AFTER
  {
    var ms, none := [DONOR], map[];
    assert ms[..0] == [];
    assert Rebuild(ms[..0], none) == [];
    assert Rebuild(ms, none) == [DONOR];
  }

  lemma BothComplete()
    ensures Complete([DONOR, ADDED], FIRST) && Complete([DONOR, ADDED], SECOND)
  {
    var ms := [DONOR, ADDED];
    assert DONOR in ms && ADDED in ms;
    assert DONOR in MappingsFor(ms, "p1") && ADDED in MappingsFor(ms, "p2");
    MappingsAre(MappingsFor(ms, "p1"));
    MappingsAre(MappingsFor(ms, "p2"));
  }

  lemma RepairedIsAccepted()
    ensures Accepted(ARTIFACTS, [SAVED], AFTER)
  {
    var ms := [DONOR, ADDED];
    SetAndCountPass();
    ParagraphsAre();
    BothComplete();
    assert DONOR in ms;
    assert "c" in SupportedBy(ms);
    assert |AFTER.manifest.mappings| == 2 && |ARTIFACTS.manifest.mappings| == 1;
    hide Complete, SupportedBy, CanonicalClaims;
  }

  lemma SavedIsEligible()
    ensures Eligible(STATE) && Faithful(STATE)
    ensures ErrorsOf([SAVED]) == [SAVED]
  {
    forall f ensures Raised(ARTIFACTS, f) <==> exists e :: e in STATE.validation.value && e.finding == f {
      OneFinding(f);
      assert SAVED in STATE.validation.value;
    }
    assert [SAVED][1..] == [];
    assert ErrorsOf([SAVED]) == [SAVED];
  }

  lemma OnlyMissing()
    ensures WithCode([SAVED], CitationMappingMissing) == [FOUND] && WithCode([SAVED], UnsupportedClaimRemains) == []
  {
    assert [SAVED][1..] == [];
    assert WithCode([], CitationMappingMissing) == [] && WithCode([], UnsupportedClaimRemains) == [];
  }

  lemma OneAddition()
    ensures AdditionsAre(ARTIFACTS, Name, [FOUND], [ADDED])
  {
    hide Adds;
    DonorAgrees();
    assert [] + [FOUND] == [FOUND] && [] + [ADDED] == [ADDED];
    MoreAdditions(ARTIFACTS, Name, [], [], FOUND, ADDED);
  }

  /** The gate is open, the saved finding is the validator's own, and the repair exists; so it
      is sound. */
  lemma RepairIsReached()
    ensures Faithful(STATE) && NamedSources(ARTIFACTS) && RepairsTo(STATE, Name, Repaired([ADDED], map[], AFTER))
    ensures !Passes(ARTIFACTS) && Passes(AFTER)
  {
    hide Eligible, Faithful, Rebuilt, Accepted, AdditionsAre, Passes;
    SavedIsEligible();
    OnlyMissing();
    OneAddition();
    AfterIsRebuilt();
    RepairedIsAccepted();
    Blocked();
    RepairIsSound(STATE, Name, Repaired([ADDED], map[], AFTER));
  }

  lemma Blocked()
    ensures !Passes(ARTIFACTS)
  {
    OneFinding(FOUND);
  }
}
