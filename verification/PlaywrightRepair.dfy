/** The deterministic repair of citation artifacts, `PlaywrightDeterministicRepairer.repair`
    (playwright/deterministic_repair.py), and why what it returns passes the validator. */
module PlaywrightRepair {
  import opened Collections
  import opened Json
  import opened PlaywrightArtifacts
  import opened PlaywrightConsistency

  // ---- the saved gate ----

  datatype SavedFinding = SavedFinding(id: string, finding: Finding, target: Option<string>, upstream: bool)

  datatype State = State(
    repairs: nat, validation: Option<seq<SavedFinding>>, gate: Option<set<string>>, artifacts: Artifacts)

  datatype Disposition = Deterministic | UpstreamRevision | AgentRevision | NotRepairable

  function Classify(s: SavedFinding): Disposition {
    if Repairable(s.finding.code) then Deterministic
    else if s.upstream then UpstreamRevision
    else if s.target.Some? && s.target.value != "" then AgentRevision
    else NotRepairable
  }

  function ErrorsOf(saved: seq<SavedFinding>): (r: seq<SavedFinding>)
    ensures forall s :: s in r <==> s in saved && IsError(s.finding.code)
  {
    if saved == [] then []
    else (if IsError(saved[0].finding.code) then [saved[0]] else []) + ErrorsOf(saved[1..])
  }

  /** The saved gate allows a repair: first pass, only repairable errors, and a final gate that
      is blocked by exactly those. */
  predicate Eligible(s: State) {
    && s.repairs < 1 && s.validation.Some? && s.gate.Some?
    && var errors := ErrorsOf(s.validation.value);
       && errors != []
       && (forall e | e in errors :: Classify(e) == Deterministic)
       && s.gate.value == set e | e in errors :: e.id
  }

  // ---- reconstructing a missing mapping ----

  function SourcesOf(a: Artifacts, evidence: string): set<string> {
    set e | e in a.context.sources && e.evidence == Some(evidence) && e.source.Some? :: e.source.value
  }

  /** The evidence is in scope and resolves to this one registered source. */
  predicate Located(a: Artifacts, evidence: string, source: string) {
    evidence in a.context.evidence && SourcesOf(a, evidence) == {source} && (evidence, source) in a.manifest.sourceList
  }

  predicate AllLocated(a: Artifacts, evidence: seq<string>, sources: seq<string>) {
    |sources| == |evidence| && forall i | 0 <= i < |evidence| :: Located(a, evidence[i], sources[i])
  }

  /** A saved mapping with the same traceability and its own locator. */
  predicate IsDonor(m: Mapping, claims: seq<string>, evidence: seq<string>, sources: seq<string>) {
    m.claims == claims && m.evidence == evidence && m.sources == sources && m.locator == Some(sources)
  }

  /** All donors agree on a classification, and there is one. */
  predicate Agreed(donors: seq<Mapping>, kind: ClaimType, support: string) {
    donors != [] && (forall d | d in donors :: d.kind == kind && d.support == support)
  }

  function Filter(ms: seq<Mapping>, keep: Mapping -> bool): (r: seq<Mapping>)
    ensures forall m :: m in r <==> m in ms && keep(m)
  {
    if ms == [] then [] else (if keep(ms[0]) then [ms[0]] else []) + Filter(ms[1..], keep)
  }

  function Donors(a: Artifacts, p: Paragraph, sources: seq<string>): seq<Mapping> {
    Filter(a.manifest.mappings, (m: Mapping) => IsDonor(m, p.claims, p.evidence, sources))
  }

  /** The saved finding is about this paragraph of both scripts, which did not change and needs
      a citation. */
  predicate MissingAt(a: Artifacts, f: Finding, p: Paragraph) {
    && f.details.Unmapped? && f.details.paragraph != ""
    && f.details.paragraph in DraftParagraphs(a) && f.details.paragraph in ScriptParagraphs(a)
    && var d := DraftParagraphs(a)[f.details.paragraph];
       p == ScriptParagraphs(a)[f.details.paragraph]
       && d.claims == p.claims && d.evidence == p.evidence && d.text == p.text
       && p.citationRequired && p.evidence != []
       && f.details.claims == p.claims && f.details.evidence == p.evidence
       && forall m | m in a.manifest.mappings :: m.paragraph != p.id
  }

  /** The mapping that the repair reconstructs for a missing-mapping finding. */
  predicate Adds(a: Artifacts, mappingId: (Paragraph, seq<string>) -> string, f: Finding, m: Mapping) {
    && f.details.Unmapped? && f.details.paragraph in ScriptParagraphs(a)
    && var p := ScriptParagraphs(a)[f.details.paragraph];
       && MissingAt(a, f, p) && AllLocated(a, p.evidence, m.sources)
       && (Elems(p.claims) + Elems(p.evidence) + Elems(m.sources)) * a.context.acceptedGaps == {}
       && Agreed(Donors(a, p, m.sources), m.kind, m.support) && m.kind != Unsupported
       && m == Mapping(mappingId(p, m.sources), p.id, p.text, m.kind, p.claims, p.evidence, m.sources,
                       Some(m.sources), m.support, "deterministic_traceability_reconstruction", None)
  }

  /** One source for each piece of evidence, in order. */
  method LocateAll(a: Artifacts, evidence: seq<string>) returns (sources: Option<seq<string>>)
    ensures sources.Some? ==> AllLocated(a, evidence, sources.value)
    ensures sources.None? ==> forall xs :: !AllLocated(a, evidence, xs)
  {
    var found: seq<string> := [];
    for i := 0 to |evidence|
      invariant |found| == i && forall k | 0 <= k < i :: Located(a, evidence[k], found[k])
    {
      var options := SourcesOf(a, evidence[i]);
      if evidence[i] !in a.context.evidence || |options| != 1 {
        NotLocated(a, evidence, i);
        return None;
      }
      var source :| source in options;
      OnlyOne(options, source);
      if (evidence[i], source) !in a.manifest.sourceList {
        NotLocated(a, evidence, i);
        return None;
      }
      found := found + [source];
    }
    return Some(found);
  }

  lemma NotLocated(a: Artifacts, evidence: seq<string>, i: nat)
    requires i < |evidence| && forall x :: !Located(a, evidence[i], x)
    ensures forall xs :: !AllLocated(a, evidence, xs)
  {
    forall xs ensures !AllLocated(a, evidence, xs) {
      if |xs| == |evidence| {
        assert !Located(a, evidence[i], xs[i]);
      }
    }
  }

  lemma OnlyOne(s: set<string>, x: string)
    requires |s| == 1 && x in s
    ensures s == {x}
  {
    assert |s - {x}| == 0;
  }

  lemma LocatedOnce(a: Artifacts, evidence: seq<string>, xs: seq<string>, ys: seq<string>)
    requires AllLocated(a, evidence, xs) && AllLocated(a, evidence, ys)
    ensures xs == ys
  {
    forall i | 0 <= i < |xs| ensures xs[i] == ys[i] {
      assert Located(a, evidence[i], xs[i]) && Located(a, evidence[i], ys[i]);
      assert xs[i] in {ys[i]};
    }
  }

  /** The classification the donors agree on, if they do. */
  method Classification(donors: seq<Mapping>) returns (r: Option<(ClaimType, string)>)
    ensures r.Some? ==> Agreed(donors, r.value.0, r.value.1)
    ensures r.None? ==> forall kind, support :: !Agreed(donors, kind, support)
  {
    if donors == [] {
      return None;
    }
    var first := donors[0];
    for i := 0 to |donors|
      invariant forall k | 0 <= k < i :: donors[k].kind == first.kind && donors[k].support == first.support
    {
      if donors[i].kind != first.kind || donors[i].support != first.support {
        forall kind, support ensures !Agreed(donors, kind, support) {
          assert first in donors && donors[i] in donors;
        }
        return None;
      }
    }
    return Some((first.kind, first.support));
  }

  lemma AgreedOnce(donors: seq<Mapping>, k: ClaimType, s: string, other: ClaimType, status: string)
    requires Agreed(donors, k, s) && Agreed(donors, other, status)
    ensures k == other && s == status
  {
    assert donors[0] in donors;
  }

  /** One turn of the loop over missing-mapping findings. */
  method AddMapping(a: Artifacts, mappingId: (Paragraph, seq<string>) -> string, f: Finding)
      returns (r: Option<Mapping>)
    ensures r.Some? ==> Adds(a, mappingId, f, r.value)
    ensures r.None? ==> forall m :: !Adds(a, mappingId, f, m)
  {
    if !f.details.Unmapped? || f.details.paragraph !in ScriptParagraphs(a) {
      return None;
    }
    var p := ScriptParagraphs(a)[f.details.paragraph];
    if !MissingAt(a, f, p) {
      return None;
    }
    var sources := LocateAll(a, p.evidence);
    if sources.None? {
      return None;
    }
    forall m | Adds(a, mappingId, f, m) ensures m.sources == sources.value {
      LocatedOnce(a, p.evidence, m.sources, sources.value);
    }
    if (Elems(p.claims) + Elems(p.evidence) + Elems(sources.value)) * a.context.acceptedGaps != {} {
      return None;
    }
    var donors := Donors(a, p, sources.value);
    var agreed := Classification(donors);
    if agreed.None? {
      return None;
    }
    var (kind, support) := agreed.value;
    if kind == Unsupported {
      forall m ensures !Adds(a, mappingId, f, m) {
        if Adds(a, mappingId, f, m) {
          AgreedOnce(donors, kind, support, m.kind, m.support);
        }
      }
      return None;
    }
    var m := Mapping(mappingId(p, sources.value), p.id, p.text, kind, p.claims, p.evidence, sources.value,
                     Some(sources.value), support, "deterministic_traceability_reconstruction", None);
    return Some(m);
  }

  // ---- clearing an unsupported mapping ----

  /** The mapping that an unsupported-claim finding names. */
  predicate IsCandidate(f: Finding, m: Mapping)
    requires f.details.UnsupportedMapping?
  {
    m.paragraph == f.details.paragraph && m.kind == Unsupported && m.id == f.details.mapping
  }

  function Candidates(a: Artifacts, f: Finding): seq<Mapping>
    requires f.details.UnsupportedMapping?
  {
    Filter(a.manifest.mappings, (m: Mapping) => IsCandidate(f, m))
  }

  /** Another mapping with the traceability of the paragraph, the sources of the unsupported one
      and a classification of its own. */
  predicate IsReplacementDonor(target: Mapping, p: Paragraph, m: Mapping) {
    && m.id != target.id && m.claims == p.claims && m.evidence == p.evidence && m.sources == target.sources
    && m.kind != Unsupported && m.locator.Some?
  }

  function ReplacementDonors(a: Artifacts, target: Mapping, p: Paragraph): seq<Mapping> {
    Filter(a.manifest.mappings, (m: Mapping) => IsReplacementDonor(target, p, m))
  }

  /** What the repair does about an unsupported mapping: drop it where no citation is needed,
      otherwise reclassify it as its donors agree. */
  predicate Corrects(a: Artifacts, f: Finding, target: Mapping, fix: Option<Mapping>) {
    && f.details.UnsupportedMapping? && f.details.paragraph != "" && Candidates(a, f) == [target]
    && f.details.paragraph in DraftParagraphs(a) && f.details.paragraph in ScriptParagraphs(a)
    && var d, p := DraftParagraphs(a)[f.details.paragraph], ScriptParagraphs(a)[f.details.paragraph];
       && d.claims == p.claims && d.evidence == p.evidence
       && (fix.None? <==> !p.citationRequired)
       && (fix.Some? ==>
             && Agreed(ReplacementDonors(a, target, p), fix.value.kind, fix.value.support)
             && fix.value == target.(text := p.text, kind := fix.value.kind, support := fix.value.support,
                                     risk := "deterministic_contract_reconstruction", revision := None))
  }

  /** One turn of the loop over unsupported-mapping findings. */
  method CorrectMapping(a: Artifacts, f: Finding) returns (r: Option<(Mapping, Option<Mapping>)>)
    ensures r.Some? ==> Corrects(a, f, r.value.0, r.value.1)
    ensures r.None? ==> forall target, fix :: !Corrects(a, f, target, fix)
  {
    if !f.details.UnsupportedMapping? || f.details.paragraph == "" {
      return None;
    }
    var candidates := Candidates(a, f);
    if |candidates| != 1 {
      return None;
    }
    var target := candidates[0];
    assert candidates == [target];
    if f.details.paragraph !in DraftParagraphs(a) || f.details.paragraph !in ScriptParagraphs(a) {
      return None;
    }
    var d, p := DraftParagraphs(a)[f.details.paragraph], ScriptParagraphs(a)[f.details.paragraph];
    if d.claims != p.claims || d.evidence != p.evidence {
      return None;
    }
    if !p.citationRequired {
      return Some((target, None));
    }
    var agreed := Classification(ReplacementDonors(a, target, p));
    if agreed.None? {
      return None;
    }
    var fix := target.(text := p.text, kind := agreed.value.0, support := agreed.value.1,
                       risk := "deterministic_contract_reconstruction", revision := None);
    return Some((target, Some(fix)));
  }

  // ---- the rebuilt manifest ----

  /** Fixes by mapping ID; a removed mapping has the fix None. */
  type Fixes = map<string, Option<Mapping>>

  function Rebuild(ms: seq<Mapping>, fixes: Fixes): (r: seq<Mapping>)
    ensures forall x :: x in r <==>
              exists m :: m in ms && (if m.id !in fixes then x == m else fixes[m.id] == Some(x))
  {
    if ms == [] then []
    else
      var init, last := ms[..|ms| - 1], ms[|ms| - 1];
      assert ms == init + [last];
      Rebuild(init, fixes)
      + if last.id !in fixes then [last] else match fixes[last.id] case Some(x) => [x] case None => []
  }

  /** Claims with a supported, sourced and located mapping. */
  function SupportedBy(ms: seq<Mapping>): set<string> {
    set m, c | m in ms && m.kind != Unsupported && m.evidence != [] && m.sources != [] && m.locator.Some?
        && c in m.claims :: c
  }

  predicate IssueResolved(a: Artifacts, ms: seq<Mapping>, i: Issue) {
    && i.paragraph in DraftParagraphs(a) && i.paragraph in ScriptParagraphs(a)
    && DraftParagraphs(a)[i.paragraph].claims == ScriptParagraphs(a)[i.paragraph].claims
    && i.claims != [] && Elems(i.claims) <= Elems(DraftParagraphs(a)[i.paragraph].claims)
    && Elems(i.claims) <= SupportedBy(ms)
  }

  /** The recheck of every citation-required paragraph against the rebuilt mappings. */
  predicate Complete(ms: seq<Mapping>, p: Paragraph) {
    p.citationRequired ==>
      var mapped := MappingsFor(ms, p.id);
      && mapped != [] && ClaimsOf(mapped) == Elems(p.claims) && EvidenceOf(mapped) == Elems(p.evidence)
      && forall m | m in mapped :: m.kind != Unsupported
  }

  function RemoveIssues(issues: seq<Issue>, resolved: seq<Issue>): seq<Issue> {
    if issues == [] then []
    else
      (if exists r | r in resolved ::
          r.paragraph == issues[0].paragraph && r.claims == issues[0].claims then [] else [issues[0]])
      + RemoveIssues(issues[1..], resolved)
  }

  function WithCode(errors: seq<SavedFinding>, code: Code): (r: seq<Finding>)
    ensures forall f :: f in r <==> f.code == code && exists e :: e in errors && e.finding == f
  {
    if errors == [] then []
    else
      var rest := WithCode(errors[1..], code);
      assert forall e | e in errors[1..] :: e in errors;
      (if errors[0].finding.code == code then [errors[0].finding] else []) + rest
  }

  /** The outcome: what was added and fixed, and the artifacts that result. */
  datatype Repaired = Repaired(additions: seq<Mapping>, fixes: Fixes, artifacts: Artifacts)

  /** The mapping a finding names is fixed as the repair prescribes. */
  predicate Fixed(a: Artifacts, f: Finding, fixes: Fixes) {
    && f.details.UnsupportedMapping? && |Candidates(a, f)| == 1
    && Candidates(a, f)[0].id in fixes && Corrects(a, f, Candidates(a, f)[0], fixes[Candidates(a, f)[0].id])
  }

  predicate Names(a: Artifacts, f: Finding, id: string) {
    f.details.UnsupportedMapping? && |Candidates(a, f)| == 1 && Candidates(a, f)[0].id == id
  }

  predicate NamedBy(a: Artifacts, findings: seq<Finding>, id: string) {
    exists f | f in findings :: Names(a, f, id)
  }

  /** The fixes are those of the unsupported-mapping findings, no more and no less. */
  predicate FixesAre(a: Artifacts, findings: seq<Finding>, fixes: Fixes) {
    && (forall f | f in findings :: Fixed(a, f, fixes))
    && (forall id {:trigger NamedBy(a, findings, id)} | id in fixes :: NamedBy(a, findings, id))
  }

  /** One addition per finding, in order. */
  predicate AdditionsAre(a: Artifacts, mappingId: (Paragraph, seq<string>) -> string, findings: seq<Finding>,
                         additions: seq<Mapping>)
    decreases |findings|
  {
    && |additions| == |findings|
    && (findings != [] ==>
          && Adds(a, mappingId, findings[|findings| - 1], additions[|findings| - 1])
          && AdditionsAre(a, mappingId, findings[..|findings| - 1], additions[..|findings| - 1]))
  }

  /** The repaired artifacts: a rebuilt manifest, a script without the resolved issues, and
      everything else as it was. */
  function Rebuilt(a: Artifacts, additions: seq<Mapping>, fixes: Fixes): Artifacts {
    var m := a.manifest.(supportedClaims := CanonicalClaims(a.draft),
                         mappings := Rebuild(a.manifest.mappings, fixes) + additions,
                         unsupportedClaims := []);
    a.(manifest := m,
        script := a.script.(unresolved := RemoveIssues(a.script.unresolved, a.manifest.unsupportedClaims)))
  }

  /** The repaired artifacts meet the conditions checked at the end of the repair. */
  predicate Accepted(a: Artifacts, errors: seq<SavedFinding>, after: Artifacts) {
    && Elems(CanonicalClaims(a.draft)) <= SupportedBy(after.manifest.mappings)
    && (a.manifest.unsupportedClaims != [] ==> WithCode(errors, UnsupportedClaimListNotEmpty) != [])
    && (forall i | i in a.manifest.unsupportedClaims :: IssueResolved(a, after.manifest.mappings, i))
    && (forall id | id in DraftParagraphs(a) :: Complete(after.manifest.mappings, DraftParagraphs(a)[id]))
    && after.manifest != a.manifest
  }

  predicate RepairsTo(s: State, mappingId: (Paragraph, seq<string>) -> string, r: Repaired) {
    && Eligible(s)
    && var a, errors := s.artifacts, ErrorsOf(s.validation.value);
       && AdditionsAre(a, mappingId, WithCode(errors, CitationMappingMissing), r.additions)
       && FixesAre(a, WithCode(errors, UnsupportedClaimRemains), r.fixes)
       && r.artifacts == Rebuilt(a, r.additions, r.fixes)
       && Accepted(a, errors, r.artifacts)
  }

  // ---- the repair ----

  lemma MoreAdditions(a: Artifacts, mappingId: (Paragraph, seq<string>) -> string, findings: seq<Finding>,
                      added: seq<Mapping>, f: Finding, m: Mapping)
    requires AdditionsAre(a, mappingId, findings, added) && Adds(a, mappingId, f, m)
    ensures AdditionsAre(a, mappingId, findings + [f], added + [m])
  {
    var fs, ms := findings + [f], added + [m];
    assert fs[..|fs| - 1] == findings && ms[..|ms| - 1] == added;
  }

  lemma {:induction false} NoAddition(a: Artifacts, mappingId: (Paragraph, seq<string>) -> string,
                                      findings: seq<Finding>,
                                      xs: seq<Mapping>, i: nat)
    requires i < |findings| && forall m :: !Adds(a, mappingId, findings[i], m)
    ensures !AdditionsAre(a, mappingId, findings, xs)
    decreases |findings|
  {
    hide Adds;
    var n := |findings| - 1;
    if i < n && |xs| == |findings| {
      assert findings[..n][i] == findings[i];
      NoAddition(a, mappingId, findings[..n], xs[..n], i);
    }
  }

  lemma AddsOnce(a: Artifacts, mappingId: (Paragraph, seq<string>) -> string, f: Finding, m: Mapping, n: Mapping)
    requires Adds(a, mappingId, f, m) && Adds(a, mappingId, f, n)
    ensures m == n
  {
    var p := ScriptParagraphs(a)[f.details.paragraph];
    LocatedOnce(a, p.evidence, m.sources, n.sources);
    AgreedOnce(Donors(a, p, m.sources), m.kind, m.support, n.kind, n.support);
  }

  lemma {:induction false} AdditionsOnce(a: Artifacts, mappingId: (Paragraph, seq<string>) -> string,
                                         findings: seq<Finding>,
                                         xs: seq<Mapping>, ys: seq<Mapping>)
    requires AdditionsAre(a, mappingId, findings, xs) && AdditionsAre(a, mappingId, findings, ys)
    ensures xs == ys
    decreases |findings|
  {
    hide Adds;
    if findings != [] {
      var n := |findings| - 1;
      AddsOnce(a, mappingId, findings[n], xs[n], ys[n]);
      AdditionsOnce(a, mappingId, findings[..n], xs[..n], ys[..n]);
      assert xs == xs[..n] + [xs[n]] && ys == ys[..n] + [ys[n]];
    }
  }

  lemma FixesWithin(a: Artifacts, findings: seq<Finding>, x: Fixes, y: Fixes, id: string)
    requires FixesAre(a, findings, x) && FixesAre(a, findings, y) && id in x
    ensures id in y && y[id] == x[id]
  {
    hide Corrects;
    assert NamedBy(a, findings, id);
    var f :| f in findings && Names(a, f, id);
    assert Fixed(a, f, x) && Fixed(a, f, y);
    CorrectsOnce(a, f, f, Candidates(a, f)[0], x[id], y[id]);
  }

  lemma FixesOnce(a: Artifacts, findings: seq<Finding>, x: Fixes, y: Fixes)
    requires FixesAre(a, findings, x) && FixesAre(a, findings, y)
    ensures x == y
  {
    hide FixesAre;
    forall id | id in x || id in y ensures id in x && id in y && x[id] == y[id] {
      if id in x {
        FixesWithin(a, findings, x, y, id);
      } else {
        FixesWithin(a, findings, y, x, id);
      }
    }
  }

  method AddMissing(a: Artifacts, mappingId: (Paragraph, seq<string>) -> string, findings: seq<Finding>)
    returns (additions: Option<seq<Mapping>>)
    ensures additions.Some? ==> AdditionsAre(a, mappingId, findings, additions.value)
    ensures additions.None? ==> forall xs :: !AdditionsAre(a, mappingId, findings, xs)
  {
    hide Adds;
    var added: seq<Mapping> := [];
    ghost var done: seq<Finding> := [];
    for i := 0 to |findings|
      invariant done == findings[..i] && AdditionsAre(a, mappingId, done, added)
    {
      var m := AddMapping(a, mappingId, findings[i]);
      if m.None? {
        forall xs ensures !AdditionsAre(a, mappingId, findings, xs) {
          NoAddition(a, mappingId, findings, xs, i);
        }
        return None;
      }
      MoreAdditions(a, mappingId, done, added, findings[i], m.value);
      added, done := added + [m.value], done + [findings[i]];
    }
    assert done == findings;
    return Some(added);
  }

  method CorrectUnsupported(a: Artifacts, findings: seq<Finding>) returns (fixes: Option<Fixes>)
    requires UniqueMappings(a)
    ensures fixes.Some? ==> FixesAre(a, findings, fixes.value)
    ensures fixes.None? ==> forall x :: !FixesAre(a, findings, x)
  {
    hide Corrects, Names;
    var known: Fixes := map[];
    ghost var done: seq<Finding> := [];
    for i := 0 to |findings|
      invariant done == findings[..i] && FixesAre(a, done, known)
    {
      var fix := CorrectMapping(a, findings[i]);
      if fix.None? {
        forall x ensures !FixesAre(a, findings, x) {
          assert !Fixed(a, findings[i], x);
        }
        return None;
      }
      MoreFixes(a, done, findings[i], known, fix.value.0, fix.value.1);
      known, done := known[fix.value.0.id := fix.value.1], done + [findings[i]];
    }
    assert done == findings;
    return Some(known);
  }

  lemma CorrectsOnce(a: Artifacts, f: Finding, g: Finding, target: Mapping, fix: Option<Mapping>,
                     other: Option<Mapping>)
    requires Corrects(a, f, target, fix) && Corrects(a, g, target, other)
    ensures fix == other
  {
    assert target in Candidates(a, f) && target in Candidates(a, g);
    if fix.Some? {
      var p := ScriptParagraphs(a)[f.details.paragraph];
      AgreedOnce(ReplacementDonors(a, target, p), fix.value.kind, fix.value.support, other.value.kind,
          other.value.support);
    }
  }

  /** Mapping IDs are unique, as the manifest's own validation demands. */
  predicate UniqueMappings(a: Artifacts) {
    forall m, n | m in a.manifest.mappings && n in a.manifest.mappings && m.id == n.id :: m == n
  }

  lemma StaysFixed(a: Artifacts, g: Finding, f: Finding, fixes: Fixes, target: Mapping, fix: Option<Mapping>)
    requires UniqueMappings(a) && Fixed(a, g, fixes) && Corrects(a, f, target, fix)
    ensures Fixed(a, g, fixes[target.id := fix])
  {
    var other := Candidates(a, g)[0];
    assert target in Candidates(a, f) && other in Candidates(a, g);
    if other.id == target.id {
      assert other == target;
      CorrectsOnce(a, f, g, target, fix, fixes[other.id]);
    }
  }

  lemma MoreFixes(a: Artifacts, findings: seq<Finding>, f: Finding, fixes: Fixes, target: Mapping, fix: Option<Mapping>)
    requires UniqueMappings(a) && FixesAre(a, findings, fixes) && Corrects(a, f, target, fix)
    ensures FixesAre(a, findings + [f], fixes[target.id := fix])
  {
    var more := fixes[target.id := fix];
    forall g | g in findings + [f] ensures Fixed(a, g, more) {
      if g in findings {
        StaysFixed(a, g, f, fixes, target, fix);
      }
    }
    forall id | id in more ensures NamedBy(a, findings + [f], id) {
      if id == target.id {
        assert f in findings + [f] && Names(a, f, id);
      } else {
        assert NamedBy(a, findings, id);
        var g :| g in findings && Names(a, g, id);
        assert g in findings + [f];
      }
    }
  }

  /** There is at most one repair. */
  lemma RepairsOnce(s: State, mappingId: (Paragraph, seq<string>) -> string, x: Repaired, y: Repaired)
    requires RepairsTo(s, mappingId, x) && RepairsTo(s, mappingId, y)
    ensures x == y
  {
    EligibleHasGate(s);
    hide AdditionsAre, FixesAre, Accepted, Eligible, Rebuilt;
    var a, errors := s.artifacts, ErrorsOf(s.validation.value);
    AdditionsOnce(a, mappingId, WithCode(errors, CitationMappingMissing), x.additions, y.additions);
    FixesOnce(a, WithCode(errors, UnsupportedClaimRemains), x.fixes, y.fixes);
  }

  lemma NotAccepted(s: State, mappingId: (Paragraph, seq<string>) -> string, additions: seq<Mapping>, fixes: Fixes,
                    x: Repaired)
    requires s.validation.Some?
    requires AdditionsAre(s.artifacts, mappingId, WithCode(ErrorsOf(s.validation.value), CitationMappingMissing),
              additions)
    requires FixesAre(s.artifacts, WithCode(ErrorsOf(s.validation.value), UnsupportedClaimRemains), fixes)
    requires !Accepted(s.artifacts, ErrorsOf(s.validation.value), Rebuilt(s.artifacts, additions, fixes))
    ensures !RepairsTo(s, mappingId, x)
  {
    hide AdditionsAre, FixesAre, Accepted, Rebuilt, Eligible;
    var a, errors := s.artifacts, ErrorsOf(s.validation.value);
    if RepairsTo(s, mappingId, x) {
      AdditionsOnce(a, mappingId, WithCode(errors, CitationMappingMissing), x.additions, additions);
      FixesOnce(a, WithCode(errors, UnsupportedClaimRemains), x.fixes, fixes);
    }
  }

  lemma EligibleHasGate(s: State)
    requires Eligible(s)
    ensures s.validation.Some?
  {
  }

  /** `repair`: it returns the one repair the saved findings call for, and raises only when
      there is none. It changes nothing but the manifest's claims, mappings and unsupported
      list, and the script's issues. */
  method Repair(s: State, mappingId: (Paragraph, seq<string>) -> string) returns (r: Option<Repaired>)
    requires UniqueMappings(s.artifacts)
    ensures r.Some? ==> RepairsTo(s, mappingId, r.value)
    ensures r.None? ==> forall x :: !RepairsTo(s, mappingId, x)
  {
    hide AdditionsAre, FixesAre, Accepted, Rebuilt, Eligible;
    if !Eligible(s) {
      return None;
    }
    EligibleHasGate(s);
    var a, errors := s.artifacts, ErrorsOf(s.validation.value);
    var additions := AddMissing(a, mappingId, WithCode(errors, CitationMappingMissing));
    if additions.None? {
      return None;
    }
    var fixes := CorrectUnsupported(a, WithCode(errors, UnsupportedClaimRemains));
    if fixes.None? {
      return None;
    }
    var after := Rebuilt(a, additions.value, fixes.value);
    if !Accepted(a, errors, after) {
      forall x ensures !RepairsTo(s, mappingId, x) {
        NotAccepted(s, mappingId, additions.value, fixes.value, x);
      }
      return None;
    }
    return Some(Repaired(additions.value, fixes.value, after));
  }

  // ---- soundness ----

  /** The saved findings are those the validator raises about the saved artifacts. */
  ghost predicate Faithful(s: State) {
    && s.validation.Some?
    && forall f :: Raised(s.artifacts, f) <==> exists e :: e in s.validation.value && e.finding == f
  }

  /** Registered sources have non-empty IDs, as their schema demands. */
  predicate NamedSources(a: Artifacts) {
    forall e | e in a.manifest.sourceList :: e.1 != ""
  }

  lemma SavedIsRepairable(s: State, f: Finding)
    requires Eligible(s) && Faithful(s) && Raised(s.artifacts, f)
    ensures !Blocks(f)
  {
    var e :| e in s.validation.value && e.finding == f;
    if IsError(f.code) {
      assert e in ErrorsOf(s.validation.value);
      assert Classify(e) == Deterministic;
    }
  }

  lemma EligibleIsSound(s: State)
    requires Eligible(s) && Faithful(s)
    ensures SoundBase(s.artifacts)
  {
    forall f | Raised(s.artifacts, f) ensures !Blocks(f) {
      SavedIsRepairable(s, f);
    }
    OnlyRepairableIff(s.artifacts);
  }

  lemma LocatedIsKnown(a: Artifacts, evidence: seq<string>, sources: seq<string>)
    requires NamedSources(a) && AllLocated(a, evidence, sources)
    ensures Elems(sources) <= KnownSources(a)
  {
    forall x | x in sources ensures x in KnownSources(a) {
      var i :| 0 <= i < |sources| && sources[i] == x;
      assert Located(a, evidence[i], x);
      assert x in SourcesOf(a, evidence[i]);
    }
  }

  predicate KnownMappings(a: Artifacts) {
    forall m | m in a.manifest.mappings :: KnownMapping(a, m)
  }

  predicate KnownParagraphs(a: Artifacts) {
    forall id | id in DraftParagraphs(a) :: KnownParagraph(a, DraftParagraphs(a)[id])
  }

  lemma AddedIsKnown(a: Artifacts, mappingId: (Paragraph, seq<string>) -> string, f: Finding, m: Mapping)
    requires KnownParagraphs(a) && NamedSources(a) && Adds(a, mappingId, f, m)
    ensures KnownMapping(a, m) && m.kind != Unsupported
  {
    var p := ScriptParagraphs(a)[f.details.paragraph];
    LocatedIsKnown(a, p.evidence, m.sources);
    assert KnownParagraph(a, DraftParagraphs(a)[f.details.paragraph]);
  }

  lemma CandidateIsSaved(a: Artifacts, f: Finding, target: Mapping)
    requires f.details.UnsupportedMapping? && Candidates(a, f) == [target]
    ensures target in a.manifest.mappings
  {
    assert target in Candidates(a, f);
  }

  lemma ReplacementIsSupported(a: Artifacts, target: Mapping, p: Paragraph, kind: ClaimType, support: string)
    requires Agreed(ReplacementDonors(a, target, p), kind, support)
    ensures kind != Unsupported
  {
    var donors := ReplacementDonors(a, target, p);
    assert donors[0] in donors;
  }

  lemma SameReferences(a: Artifacts, m: Mapping, x: Mapping)
    requires KnownMapping(a, m)
    requires x.paragraph == m.paragraph && x.claims == m.claims && x.evidence == m.evidence && x.sources == m.sources
    ensures KnownMapping(a, x)
  {
  }

  lemma FixedIsKnown(a: Artifacts, f: Finding, target: Mapping, fix: Option<Mapping>)
    requires KnownMappings(a) && Corrects(a, f, target, fix) && fix.Some?
    ensures KnownMapping(a, fix.value) && fix.value.kind != Unsupported
  {
    CandidateIsSaved(a, f, target);
    SameReferences(a, target, fix.value);
    ReplacementIsSupported(a, target, ScriptParagraphs(a)[f.details.paragraph], fix.value.kind, fix.value.support);
  }

  lemma SavedUnsupported(s: State, f: Finding)
    requires Faithful(s) && Raised(s.artifacts, f) && f.code == UnsupportedClaimRemains
    ensures f in WithCode(ErrorsOf(s.validation.value), UnsupportedClaimRemains)
  {
    var e :| e in s.validation.value && e.finding == f;
    assert e in ErrorsOf(s.validation.value);
  }

  lemma CandidateIsFixed(a: Artifacts, f: Finding, fixes: Fixes, m: Mapping)
    requires f.details.UnsupportedMapping? && m in a.manifest.mappings && IsCandidate(f, m) && Fixed(a, f, fixes)
    ensures m.id in fixes
  {
    assert m in Candidates(a, f);
  }

  /** Every unsupported mapping of the saved manifest is fixed: the validator raised it. */
  lemma UnsupportedIsFixed(s: State, fixes: Fixes, m: Mapping)
    requires Faithful(s)
    requires FixesAre(s.artifacts, WithCode(ErrorsOf(s.validation.value), UnsupportedClaimRemains), fixes)
    requires m in s.artifacts.manifest.mappings && m.kind == Unsupported
    ensures m.id in fixes
  {
    var f := Finding(UnsupportedClaimRemains, UnsupportedMapping(m.id, m.paragraph, m.claims, m.evidence));
    UnsupportedRaises(s.artifacts, m, f);
    SavedUnsupported(s, f);
    CandidateIsFixed(s.artifacts, f, fixes, m);
  }

  lemma UnsupportedRaises(a: Artifacts, m: Mapping, f: Finding)
    requires m in a.manifest.mappings && m.kind == Unsupported
    requires f == Finding(UnsupportedClaimRemains, UnsupportedMapping(m.id, m.paragraph, m.claims, m.evidence))
    ensures Raised(a, f)
  {
    var checks := MappingChecks(a, m);
    assert f == Finding(checks[4].code, checks[4].details);
    FailedIsRaised(checks, 4);
    assert MappingRaised(a, f);
    IsRaised(a, f);
  }

  lemma FixedFrom(a: Artifacts, findings: seq<Finding>, fixes: Fixes, id: string) returns (f: Finding)
    requires FixesAre(a, findings, fixes) && id in fixes
    ensures f.details.UnsupportedMapping? && |Candidates(a, f)| == 1 && Corrects(a, f, Candidates(a, f)[0], fixes[id])
  {
    assert NamedBy(a, findings, id);
    f :| f in findings && Names(a, f, id);
    assert Fixed(a, f, fixes);
  }

  lemma FixedMapping(a: Artifacts, findings: seq<Finding>, fixes: Fixes, id: string, x: Mapping)
    requires FixesAre(a, findings, fixes) && KnownMappings(a) && id in fixes && fixes[id] == Some(x)
    ensures KnownMapping(a, x) && x.kind != Unsupported
  {
    var f := FixedFrom(a, findings, fixes, id);
    var target := Candidates(a, f)[0];
    FixedIsKnown(a, f, target, fixes[id]);
  }

  lemma {:induction false} AddedMapping(a: Artifacts, mappingId: (Paragraph, seq<string>) -> string,
                                        findings: seq<Finding>,
                                        additions: seq<Mapping>, x: Mapping)
    requires AdditionsAre(a, mappingId, findings, additions) && KnownParagraphs(a) && NamedSources(a) && x in additions
    ensures KnownMapping(a, x) && x.kind != Unsupported
    decreases |findings|
  {
    hide Adds, KnownMapping;
    var n := |findings| - 1;
    if x == additions[n] {
      AddedIsKnown(a, mappingId, findings[n], x);
    } else {
      assert additions == additions[..n] + [additions[n]];
      AddedMapping(a, mappingId, findings[..n], additions[..n], x);
    }
  }

  lemma RebuiltFrom(a: Artifacts, r: Repaired, x: Mapping) returns (m: Option<Mapping>)
    requires r.artifacts == Rebuilt(a, r.additions, r.fixes) && x in r.artifacts.manifest.mappings
    ensures m.None? ==> x in r.additions
    ensures m.Some? ==> m.value in a.manifest.mappings
                        && (if m.value.id in r.fixes then r.fixes[m.value.id] == Some(x) else x == m.value)
  {
    if x in r.additions {
      m := None;
    } else {
      assert x in Rebuild(a.manifest.mappings, r.fixes);
      var k :| k in a.manifest.mappings && (if k.id !in r.fixes then x == k else r.fixes[k.id] == Some(x));
      m := Some(k);
    }
  }

  lemma RebuiltMapping(s: State, mappingId: (Paragraph, seq<string>) -> string, r: Repaired, x: Mapping)
    requires Faithful(s) && NamedSources(s.artifacts) && KnownMappings(s.artifacts) && KnownParagraphs(s.artifacts)
    requires var errors := ErrorsOf(s.validation.value);
             && AdditionsAre(s.artifacts, mappingId, WithCode(errors, CitationMappingMissing), r.additions)
             && FixesAre(s.artifacts, WithCode(errors, UnsupportedClaimRemains), r.fixes)
    requires r.artifacts == Rebuilt(s.artifacts, r.additions, r.fixes) && x in r.artifacts.manifest.mappings
    ensures KnownMapping(s.artifacts, x) && x.kind != Unsupported
  {
    var errors := ErrorsOf(s.validation.value);
    var m := RebuiltFrom(s.artifacts, r, x);
    if m.None? {
      AddedMapping(s.artifacts, mappingId, WithCode(errors, CitationMappingMissing), r.additions, x);
    } else if m.value.id in r.fixes {
      FixedMapping(s.artifacts, WithCode(errors, UnsupportedClaimRemains), r.fixes, m.value.id, x);
    } else if m.value.kind == Unsupported {
      UnsupportedIsFixed(s, r.fixes, m.value);
    }
  }

  /** The conditions that do not look at the manifest's mappings or issue lists carry over. */
  lemma BaseCarriesOver(a: Artifacts, additions: seq<Mapping>, fixes: Fixes)
    requires SoundBase(a)
    ensures var after := Rebuilt(a, additions, fixes);
            && Linked(after) && NarrativeCovers(after) && SectionsMatch(after) && ParagraphsKept(after)
                 && Disclosed(after)
            && ClaimsAgree(after)
            && DraftParagraphs(after) == DraftParagraphs(a)
            && (forall m :: KnownMapping(after, m) <==> KnownMapping(a, m))
            && (forall p :: KnownParagraph(after, p) <==> KnownParagraph(a, p))
            && (forall c | c in after.visuals.cues :: SoundCue(after, c))
            && (forall c | c in after.visuals.charts :: SoundChart(after, c))
  {
    var after := Rebuilt(a, additions, fixes);
    assert DraftParagraphs(after) == DraftParagraphs(a) && ScriptParagraphs(after) == ScriptParagraphs(a);
    assert KnownSources(after) == KnownSources(a);
    forall id | id in DraftParagraphs(after) ensures !TraceabilityChanged(after, id) {
      assert !TraceabilityChanged(a, id);
    }
    forall c | c in after.visuals.cues ensures SoundCue(after, c) {
      assert SoundCue(a, c);
    }
    forall c | c in after.visuals.charts ensures SoundChart(after, c) {
      assert SoundChart(a, c);
    }
  }

  /** Repair soundness: when the saved findings are the validator's own and the repair returns,
      the validator passes the repaired artifacts without a single error. */
  lemma RepairIsSound(s: State, mappingId: (Paragraph, seq<string>) -> string, r: Repaired)
    requires Faithful(s) && NamedSources(s.artifacts) && RepairsTo(s, mappingId, r)
    ensures Passes(r.artifacts)
  {
    var a, after := s.artifacts, r.artifacts;
    EligibleIsSound(s);
    BaseCarriesOver(a, r.additions, r.fixes);
    forall x | x in after.manifest.mappings ensures KnownMapping(after, x) && x.kind != Unsupported {
      RebuiltMapping(s, mappingId, r, x);
    }
    forall id | id in DraftParagraphs(after)
      ensures Reproduced(after, DraftParagraphs(after)[id]) && Mapped(after, DraftParagraphs(after)[id])
              && KnownParagraph(after, DraftParagraphs(after)[id])
    {
      assert Complete(after.manifest.mappings, DraftParagraphs(a)[id]);
      assert KnownParagraph(a, DraftParagraphs(a)[id]);
    }
    assert SoundBase(after) && Cited(after);
    PassesIff(after);
  }
}
