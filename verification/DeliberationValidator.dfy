/** The checks of `DeliberationValidator.validate` (deliberation/validator.py), and what a
    passing result means. */
module DeliberationValidator {
  import opened Collections
  import opened Json
  import opened Deliberation

  function Raise(found: bool, severity: Severity, category: string, ids: set<string>): seq<Finding> {
    if found then [Finding(severity, category, ids)] else []
  }

  // ---- the findings, check by check ----

  function OwnerFindings(ps: seq<Primary>): seq<Finding> {
    if ps == [] then []
    else OwnerFindings(ps[..|ps| - 1]) + Raise(ps[|ps| - 1].UnknownOwner?, Error, "schema", {})
  }

  function PrimaryFindings(c: Case): seq<Finding> {
    Raise(|c.primaries| < 2, Critical, "workflow", {}) + OwnerFindings(c.primaries)
  }

  function Twice(ids: seq<string>): set<string> {
    set x | x in ids && multiset(ids)[x] > 1
  }

  function AllIds(c: Case): seq<string> {
    AnalysisIds(c) + TaskIds(c) + IntegrationIds(c)
  }

  predicate IsTaskId(id: string) {
    "delib_task_" <= id || "counter_task_" <= id
  }

  function BadTasks(c: Case): set<string> {
    set x | x in TaskIds(c) && !IsTaskId(x)
  }

  function IdentifierFindings(c: Case): seq<Finding> {
    Raise(Twice(AllIds(c)) != {}, Error, "identifier", Twice(AllIds(c)))
    + Raise(BadTasks(c) != {}, Error, "identifier", BadTasks(c))
  }

  function CollectedAll(ps: seq<Primary>): (r: set<string>)
    requires forall p | p in ps :: p.Known?
  {
    set p, x | p in ps && x in Collected(p.body) :: x
  }

  function Referenced(c: Case): set<string> {
    CollectedAll(Parsed(c.primaries)) + Collected(c.initial.body) + Collected(c.counter.body) + Collected(c.final.body)
  }

  function EvidenceFindings(c: Case): seq<Finding> {
    var unknown := Referenced(c) - ReportEvidence(c.report);
    Raise(unknown != {}, Error, "traceability", unknown)
  }

  /** The report sources of an entry's evidence that the entry does not list. */
  function MissingSources(report: seq<Evidence>, e: Entry): set<string> {
    (set id | id in e.evidence && SourceOf(report, id).Some? :: SourceOf(report, id).value) - Elems(e.sources)
  }

  /** What `_append_unknown_reference_finding` adds. */
  function UnknownFinding(unknown: set<string>): seq<Finding> {
    Raise(unknown != {}, Error, "traceability", unknown)
  }

  function EntryFinding(c: Case, e: Entry): seq<Finding> {
    UnknownFinding(Elems(e.evidence) - ReportEvidence(c.report))
    + UnknownFinding(Elems(e.sources) - ReportSources(c.report))
    + UnknownFinding(Elems(e.analyses) - Elems(AnalysisIds(c)))
    + UnknownFinding(Elems(e.claims) - ClaimIds(c))
    + UnknownFinding(Elems(e.counterarguments) - CounterIds(c))
    + UnknownFinding(Elems(e.challenges) - Elems(c.counter.challenges))
    + UnknownFinding(Elems(e.integrations) - Elems(IntegrationIds(c)))
    + UnknownFinding(Elems(e.tasks) - Elems(TaskIds(c)))
    + UnknownFinding(MissingSources(c.report, e))
  }

  function EntryFindings(c: Case, k: nat): seq<Finding>
    requires k <= |c.final.entries|
  {
    if k == 0 then [] else EntryFindings(c, k - 1) + EntryFinding(c, c.final.entries[k - 1])
  }

  predicate IsFull(e: Entry) {
    e.analyses != [] && e.evidence != [] && e.sources != []
  }

  function Traced(es: seq<Entry>): set<string> {
    set e, x | e in es && IsFull(e) && x in e.claims :: x
  }

  function ClaimFindings(c: Case): seq<Finding> {
    var untraced := Elems(c.final.claims) - Traced(c.final.entries);
    Raise(untraced != {}, Error, "traceability", untraced)
  }

  predicate IsAt(text: string, part: string, i: nat) {
    i + |part| <= |text| && text[i..i + |part|] == part
  }

  predicate Contains(text: string, part: string) {
    exists i | 0 <= i <= |text| :: IsAt(text, part, i)
  }

  function FirstStakeholder(ps: seq<Primary>): (r: Option<Primary>)
    ensures r.Some? ==> r.value in ps && r.value.Known? && r.value.isStakeholder
    ensures r.None? ==> forall p | p in ps && p.Known? :: !p.isStakeholder
  {
    if ps == [] then None
    else
      var before := FirstStakeholder(ps[..|ps| - 1]);
      assert forall p :: p in ps <==> p in ps[..|ps| - 1] || p == ps[|ps| - 1];
      if before.Some? then before
      else if ps[|ps| - 1].Known? && ps[|ps| - 1].isStakeholder then Some(ps[|ps| - 1]) else None
  }

  function Promoted(c: Case): set<string> {
    match FirstStakeholder(c.primaries)
    case Some(Known(_, _, _, _, facts)) =>
      set f | f in facts && !f.verified && Contains(c.final.text, f.statement) :: f.id
    case _ => {}
  }

  function BoundaryFindings(c: Case): seq<Finding> {
    Raise(Promoted(c) != {}, Error, "stakeholder_evidence_boundary", Promoted(c))
  }

  function RevisionSources(rs: seq<Revision>): set<string> {
    set r, x | r in rs && x in r.sources :: x
  }

  function LineageFindings(c: Case): seq<Finding> {
    Raise(c.final.previous != c.initial.id, Error, "lineage", {})
    + Raise(|c.final.viewpoints| > 3, Error, "viewpoint", {})
    + Raise(c.counter.revisions == [], Error, "counterargument", {})
  }

  function Unrouted(c: Case): set<string> {
    set k | k in c.counter.counterarguments && k.required && k.id !in RevisionSources(c.counter.revisions) :: k.id
  }

  /** `dispositions`: by counterargument, a later one replacing an earlier one. */
  function Latest(ds: seq<Disposition>): (r: map<string, Disposition>)
    ensures forall id :: id in r <==> exists d :: d in ds && d.counterargument == id
    ensures forall id | id in r :: r[id] in ds && r[id].counterargument == id
  {
    if ds == [] then map[]
    else
      var last := ds[|ds| - 1];
      assert forall d :: d in ds <==> d in ds[..|ds| - 1] || d == last;
      Latest(ds[..|ds| - 1])[last.counterargument := last]
  }

  function Missing(c: Case): set<string> {
    set k | k in c.counter.counterarguments && k.required && k.id !in Latest(c.final.dispositions) :: k.id
  }

  function RoutingFindings(c: Case): seq<Finding> {
    var strange := Latest(c.final.dispositions).Keys - CounterIds(c);
    Raise(Unrouted(c) != {}, Error, "counterargument_routing", Unrouted(c))
    + Raise(strange != {}, Error, "counterargument_routing", strange)
    + Raise(Missing(c) != {}, Error, "counterargument_routing", Missing(c))
  }

  /** The dictionary's keys in the order of their first insertion. */
  function Keys(ds: seq<Disposition>): (r: seq<string>)
    ensures forall id :: id in r <==> id in Latest(ds)
  {
    if ds == [] then []
    else
      var before := Keys(ds[..|ds| - 1]);
      var id := ds[|ds| - 1].counterargument;
      if id in before then before else before + [id]
  }

  function UnknownChanges(c: Case, id: string): set<string>
    requires id in Latest(c.final.dispositions)
  {
    Elems(Latest(c.final.dispositions)[id].changes) - Elems(c.final.changes)
  }

  function ChangeFindings(c: Case, k: nat): seq<Finding>
    requires k <= |Keys(c.final.dispositions)|
  {
    if k == 0 then []
    else
      var id := Keys(c.final.dispositions)[k - 1];
      assert id in Keys(c.final.dispositions);
      ChangeFindings(c, k - 1) + Raise(UnknownChanges(c, id) != {}, Error, "counterargument_routing",
          UnknownChanges(c, id))
  }

  function OrphanUncertainties(c: Case): set<string> {
    set k | k in c.counter.counterarguments && k.uncertainty != "" && k.uncertainty !in c.counter.uncertainties
          :: k.uncertainty
  }

  function ClosingFindings(c: Case): seq<Finding> {
    var unused := ReportEvidence(c.report) - Referenced(c);
    Raise(OrphanUncertainties(c) != {}, Error, "counterargument_completion", OrphanUncertainties(c))
    + Raise(unused != {}, Warning, "traceability", unused)
  }

  /** Everything `validate` finds, in its order. */
  function Findings(c: Case): seq<Finding> {
    PrimaryFindings(c) + IdentifierFindings(c) + EvidenceFindings(c) + EntryFindings(c, |c.final.entries|)
    + ClaimFindings(c) + BoundaryFindings(c) + LineageFindings(c) + RoutingFindings(c)
    + ChangeFindings(c, |Keys(c.final.dispositions)|) + ClosingFindings(c)
  }

  predicate Passes(fs: seq<Finding>) {
    forall f | f in fs :: f.severity == Warning
  }

  // ---- the loops ----

  /** The findings as the code appends them. */
  method Validate(c: Case) returns (findings: seq<Finding>, passed: bool)
    ensures findings == Findings(c)
    ensures passed <==> Passes(findings)
  {
    findings := PrimariesLoop(c);
    findings := findings + IdentifierFindings(c) + EvidenceFindings(c);
    var more := EntriesLoop(c);
    findings := findings + more + ClaimFindings(c) + BoundaryFindings(c) + LineageFindings(c) + RoutingFindings(c);
    more := DispositionsLoop(c);
    findings := findings + more + ClosingFindings(c);
    passed := forall f | f in findings :: f.severity == Warning;
  }

  method PrimariesLoop(c: Case) returns (findings: seq<Finding>)
    ensures findings == PrimaryFindings(c)
  {
    findings := [];
    if |c.primaries| < 2 {
      findings := [Finding(Critical, "workflow", {})];
    }
    ghost var start := findings;
    for i := 0 to |c.primaries|
      invariant findings == start + OwnerFindings(c.primaries[..i])
    {
      assert c.primaries[..i + 1][..i] == c.primaries[..i];
      if c.primaries[i].UnknownOwner? {
        findings := findings + [Finding(Error, "schema", {})];
      }
    }
    assert c.primaries[..|c.primaries|] == c.primaries;
  }

  method EntriesLoop(c: Case) returns (findings: seq<Finding>)
    ensures findings == EntryFindings(c, |c.final.entries|)
  {
    findings := [];
    for i := 0 to |c.final.entries|
      invariant findings == EntryFindings(c, i)
    {
      findings := findings + EntryFinding(c, c.final.entries[i]);
    }
  }

  method DispositionsLoop(c: Case) returns (findings: seq<Finding>)
    ensures findings == ChangeFindings(c, |Keys(c.final.dispositions)|)
  {
    hide Keys, Latest;
    var keys, latest := Keys(c.final.dispositions), Latest(c.final.dispositions);
    findings := [];
    for i := 0 to |keys|
      invariant findings == ChangeFindings(c, i)
    {
      assert keys[i] in keys;
      var unknown := Elems(latest[keys[i]].changes) - Elems(c.final.changes);
      if unknown != {} {
        findings := findings + [Finding(Error, "counterargument_routing", unknown)];
      }
    }
  }

  // ---- what passing means ----

  /** No ID is used twice. */
  ghost predicate Distinct(ids: seq<string>) {
    forall i, j | 0 <= i < j < |ids| :: ids[i] != ids[j]
  }

  ghost predicate WellIdentified(c: Case) {
    Distinct(AllIds(c)) && forall x | x in TaskIds(c) :: IsTaskId(x)
  }

  /** Every reference of the entry is known, and it lists the report source of each of its
      evidence IDs. */
  ghost predicate EntryIsSound(c: Case, e: Entry) {
    && (forall x | x in e.evidence :: x in ReportEvidence(c.report) && SourceOf(c.report, x).value in e.sources)
    && (forall x | x in e.sources :: x in ReportSources(c.report))
    && (forall x | x in e.analyses :: x in AnalysisIds(c))
    && (forall x | x in e.claims :: x in ClaimIds(c))
    && (forall x | x in e.counterarguments :: x in CounterIds(c))
    && (forall x | x in e.challenges :: x in c.counter.challenges)
    && (forall x | x in e.integrations :: x in IntegrationIds(c))
    && (forall x | x in e.tasks :: x in TaskIds(c))
  }

  ghost predicate ClaimsAreTraced(c: Case) {
    forall x | x in c.final.claims :: exists e :: e in c.final.entries && IsFull(e) && x in e.claims
  }

  ghost predicate BoundaryIsKept(c: Case) {
    FirstStakeholder(c.primaries).Some? ==>
      forall f | f in FirstStakeholder(c.primaries).value.facts && !f.verified :: !Contains(c.final.text, f.statement)
  }

  ghost predicate CounterargumentsAreAnswered(c: Case) {
    && (forall k | k in c.counter.counterarguments && k.required ::
          && (exists r :: r in c.counter.revisions && k.id in r.sources)
          && (exists d :: d in c.final.dispositions && d.counterargument == k.id))
    && (forall d | d in c.final.dispositions :: d.counterargument in CounterIds(c))
    && (forall id | id in Latest(c.final.dispositions) ::
          forall x | x in Latest(c.final.dispositions)[id].changes :: x in c.final.changes)
  }

  ghost predicate Acceptable(c: Case) {
    && |c.primaries| >= 2 && (forall p | p in c.primaries :: p.Known?)
    && WellIdentified(c)
    && Referenced(c) <= ReportEvidence(c.report)
    && (forall e | e in c.final.entries :: EntryIsSound(c, e))
    && ClaimsAreTraced(c) && BoundaryIsKept(c)
    && c.final.previous == c.initial.id && |c.final.viewpoints| <= 3 && c.counter.revisions != []
    && CounterargumentsAreAnswered(c)
    && (forall k | k in c.counter.counterarguments && k.uncertainty != "" :: k.uncertainty in c.counter.uncertainties)
  }

  lemma PassesParts(a: seq<Finding>, b: seq<Finding>)
    ensures Passes(a + b) <==> Passes(a) && Passes(b)
  {
    assert forall f :: f in a + b <==> f in a || f in b;
  }

  lemma PassesRaise(found: bool, severity: Severity, category: string, ids: set<string>)
    ensures Passes(Raise(found, severity, category, ids)) <==> !found || severity == Warning
  {
    if found {
      assert Finding(severity, category, ids) in Raise(found, severity, category, ids);
    }
  }

  lemma NothingPasses()
    ensures Passes([])
  {
  }

  lemma {:induction false} OwnersPass(ps: seq<Primary>)
    ensures Passes(OwnerFindings(ps)) <==> forall p | p in ps :: p.Known?
  {
    hide Passes, Raise;
    if ps == [] {
      NothingPasses();
    } else {
      var init, last := ps[..|ps| - 1], ps[|ps| - 1];
      OwnersPass(init);
      PassesParts(OwnerFindings(init), Raise(last.UnknownOwner?, Error, "schema", {}));
      PassesRaise(last.UnknownOwner?, Error, "schema", {});
      assert last in ps;
      assert forall p :: p in ps <==> p in init || p == last;
    }
  }

  lemma PrimariesPass(c: Case)
    ensures Passes(PrimaryFindings(c)) <==> |c.primaries| >= 2 && forall p | p in c.primaries :: p.Known?
  {
    PassesParts(Raise(|c.primaries| < 2, Critical, "workflow", {}), OwnerFindings(c.primaries));
    PassesRaise(|c.primaries| < 2, Critical, "workflow", {});
    OwnersPass(c.primaries);
  }

  lemma CountSplit(ids: seq<string>, i: nat)
    requires i < |ids|
    ensures multiset(ids)[ids[i]] == multiset(ids[..i])[ids[i]] + 1 + multiset(ids[i + 1..])[ids[i]]
  {
    assert ids == ids[..i] + [ids[i]] + ids[i + 1..];
  }

  lemma TwiceIff(ids: seq<string>)
    ensures Twice(ids) == {} <==> Distinct(ids)
  {
    if !Distinct(ids) {
      var i, j :| 0 <= i < j < |ids| && ids[i] == ids[j];
      CountSplit(ids, i);
      assert ids[i + 1..][j - i - 1] == ids[i];
      assert ids[i] in multiset(ids[i + 1..]);
      assert ids[i] in Twice(ids);
    } else {
      forall x | x in ids ensures multiset(ids)[x] <= 1 {
        var i :| 0 <= i < |ids| && ids[i] == x;
        CountSplit(ids, i);
        assert x !in ids[..i] && x !in ids[i + 1..];
        assert x !in multiset(ids[..i]) && x !in multiset(ids[i + 1..]);
      }
    }
  }

  lemma IdentifiersPass(c: Case)
    ensures Passes(IdentifierFindings(c)) <==> WellIdentified(c)
  {
    var twice, bad := Twice(AllIds(c)), BadTasks(c);
    PassesParts(Raise(twice != {}, Error, "identifier", twice), Raise(bad != {}, Error, "identifier", bad));
    PassesRaise(twice != {}, Error, "identifier", twice);
    PassesRaise(bad != {}, Error, "identifier", bad);
    TwiceIff(AllIds(c));
    assert bad == {} <==> forall x | x in TaskIds(c) :: x !in bad;
  }

  lemma PassesUnknown(unknown: set<string>)
    ensures Passes(UnknownFinding(unknown)) <==> unknown == {}
  {
    PassesRaise(unknown != {}, Error, "traceability", unknown);
  }

  lemma UnknownPass(ids: seq<string>, known: set<string>)
    ensures Passes(UnknownFinding(Elems(ids) - known)) <==> forall x | x in ids :: x in known
  {
    PassesUnknown(Elems(ids) - known);
    assert Elems(ids) - known == {} <==> forall x | x in ids :: x !in Elems(ids) - known;
  }

  lemma SourcesPass(report: seq<Evidence>, e: Entry)
    requires forall x | x in e.evidence :: x in ReportEvidence(report)
    ensures Passes(UnknownFinding(MissingSources(report, e))) <==>
              forall x | x in e.evidence :: SourceOf(report, x).value in e.sources
  {
    PassesUnknown(MissingSources(report, e));
    forall x | x in e.evidence
      ensures SourceOf(report, x).value in MissingSources(report, e) <==> SourceOf(report, x).value !in e.sources
    {
    }
  }

  lemma EntryPasses(c: Case, e: Entry)
    ensures Passes(EntryFinding(c, e)) <==> EntryIsSound(c, e)
  {
    hide Passes, UnknownFinding, MissingSources, ReportEvidence, ReportSources, AnalysisIds, ClaimIds, CounterIds,
         TaskIds, IntegrationIds;
    var a := UnknownFinding(Elems(e.evidence) - ReportEvidence(c.report));
    var b := UnknownFinding(Elems(e.sources) - ReportSources(c.report));
    var d := UnknownFinding(Elems(e.analyses) - Elems(AnalysisIds(c)));
    var f := UnknownFinding(Elems(e.claims) - ClaimIds(c));
    var g := UnknownFinding(Elems(e.counterarguments) - CounterIds(c));
    var h := UnknownFinding(Elems(e.challenges) - Elems(c.counter.challenges));
    var i := UnknownFinding(Elems(e.integrations) - Elems(IntegrationIds(c)));
    var j := UnknownFinding(Elems(e.tasks) - Elems(TaskIds(c)));
    var k := UnknownFinding(MissingSources(c.report, e));
    PassesParts(a, b);
    PassesParts(a + b, d);
    PassesParts(a + b + d, f);
    PassesParts(a + b + d + f, g);
    PassesParts(a + b + d + f + g, h);
    PassesParts(a + b + d + f + g + h, i);
    PassesParts(a + b + d + f + g + h + i, j);
    PassesParts(a + b + d + f + g + h + i + j, k);
    UnknownPass(e.evidence, ReportEvidence(c.report));
    UnknownPass(e.sources, ReportSources(c.report));
    UnknownPass(e.analyses, Elems(AnalysisIds(c)));
    UnknownPass(e.claims, ClaimIds(c));
    UnknownPass(e.counterarguments, CounterIds(c));
    UnknownPass(e.challenges, Elems(c.counter.challenges));
    UnknownPass(e.integrations, Elems(IntegrationIds(c)));
    UnknownPass(e.tasks, Elems(TaskIds(c)));
    if forall x | x in e.evidence :: x in ReportEvidence(c.report) {
      SourcesPass(c.report, e);
    }
  }

  lemma {:induction false} EntriesPass(c: Case, k: nat)
    requires k <= |c.final.entries|
    ensures Passes(EntryFindings(c, k)) <==> forall i | 0 <= i < k :: EntryIsSound(c, c.final.entries[i])
  {
    hide Passes, EntryFinding, EntryIsSound;
    if k > 0 {
      EntriesPass(c, k - 1);
      PassesParts(EntryFindings(c, k - 1), EntryFinding(c, c.final.entries[k - 1]));
      EntryPasses(c, c.final.entries[k - 1]);
    } else {
      NothingPasses();
    }
  }

  lemma ClaimsPass(c: Case)
    ensures Passes(ClaimFindings(c)) <==> ClaimsAreTraced(c)
  {
    var untraced := Elems(c.final.claims) - Traced(c.final.entries);
    PassesRaise(untraced != {}, Error, "traceability", untraced);
    assert untraced == {} <==> forall x | x in c.final.claims :: x !in untraced;
    forall x | x in c.final.claims
      ensures x !in untraced <==> exists e :: e in c.final.entries && IsFull(e) && x in e.claims
    {
    }
  }

  lemma BoundaryPasses(c: Case)
    ensures Passes(BoundaryFindings(c)) <==> BoundaryIsKept(c)
  {
    PassesRaise(Promoted(c) != {}, Error, "stakeholder_evidence_boundary", Promoted(c));
    if FirstStakeholder(c.primaries).Some? {
      forall f | f in FirstStakeholder(c.primaries).value.facts && !f.verified && Contains(c.final.text, f.statement)
        ensures f.id in Promoted(c)
      {
      }
    }
  }

  lemma LineagePasses(c: Case)
    ensures Passes(LineageFindings(c)) <==>
              c.final.previous == c.initial.id && |c.final.viewpoints| <= 3 && c.counter.revisions != []
  {
    var a := Raise(c.final.previous != c.initial.id, Error, "lineage", {});
    var b := Raise(|c.final.viewpoints| > 3, Error, "viewpoint", {});
    var d := Raise(c.counter.revisions == [], Error, "counterargument", {});
    PassesParts(a, b);
    PassesParts(a + b, d);
    PassesRaise(c.final.previous != c.initial.id, Error, "lineage", {});
    PassesRaise(|c.final.viewpoints| > 3, Error, "viewpoint", {});
    PassesRaise(c.counter.revisions == [], Error, "counterargument", {});
  }

  lemma RoutingPasses(c: Case)
    ensures Passes(RoutingFindings(c)) <==>
              && (forall k | k in c.counter.counterarguments && k.required ::
                    && (exists r :: r in c.counter.revisions && k.id in r.sources)
                    && (exists d :: d in c.final.dispositions && d.counterargument == k.id))
              && (forall d | d in c.final.dispositions :: d.counterargument in CounterIds(c))
  {
    var strange := Latest(c.final.dispositions).Keys - CounterIds(c);
    var a := Raise(Unrouted(c) != {}, Error, "counterargument_routing", Unrouted(c));
    var b := Raise(strange != {}, Error, "counterargument_routing", strange);
    var d := Raise(Missing(c) != {}, Error, "counterargument_routing", Missing(c));
    PassesParts(a, b);
    PassesParts(a + b, d);
    PassesRaise(Unrouted(c) != {}, Error, "counterargument_routing", Unrouted(c));
    PassesRaise(strange != {}, Error, "counterargument_routing", strange);
    PassesRaise(Missing(c) != {}, Error, "counterargument_routing", Missing(c));
    forall k | k in c.counter.counterarguments && k.required
      ensures k.id in Unrouted(c) <==> !exists r :: r in c.counter.revisions && k.id in r.sources
      ensures k.id in Missing(c) <==> !exists x :: x in c.final.dispositions && x.counterargument == k.id
    {
    }
    forall x | x in c.final.dispositions ensures x.counterargument in strange <==> x.counterargument !in CounterIds(c) {
    }
    assert strange == {} <==> forall x | x in c.final.dispositions :: x.counterargument !in strange;
  }

  lemma {:induction false} ChangesPass(c: Case, k: nat)
    requires k <= |Keys(c.final.dispositions)|
    ensures Passes(ChangeFindings(c, k)) <==>
              forall i | 0 <= i < k :: Keys(c.final.dispositions)[i] in Latest(c.final.dispositions)
                                       && UnknownChanges(c, Keys(c.final.dispositions)[i]) == {}
  {
    hide Passes, Raise, Keys, Latest;
    if k == 0 {
      NothingPasses();
    } else {
      ChangesPass(c, k - 1);
      var id := Keys(c.final.dispositions)[k - 1];
      assert id in Keys(c.final.dispositions);
      var unknown := UnknownChanges(c, id);
      PassesParts(ChangeFindings(c, k - 1), Raise(unknown != {}, Error, "counterargument_routing", unknown));
      PassesRaise(unknown != {}, Error, "counterargument_routing", unknown);
    }
  }

  lemma AllChangesPass(c: Case)
    ensures Passes(ChangeFindings(c, |Keys(c.final.dispositions)|)) <==>
              forall id | id in Latest(c.final.dispositions) ::
                forall x | x in Latest(c.final.dispositions)[id].changes :: x in c.final.changes
  {
    var keys, latest := Keys(c.final.dispositions), Latest(c.final.dispositions);
    ChangesPass(c, |keys|);
    forall id | id in latest
      ensures UnknownChanges(c, id) == {} <==> forall x | x in latest[id].changes :: x in c.final.changes
      ensures exists i :: 0 <= i < |keys| && keys[i] == id
    {
      assert id in keys;
      assert UnknownChanges(c, id) == {} <==> forall x | x in latest[id].changes :: x !in UnknownChanges(c, id);
    }
  }

  lemma ClosingPasses(c: Case)
    ensures Passes(ClosingFindings(c)) <==>
              forall k | k in c.counter.counterarguments && k.uncertainty != "" ::
                  k.uncertainty in c.counter.uncertainties
  {
    var orphans, unused := OrphanUncertainties(c), ReportEvidence(c.report) - Referenced(c);
    PassesParts(Raise(orphans != {}, Error, "counterargument_completion", orphans),
        Raise(unused != {}, Warning, "traceability", unused));
    PassesRaise(orphans != {}, Error, "counterargument_completion", orphans);
    PassesRaise(unused != {}, Warning, "traceability", unused);
    forall k | k in c.counter.counterarguments && k.uncertainty != ""
      ensures k.uncertainty in orphans <==> k.uncertainty !in c.counter.uncertainties
    {
    }
  }

  /** The validator passes exactly the acceptable cases. */
  lemma PassesIff(c: Case)
    ensures Passes(Findings(c)) <==> Acceptable(c)
  {
    hide Passes, PrimaryFindings, IdentifierFindings, EvidenceFindings, EntryFindings, ClaimFindings, BoundaryFindings,
         LineageFindings, RoutingFindings, ChangeFindings, ClosingFindings, Keys, Latest, EntryIsSound, ClaimsAreTraced,
         BoundaryIsKept, WellIdentified, Referenced, ReportEvidence;
    var a, b, d := PrimaryFindings(c), IdentifierFindings(c), EvidenceFindings(c);
    var e, f, g := EntryFindings(c, |c.final.entries|), ClaimFindings(c), BoundaryFindings(c);
    var h, i, j := LineageFindings(c), RoutingFindings(c), ChangeFindings(c, |Keys(c.final.dispositions)|);
    var k := ClosingFindings(c);
    PassesParts(a, b);
    PassesParts(a + b, d);
    PassesParts(a + b + d, e);
    PassesParts(a + b + d + e, f);
    PassesParts(a + b + d + e + f, g);
    PassesParts(a + b + d + e + f + g, h);
    PassesParts(a + b + d + e + f + g + h, i);
    PassesParts(a + b + d + e + f + g + h + i, j);
    PassesParts(a + b + d + e + f + g + h + i + j, k);
    PrimariesPass(c);
    IdentifiersPass(c);
    EvidencePasses(c);
    EntriesPass(c, |c.final.entries|);
    ClaimsPass(c);
    BoundaryPasses(c);
    LineagePasses(c);
    RoutingPasses(c);
    AllChangesPass(c);
    ClosingPasses(c);
  }

  lemma EvidencePasses(c: Case)
    ensures Passes(EvidenceFindings(c)) <==> Referenced(c) <= ReportEvidence(c.report)
  {
    hide Referenced, ReportEvidence;
    var unknown := Referenced(c) - ReportEvidence(c.report);
    PassesRaise(unknown != {}, Error, "traceability", unknown);
    forall x | x in Referenced(c) ensures x in unknown <==> x !in ReportEvidence(c.report) {
    }
    if unknown == {} {
      forall x | x in Referenced(c) ensures x in ReportEvidence(c.report) {
        assert x !in unknown;
      }
    }
  }

  // ---- consequences ----

  /** From every key claim of a passing case there is a way to known analyses, to evidence of
      the report, and for each of that evidence to the source the report gives for it. */
  lemma ClaimToSource(c: Case, claim: string) returns (e: Entry)
    requires Passes(Findings(c)) && claim in c.final.claims
    ensures e in c.final.entries && claim in e.claims
    ensures e.analyses != [] && e.evidence != [] && e.sources != []
    ensures forall x | x in e.analyses :: x in AnalysisIds(c)
    ensures forall x | x in e.evidence :: exists item :: item in c.report && item.id == x && item.source in e.sources
    ensures forall x | x in e.sources :: exists item :: item in c.report && item.source == x
  {
    PassesIff(c);
    e :| e in c.final.entries && IsFull(e) && claim in e.claims;
    assert EntryIsSound(c, e);
    forall x | x in e.evidence ensures exists item :: item in c.report && item.id == x && item.source in e.sources {
      assert Evidence(x, SourceOf(c.report, x).value) in c.report;
    }
  }

  /** Every blocking counterargument of a passing case has a disposition, and with one
      disposition each, all the changes the dispositions name exist. */
  lemma BlockingIsDisposed(c: Case, k: Counterargument) returns (d: Disposition)
    requires Passes(Findings(c)) && k in c.counter.counterarguments && k.required
    ensures d in c.final.dispositions && d.counterargument == k.id
    ensures (forall i, j | 0 <= i < j < |c.final.dispositions| ::
               c.final.dispositions[i].counterargument != c.final.dispositions[j].counterargument) ==>
              forall x | x in c.final.dispositions :: forall y | y in x.changes :: y in c.final.changes
  {
    PassesIff(c);
    d :| d in c.final.dispositions && d.counterargument == k.id;
    if forall i, j | 0 <= i < j < |c.final.dispositions| ::
         c.final.dispositions[i].counterargument != c.final.dispositions[j].counterargument {
      forall x | x in c.final.dispositions ensures forall y | y in x.changes :: y in c.final.changes {
        LatestIsOnly(c.final.dispositions, x);
      }
    }
  }

  lemma LatestIsOnly(ds: seq<Disposition>, x: Disposition)
    requires x in ds
    requires forall i, j | 0 <= i < j < |ds| :: ds[i].counterargument != ds[j].counterargument
    ensures x.counterargument in Latest(ds) && Latest(ds)[x.counterargument] == x
  {
    var y := Latest(ds)[x.counterargument];
    var i :| 0 <= i < |ds| && ds[i] == x;
    var j :| 0 <= j < |ds| && ds[j] == y;
    assert ds[i].counterargument == ds[j].counterargument;
    assert i == j;
  }

  // ---- targets and metrics ----

  datatype Targets = Targets(analyses: set<string>, tasks: set<string>, integrations: set<string>, claims: set<string>,
                             viewpoints: set<string>, evidence: set<string>, sources: set<string>,
                             counterarguments: set<string>, revisions: set<string>, changes: set<string>,
                             unresolved: set<string>, uncertainties: set<string>)

  datatype Metrics = Metrics(primaries: nat, reportEvidence: nat, reportSources: nat, analyses: nat, tasks: nat,
                             integrations: nat, claims: nat, viewpoints: nat, evidence: nat, sources: nat,
                             counterarguments: nat, revisions: nat, changes: nat, unresolved: nat,
                             uncertainties: nat)

  predicate Unresolved(d: Disposition) {
    d.resolution == "unresolved" || d.resolution == "researcher_return"
  }

  /** The target sets, each by its members. */
  ghost predicate TargetsOf(c: Case, t: Targets) {
    && (forall x :: x in t.analyses <==> x in AnalysisIds(c))
    && (forall x :: x in t.tasks <==> x in TaskIds(c))
    && (forall x :: x in t.integrations <==> x in IntegrationIds(c))
    && t.claims == ClaimIds(c) && t.evidence == Referenced(c) && t.counterarguments == CounterIds(c)
    && (forall x :: x in t.viewpoints <==> exists v :: v in c.final.viewpoints && v.id == x)
    && (forall x :: x in t.sources <==> exists e :: e in c.final.entries && x in e.sources)
    && (forall x :: x in t.revisions <==> exists r :: r in c.counter.revisions && r.id == x)
    && (forall x :: x in t.changes <==> x in c.final.changes)
    && (forall x :: x in t.unresolved <==>
          x in c.final.questions || exists d :: d in c.final.dispositions && Unresolved(d) && d.counterargument == x)
    && (forall x :: x in t.uncertainties <==>
          || x in c.final.uncertainties || x in c.counter.uncertainties
          || (exists v :: v in c.final.viewpoints && x in v.uncertainties)
          || (exists k :: k in c.counter.counterarguments && k.uncertainty == x && x != ""))
  }

  /** `ValidationTargetSet` and `ValidationMetrics`: the sets are grown loop by loop, and each
      metric is the size of its set. */
  method CollectTargets(c: Case) returns (t: Targets, m: Metrics)
    ensures TargetsOf(c, t)
    ensures m == Metrics(|Parsed(c.primaries)|, |ReportEvidence(c.report)|, |ReportSources(c.report)|,
                         |t.analyses|, |t.tasks|, |t.integrations|, |t.claims|, |t.viewpoints|, |t.evidence|,
                         |t.sources|, |t.counterarguments|, |t.revisions|, |t.changes|, |t.unresolved|,
                         |t.uncertainties|)
  {
    hide Referenced, ClaimIds, AnalysisIds, TaskIds, IntegrationIds;
    var sources := {};
    for i := 0 to |c.final.entries|
      invariant forall x :: x in sources <==> exists k :: 0 <= k < i && x in c.final.entries[k].sources
    {
      sources := sources + Elems(c.final.entries[i].sources);
    }
    var unresolved := CollectUnresolved(c);
    var uncertainties := CollectUncertainties(c);
    t := Targets(Elems(AnalysisIds(c)), Elems(TaskIds(c)), Elems(IntegrationIds(c)), ClaimIds(c),
                 set v | v in c.final.viewpoints :: v.id, Referenced(c), sources, CounterIds(c),
                 set r | r in c.counter.revisions :: r.id, Elems(c.final.changes), unresolved, uncertainties);
    m := Metrics(|Parsed(c.primaries)|, |ReportEvidence(c.report)|, |ReportSources(c.report)|,
                 |t.analyses|, |t.tasks|, |t.integrations|, |t.claims|, |t.viewpoints|, |t.evidence|,
                 |t.sources|, |t.counterarguments|, |t.revisions|, |t.changes|, |t.unresolved|, |t.uncertainties|);
  }

  method CollectUnresolved(c: Case) returns (r: set<string>)
    ensures forall x :: x in r <==>
              x in c.final.questions || exists d :: d in c.final.dispositions && Unresolved(d) && d.counterargument == x
  {
    r := Elems(c.final.questions);
    for i := 0 to |c.final.dispositions|
      invariant forall x :: x in r <==>
                  x in c.final.questions
                  || exists k ::
                       0 <= k < i && Unresolved(c.final.dispositions[k]) && c.final.dispositions[k].counterargument == x
    {
      if Unresolved(c.final.dispositions[i]) {
        r := r + {c.final.dispositions[i].counterargument};
      }
    }
  }

  method CollectUncertainties(c: Case) returns (r: set<string>)
    ensures forall x :: x in r <==>
              || x in c.final.uncertainties || x in c.counter.uncertainties
              || (exists v :: v in c.final.viewpoints && x in v.uncertainties)
              || (exists k :: k in c.counter.counterarguments && k.uncertainty == x && x != "")
  {
    r := Elems(c.final.uncertainties) + Elems(c.counter.uncertainties);
    for i := 0 to |c.final.viewpoints|
      invariant forall x :: x in r <==>
                  || x in c.final.uncertainties || x in c.counter.uncertainties
                  || exists k :: 0 <= k < i && x in c.final.viewpoints[k].uncertainties
    {
      r := r + Elems(c.final.viewpoints[i].uncertainties);
    }
    ghost var before := r;
    for i := 0 to |c.counter.counterarguments|
      invariant forall x :: x in r <==>
                  x in before || exists k :: 0 <= k < i && c.counter.counterarguments[k].uncertainty == x && x != ""
    {
      if c.counter.counterarguments[i].uncertainty != "" {
        r := r + {c.counter.counterarguments[i].uncertainty};
      }
    }
  }
}
