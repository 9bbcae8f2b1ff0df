/** The deterministic Deliberation validator (deliberation/validator.py): the artifacts it
    reads, the findings it raises and the targets it counts. */
module Deliberation {
  import opened Collections
  import opened Json

  datatype Evidence = Evidence(id: string, source: string)

  datatype Fact = Fact(id: string, verified: bool, statement: string)

  /** A primary analysis; `body` is what is searched for evidence IDs. */
  datatype Primary =
    | Known(isStakeholder: bool, id: string, task: string, body: Json, facts: seq<Fact>)
    | UnknownOwner(agent: string)

  datatype Counterargument = Counterargument(id: string, targets: seq<string>, required: bool, uncertainty: string)

  datatype Revision = Revision(id: string, sources: seq<string>)

  datatype Counteranalysis = Counteranalysis(id: string, task: string, counterarguments: seq<Counterargument>,
                                             challenges: seq<string>, revisions: seq<Revision>,
                                             uncertainties: seq<string>, body: Json)

  datatype Entry = Entry(evidence: seq<string>, sources: seq<string>, analyses: seq<string>, claims: seq<string>,
                         counterarguments: seq<string>, challenges: seq<string>, integrations: seq<string>,
                         tasks: seq<string>)

  datatype Viewpoint = Viewpoint(id: string, claims: seq<string>, uncertainties: seq<string>)

  datatype Disposition = Disposition(counterargument: string, resolution: string, changes: seq<string>)

  datatype Integration = Integration(id: string, previous: string, claims: seq<string>, causal: seq<string>,
                                     viewpoints: seq<Viewpoint>, entries: seq<Entry>, dispositions: seq<Disposition>,
                                     changes: seq<string>, questions: seq<string>, uncertainties: seq<string>,
                                     text: string, body: Json)

  /** Everything one validation reads. `uncertainties` of the integration holds those of its
      causal and stakeholder structures as well. */
  datatype Case = Case(report: seq<Evidence>, primaries: seq<Primary>, initial: Integration, counter: Counteranalysis,
                       final: Integration)

  datatype Severity = Warning | Error | Critical

  datatype Finding = Finding(severity: Severity, category: string, ids: set<string>)

  // ---- the sets ----

  function Parsed(ps: seq<Primary>): (r: seq<Primary>)
    ensures forall p :: p in r <==> p in ps && p.Known?
  {
    if ps == [] then []
    else
      var before := Parsed(ps[..|ps| - 1]);
      assert forall p :: p in ps <==> p in ps[..|ps| - 1] || p == ps[|ps| - 1];
      if ps[|ps| - 1].Known? then before + [ps[|ps| - 1]] else before
  }

  function AnalysisIds(c: Case): seq<string> {
    var ps := Parsed(c.primaries);
    seq(|ps|, i requires 0 <= i < |ps| => ps[i].id) + [c.counter.id]
  }

  function TaskIds(c: Case): seq<string> {
    var ps := Parsed(c.primaries);
    seq(|ps|, i requires 0 <= i < |ps| => ps[i].task) + [c.counter.task]
  }

  function IntegrationIds(c: Case): seq<string> {
    [c.initial.id, c.final.id]
  }

  function ReportEvidence(report: seq<Evidence>): set<string> {
    set e | e in report :: e.id
  }

  function ReportSources(report: seq<Evidence>): set<string> {
    set e | e in report :: e.source
  }

  /** `source_by_evidence`: of several items with one ID the last counts. */
  function SourceOf(report: seq<Evidence>, id: string): (r: Option<string>)
    ensures r.Some? <==> id in ReportEvidence(report)
    ensures r.Some? ==> Evidence(id, r.value) in report
  {
    if report == [] then None
    else
      var last := report[|report| - 1];
      assert forall e :: e in report <==> e in report[..|report| - 1] || e == last;
      if last.id == id then Some(last.source) else SourceOf(report[..|report| - 1], id)
  }

  function ViewpointClaims(vs: seq<Viewpoint>): (r: set<string>) {
    set v, x | v in vs && x in v.claims :: x
  }

  function CounterTargets(cs: seq<Counterargument>): (r: set<string>) {
    set c, x | c in cs && x in c.targets :: x
  }

  function ClaimIds(c: Case): set<string> {
    Elems(c.final.claims) + Elems(c.final.causal) + ViewpointClaims(c.final.viewpoints)
    + CounterTargets(c.counter.counterarguments)
  }

  function CounterIds(c: Case): set<string> {
    set k | k in c.counter.counterarguments :: k.id
  }

  // ---- evidence IDs anywhere in an artifact ----

  predicate EndsInEvidenceIds(key: string) {
    EndsWith(key, "evidence_ids")
  }

  function Strings(items: seq<Json>): (r: set<string>)
    ensures forall x :: x in r <==> Str(x) in items
  {
    if items == [] then {}
    else
      assert forall j :: j in items <==> j == items[0] || j in items[1..];
      (if items[0].Str? then {items[0].s} else {}) + Strings(items[1..])
  }

  /** `_collect_evidence_ids`. */
  function Collected(j: Json): set<string> {
    match j
    case Obj(fields) => CollectedFields(fields)
    case Arr(items) => CollectedItems(items)
    case _ => {}
  }

  function CollectedFields(fs: Fields): set<string> {
    match fs
    case Empty => {}
    case Field(k, v, rest) =>
      (if k == "evidence_id" && v.Str? then {v.s}
       else if EndsInEvidenceIds(k) && v.Arr? then Strings(v.items)
       else Collected(v)) + CollectedFields(rest)
  }

  function CollectedItems(items: seq<Json>): set<string> {
    if items == [] then {} else Collected(items[0]) + CollectedItems(items[1..])
  }

  /** An occurrence of a value inside another, by the keys on the way; a step into a list has
      no key. */
  ghost predicate Occurs(j: Json, at: seq<Option<string>>, x: Json)
    decreases j
  {
    if at == [] then j == x
    else
      match j
      case Obj(fields) => at[0].Some? && OccursField(fields, at, x)
      case Arr(items) => at[0] == None && exists i :: 0 <= i < |items| && Occurs(items[i], at[1..], x)
      case _ => false
  }

  ghost predicate OccursField(fs: Fields, at: seq<Option<string>>, x: Json)
    requires at != [] && at[0].Some?
    decreases fs
  {
    match fs
    case Empty => false
    case Field(k, v, rest) => (k == at[0].value && Occurs(v, at[1..], x)) || OccursField(rest, at, x)
  }

  /** A way on which the search goes on: it leaves neither a string under `evidence_id` nor a
      list under `...evidence_ids` to their own rules. */
  predicate IsIdKey(k: Option<string>) {
    k.Some? && (k.value == "evidence_id" || EndsInEvidenceIds(k.value))
  }

  lemma {:induction false} ItemsCollected(items: seq<Json>, x: string)
    ensures x in CollectedItems(items) <==> exists i :: 0 <= i < |items| && x in Collected(items[i])
  {
    if items != [] {
      ItemsCollected(items[1..], x);
      if x in CollectedItems(items[1..]) {
        var i :| 0 <= i < |items[1..]| && x in Collected(items[1..][i]);
        assert items[i + 1] == items[1..][i];
      }
      if i :| 1 <= i < |items| && x in Collected(items[i]) {
        assert items[1..][i - 1] == items[i];
      }
    }
  }

  /** What is collected is a string that does occur under `evidence_id`, or in a list under a
      key that ends in `evidence_ids`. */
  lemma {:induction false} CollectedOccurs(j: Json, x: string) returns (at: seq<Option<string>>)
    requires x in Collected(j)
    ensures Occurs(j, at, Str(x)) && at != []
    ensures at[|at| - 1] == Some("evidence_id")
            || (|at| >= 2 && at[|at| - 1] == None && at[|at| - 2].Some? && EndsInEvidenceIds(at[|at| - 2].value))
    decreases j
  {
    match j
    case Obj(fields) =>
      at := FieldOccurs(fields, x);
    case Arr(items) =>
      ItemsCollected(items, x);
      var i :| 0 <= i < |items| && x in Collected(items[i]);
      var below := CollectedOccurs(items[i], x);
      at := [None] + below;
      assert at[1..] == below;
  }

  lemma {:induction false} FieldOccurs(fs: Fields, x: string) returns (at: seq<Option<string>>)
    requires x in CollectedFields(fs)
    ensures at != [] && at[0].Some? && OccursField(fs, at, Str(x))
    ensures at[|at| - 1] == Some("evidence_id")
            || (|at| >= 2 && at[|at| - 1] == None && at[|at| - 2].Some? && EndsInEvidenceIds(at[|at| - 2].value))
    decreases fs
  {
    var Field(k, v, rest) := fs;
    if x in CollectedFields(rest) {
      at := FieldOccurs(rest, x);
    } else if k == "evidence_id" && v.Str? {
      at := [Some(k)];
      assert Occurs(v, at[1..], Str(x));
    } else if EndsInEvidenceIds(k) && v.Arr? {
      at := [Some(k), None];
      var i :| 0 <= i < |v.items| && v.items[i] == Str(x);
      assert at[1..][1..] == [];
      assert Occurs(v.items[i], at[1..][1..], Str(x));
      assert Occurs(v, at[1..], Str(x));
    } else {
      var below := CollectedOccurs(v, x);
      at := [Some(k)] + below;
      assert at[1..] == below;
    }
  }

  /** And every string that occurs so is collected, when no key on the way above it already
      ends the search. */
  lemma {:induction false} OccurrenceIsCollected(j: Json, at: seq<Option<string>>, x: string)
    requires Occurs(j, at, Str(x)) && at != []
    requires forall i | 0 <= i < |at| - 2 :: !IsIdKey(at[i])
    requires (at[|at| - 1] == Some("evidence_id") && (|at| >= 2 ==> !IsIdKey(at[|at| - 2])))
             || (|at| >= 2 && at[|at| - 1] == None && at[|at| - 2].Some? && EndsInEvidenceIds(at[|at| - 2].value))
    ensures x in Collected(j)
    decreases j
  {
    match j
    case Obj(fields) => FieldOccurrenceIsCollected(fields, at, x);
    case Arr(items) =>
      var i :| 0 <= i < |items| && Occurs(items[i], at[1..], Str(x));
      assert |at| >= 2;
      assert forall k | 0 <= k < |at[1..]| :: at[1..][k] == at[k + 1];
      OccurrenceIsCollected(items[i], at[1..], x);
      ItemsCollected(items, x);
  }

  lemma {:induction false} FieldOccurrenceIsCollected(fs: Fields, at: seq<Option<string>>, x: string)
    requires at != [] && at[0].Some? && OccursField(fs, at, Str(x))
    requires forall i | 0 <= i < |at| - 2 :: !IsIdKey(at[i])
    requires (at[|at| - 1] == Some("evidence_id") && (|at| >= 2 ==> !IsIdKey(at[|at| - 2])))
             || (|at| >= 2 && at[|at| - 1] == None && at[|at| - 2].Some? && EndsInEvidenceIds(at[|at| - 2].value))
    ensures x in CollectedFields(fs)
    decreases fs
  {
    var Field(k, v, rest) := fs;
    if OccursField(rest, at, Str(x)) {
      FieldOccurrenceIsCollected(rest, at, x);
    } else if |at| == 1 {
      assert v == Str(x);
    } else if |at| == 2 && at[1] == None {
      assert at[1..][1..] == [];
      assert Occurs(v, at[1..], Str(x));
      var i :| 0 <= i < |v.items| && Occurs(v.items[i], at[1..][1..], Str(x));
      assert v.items[i] == Str(x) && Str(x) in v.items;
    } else {
      assert forall i | 0 <= i < |at[1..]| :: at[1..][i] == at[i + 1];
      assert !IsIdKey(at[0]);
      OccurrenceIsCollected(v, at[1..], x);
    }
  }
}
