/** One process at work on a ledger by itself, for the concrete runs: an authorization, and
    the invocation it pays for. */
module LedgerRuns {
  import opened Collections
  import opened Json
  import opened Ledger
  import opened LedgerSystem

  const FORMATS: Formats := Formats((s: string) => true, (s: string) => true, (s: string) => true)

  const TASK: TaskKey := TaskKey("p", "w", "t")

  function After(f: Formats, s: System, steps: seq<Step>): System
    decreases |steps|
  {
    if steps == [] then s else After(f, Apply(f, s, steps[0]), steps[1..])
  }

  lemma Unfold(f: Formats, s: System, steps: seq<Step>)
    requires steps != []
    ensures After(f, s, steps) == After(f, Apply(f, s, steps[0]), steps[1..])
  {
  }

  lemma {:induction false} RunFrom(f: Formats, steps: seq<Step>, more: seq<Step>)
    ensures Run(f, steps + more) == After(f, Run(f, steps), more)
    decreases |more|
  {
    if more == [] {
      assert steps + more == steps;
    } else {
      var next := steps + [more[0]];
      assert next[..|next| - 1] == steps;
      assert steps + more == next + more[1..];
      RunFrom(f, next, more[1..]);
    }
  }

  lemma {:induction false} AfterCat(f: Formats, s: System, a: seq<Step>, b: seq<Step>)
    ensures After(f, s, a + b) == After(f, After(f, s, a), b)
    decreases |a|
  {
    if a == [] {
      assert a + b == b;
    } else {
      assert (a + b)[1..] == a[1..] + b;
      AfterCat(f, Apply(f, s, a[0]), a[1..], b);
    }
  }

  // ---- the suffix decides the kind ----

  /** The letters that tell the suffixes apart, counted from the end. */
  function Mark(s: string): (char, char, char, char)
    requires |s| >= 17
  {
    (s[|s| - 3], s[|s| - 10], s[|s| - 13], s[|s| - 17])
  }

  lemma SuffixMark(kind: Kind)
    ensures |Suffix(kind)| >= 17
    ensures Mark(Suffix(kind)).0 == if kind == Retry then 'y' else 'r'
    ensures kind != Retry ==>
              Mark(Suffix(kind)).1 == match kind
                                      case Contract | ProviderOutput | Output => 't'
                                      case Capability | Identity => 'y'
                                      case Model => 'l'
                                      case Adapter => 'r'
                                      case _ => 'e'
    ensures Mark(Suffix(Contract)).2 == 'r' && Mark(Suffix(ProviderOutput)).2 == 't' && Mark(Suffix(Output)).2 == 't'
    ensures Mark(Suffix(ProviderOutput)).3 == 'r' && Mark(Suffix(Output)).3 == 'l'
    ensures Mark(Suffix(Capability)).2 == 'l' && Mark(Suffix(Identity)).2 == 't'
  {
  }

  /** No task ends in the suffixes of two kinds. */
  lemma OneSuffix(task: string, a: Kind, b: Kind)
    requires EndsWith(task, Suffix(a)) && EndsWith(task, Suffix(b))
    ensures a == b
  {
    hide Suffix;
    SuffixMark(a);
    SuffixMark(b);
    MarkOfEnd(task, Suffix(a));
    MarkOfEnd(task, Suffix(b));
  }

  lemma MarkOfEnd(task: string, suffix: string)
    requires EndsWith(task, suffix) && |suffix| >= 17
    ensures |task| >= 17 && Mark(task) == Mark(suffix)
  {
    var n := |task| - |suffix|;
    assert task[n..] == suffix;
    assert task[n + (|suffix| - 3)] == suffix[|suffix| - 3] && task[n + (|suffix| - 10)] == suffix[|suffix| - 10];
    assert task[n + (|suffix| - 13)] == suffix[|suffix| - 13] && task[n + (|suffix| - 17)] == suffix[|suffix| - 17];
  }

  lemma {:induction false} KindOfIs(task: string, kinds: seq<Kind>, kind: Kind)
    requires kind in kinds && EndsWith(task, Suffix(kind))
    ensures KindOf(task, kinds) == Some(kind)
  {
    if EndsWith(task, Suffix(kinds[0])) {
      OneSuffix(task, kind, kinds[0]);
    } else {
      KindOfIs(task, kinds[1..], kind);
    }
  }

  lemma RepairIsItsKind(kind: Kind, key: TaskKey)
    ensures KindOf(RepairKey(kind, key).task, AGENT_KINDS) == Some(kind)
    ensures Original(kind, RepairKey(kind, key)) == key
  {
    hide Suffix;
    var task := key.task + Suffix(kind);
    assert task[|key.task|..] == Suffix(kind) && task[..|key.task|] == key.task;
    assert EndsWith(task, Suffix(kind)) && kind in AGENT_KINDS;
    KindOfIs(task, AGENT_KINDS, kind);
  }

  // ---- one stage ----

  /** Ask, create the record, then invoke the repaired task with it: one provider call. */
  function Stage(kind: Kind, r: Request, model: string): seq<Step> {
    [StartAuthorize(1, kind, r, "id"), FinishAuthorize(1)] + Invocation(RepairKey(kind, r.key), r.agent, model)
  }

  function Invocation(key: TaskKey, agent: string, model: string): seq<Step> {
    [StartInvoke(1, AGENT_KINDS, key, agent, model), Reserve(1), Spend(1, 0), CallProvider(1), Crash(1)]
  }

  lemma Granted(s: System, kind: Kind, r: Request) returns (t: System)
    requires At(s, 1) == Idle && Slot(kind, r.key) !in s.disk.authorizations
    requires Supported(FORMATS, kind, r) && Justified(s.disk, kind, r)
    ensures t == After(FORMATS, s, [StartAuthorize(1, kind, r, "id"), FinishAuthorize(1)])
    ensures At(t, 1) == Idle && t.log == s.log
    ensures t.disk == s.disk.(authorizations :=
                                s.disk.authorizations[Slot(kind, r.key) := NewAuthorization(s.disk, kind, r, "id")])
  {
    var steps := [StartAuthorize(1, kind, r, "id"), FinishAuthorize(1)];
    hide Supported, Justified, PredecessorId;
    assert Refusal(FORMATS, s.disk, kind, r) == None by {
      RefusalIff(FORMATS, s.disk, kind, r);
    }
    hide Refusal;
    var a := NewAuthorization(s.disk, kind, r, "id");
    var s1 := Apply(FORMATS, s, steps[0]);
    assert At(s1, 1) == Authorizing(a) && s1.disk == s.disk;
    t := Apply(FORMATS, s1, steps[1]);
    assert steps[1..][0] == steps[1] && steps[1..][1..] == [];
    Unfold(FORMATS, s, steps);
    Unfold(FORMATS, s1, steps[1..]);
  }

  /** A task that nobody reserved, with its authorization if it needs one, is invoked. */
  lemma InvocationRuns(s: System, key: TaskKey, agent: string, model: string, a: Option<Authorization>)
      returns (t: System)
    requires At(s, 1) == Idle && key !in s.disk.reservations
    requires Authorized(s.disk, AGENT_KINDS, key, agent, model) == Ok(a)
    requires a.Some? ==> a.value.status == Pending && RepairKey(a.value.kind, a.value.request.key) == key
    ensures t == After(FORMATS, s, Invocation(key, agent, model))
    ensures At(t, 1) == Idle && t.disk.contexts == s.disk.contexts
    ensures t.disk.authorizations ==
              if a.None? then s.disk.authorizations else s.disk.authorizations[SlotOf(a.value) := Spent(a.value)]
    ensures t.disk.reservations ==
              s.disk.reservations[key := Reservation(key.workflow, key.task, agent, model)]
    ensures t.log == s.log + [Admit(key, 0), Call(key)]
  {
    hide Authorized, RepairKey, AGENT_KINDS;
    var steps := Invocation(key, agent, model);
    var s1 := Apply(FORMATS, s, steps[0]);
    assert At(s1, 1) == Checked(key, Reservation(key.workflow, key.task, agent, model), a) && s1.disk == s.disk;
    var s2 := Apply(FORMATS, s1, steps[1]);
    assert At(s2, 1) == Reserved(key, a);
    var s3 := Apply(FORMATS, s2, steps[2]);
    assert At(s3, 1) == Admitted(key, 0, 0);
    var s4 := Apply(FORMATS, s3, steps[3]);
    assert s4.log == s.log + [Admit(key, 0), Call(key)];
    t := Apply(FORMATS, s4, steps[4]);
    InvocationUnfolds(s, key, agent, model);
  }

  lemma InvocationUnfolds(s: System, key: TaskKey, agent: string, model: string)
    ensures var c := Invocation(key, agent, model);
            After(FORMATS, s, c) ==
              Apply(FORMATS, Apply(FORMATS, Apply(FORMATS, Apply(FORMATS, Apply(FORMATS, s, c[0]), c[1]), c[2]), c[3]),
                    c[4])
  {
    hide Apply, AGENT_KINDS;
    var c := Invocation(key, agent, model);
    assert c[1..][1..] == c[2..] && c[2..][1..] == c[3..] && c[3..][1..] == c[4..] && c[4..][1..] == [];
    assert c[1..][0] == c[1] && c[2..][0] == c[2] && c[3..][0] == c[3] && c[4..][0] == c[4];
    var s1 := Apply(FORMATS, s, c[0]);
    var s2 := Apply(FORMATS, s1, c[1]);
    var s3 := Apply(FORMATS, s2, c[2]);
    var s4 := Apply(FORMATS, s3, c[3]);
    Unfold(FORMATS, s, c);
    Unfold(FORMATS, s1, c[1..]);
    Unfold(FORMATS, s2, c[2..]);
    Unfold(FORMATS, s3, c[3..]);
    Unfold(FORMATS, s4, c[4..]);
  }

  lemma StageIsAuthorized(s: System, kind: Kind, a: Authorization, model: string)
    requires Slot(kind, a.request.key) in s.disk.authorizations
    requires s.disk.authorizations[Slot(kind, a.request.key)] == a && a.kind == kind && a.status == Pending
    requires kind != Retry ==> model == a.request.model
    requires BindsContext(kind) ==>
               ContextIs(s.disk, a.request.key.workflow, a.request.retrieval, a.request.digest)
    ensures Authorized(s.disk, AGENT_KINDS, RepairKey(kind, a.request.key), a.request.agent, model) == Ok(Some(a))
  {
    hide Suffix, AGENT_KINDS;
    RepairIsItsKind(kind, a.request.key);
  }

  lemma NewIsPlain(disk: Disk, kind: Kind, r: Request)
    ensures var a := NewAuthorization(disk, kind, r, "id");
            a.kind == kind && a.request == r && a.status == Pending
  {
  }

  lemma JustifiedContext(disk: Disk, kind: Kind, r: Request)
    requires Justified(disk, kind, r)
    ensures BindsContext(kind) ==> ContextIs(disk, r.key.workflow, r.retrieval, r.digest)
  {
  }

  lemma RepairWorkflow(kind: Kind, key: TaskKey)
    ensures RepairKey(kind, key).workflow == key.workflow
  {
  }

  /** What one stage leaves. */
  lemma StageRuns(s: System, kind: Kind, r: Request, model: string) returns (t: System)
    requires At(s, 1) == Idle && Slot(kind, r.key) !in s.disk.authorizations
    requires RepairKey(kind, r.key) !in s.disk.reservations && (kind != Retry ==> model == r.model)
    requires Supported(FORMATS, kind, r) && Justified(s.disk, kind, r)
    ensures t == After(FORMATS, s, Stage(kind, r, model))
    ensures At(t, 1) == Idle && t.disk.contexts == s.disk.contexts
    ensures t.disk.authorizations ==
              s.disk.authorizations[Slot(kind, r.key) := Spent(NewAuthorization(s.disk, kind, r, "id"))]
    ensures var key := RepairKey(kind, r.key);
            && t.disk.reservations ==
                 s.disk.reservations[key := Reservation(key.workflow, key.task, r.agent, model)]
            && t.log == s.log + [Admit(key, 0), Call(key)]
  {
    hide Supported, Justified, RepairKey, AGENT_KINDS, After, Apply, BindsContext, Authorized;
    hide NewAuthorization, Invocation;
    var a := NewAuthorization(s.disk, kind, r, "id");
    NewIsPlain(s.disk, kind, r);
    JustifiedContext(s.disk, kind, r);
    var s1 := Granted(s, kind, r);
    RepairWorkflow(kind, r.key);
    StageIsAuthorized(s1, kind, a, model);
    t := InvocationRuns(s1, RepairKey(kind, r.key), r.agent, model, Some(a));
    AfterCat(FORMATS, s, [StartAuthorize(1, kind, r, "id"), FinishAuthorize(1)],
             Invocation(RepairKey(kind, r.key), r.agent, model));
  }

  // ---- the original call ----

  /** The failed original call, with its retrieval context saved. */
  function Opening(model: string): seq<Step> {
    Invocation(TASK, "a", model) + [SaveContext("w", "r", "d")]
  }

  lemma OpeningRuns(model: string) returns (s: System)
    ensures s == Run(FORMATS, Opening(model)) && At(s, 1) == Idle
    ensures s.disk == Disk(map[TASK := Reservation("w", "t", "a", model)], map[], map[("w", "r") := "d"])
    ensures s.log == [Admit(TASK, 0), Call(TASK)]
  {
    hide Apply;
    NoSuffix("t");
    var s1 := InvocationRuns(EMPTY, TASK, "a", model, None);
    AfterCat(FORMATS, EMPTY, Invocation(TASK, "a", model), [SaveContext("w", "r", "d")]);
    RunFrom(FORMATS, [], Opening(model));
    assert [] + Opening(model) == Opening(model);
    Saved(s1);
    s := Run(FORMATS, Opening(model));
  }

  lemma Saved(s: System)
    requires s.disk.contexts == map[]
    ensures After(FORMATS, s, [SaveContext("w", "r", "d")])
         == s.(disk := s.disk.(contexts := map[("w", "r") := "d"]))
  {
    Unfold(FORMATS, s, [SaveContext("w", "r", "d")]);
    assert [SaveContext("w", "r", "d")][1..] == [];
  }

  lemma ExcludedAreSuffixes(kind: Kind, i: nat)
    requires i < |Excluded(kind)|
    ensures exists k :: Excluded(kind)[i] == Suffix(k)
  {
    hide Suffix;
  }

  /** A short task name is nobody's repair. */
  lemma ShortIsOriginal(kind: Kind, task: string)
    requires |task| < 17
    ensures IsOriginal(kind, task)
  {
    hide Suffix, Excluded;
    forall i | 0 <= i < |Excluded(kind)| ensures !EndsWith(task, Excluded(kind)[i]) {
      ExcludedAreSuffixes(kind, i);
      var k :| Excluded(kind)[i] == Suffix(k);
      SuffixMark(k);
    }
  }

  lemma NoSuffix(task: string)
    requires |task| < 17
    ensures KindOf(task, AGENT_KINDS) == None
  {
    NoneOf(task, AGENT_KINDS);
  }

  lemma {:induction false} NoneOf(task: string, kinds: seq<Kind>)
    requires |task| < 17
    ensures KindOf(task, kinds) == None
  {
    if kinds != [] {
      SuffixMark(kinds[0]);
      NoneOf(task, kinds[1..]);
    }
  }
}
