/** How deep repairs of repairs can go: each store refuses tasks that are repairs of some
    kinds, so the kinds of nested repairs descend, but for one pair of stores (the suffix
    tests of common/provider_*_repair.py and common/provider_retry.py). */
module LedgerNesting {
  import opened Collections
  import opened Ledger
  import opened LedgerSystem

  // ---- the kinds of nested repairs ----

  function Order(kind: Kind): nat {
    match kind
    case Retry => 0
    case ProviderOutput => 1
    case Contract => 2
    case Capability => 3
    case Model => 4
    case Output => 5
    case Adapter => 6
    case Identity => 7
    case Provenance => 8
  }

  /** The contract and the capability store do not refuse an output repair. */
  predicate Renews(inner: Kind, kind: Kind) {
    inner == ProviderOutput && (kind == Contract || kind == Capability)
  }

  predicate Nests(inner: Kind, kind: Kind) {
    Order(inner) > Order(kind) || Renews(inner, kind)
  }

  // ---- an authorization keeps passing the test of its store ----

  predicate PassesTest(a: Authorization) {
    IsOriginal(a.kind, a.request.key.task)
  }

  predicate CarriesOriginal(pc: Pc) {
    match pc
    case Authorizing(a) => PassesTest(a)
    case Checked(_, _, a) => a.Some? ==> PassesTest(a.value)
    case Reserved(_, a) => a.Some? ==> PassesTest(a.value)
    case _ => true
  }

  predicate Originals(s: System) {
    && (forall slot | slot in s.disk.authorizations :: PassesTest(s.disk.authorizations[slot]))
    && (forall p | p in s.pcs :: CarriesOriginal(s.pcs[p]))
  }

  lemma StepKeepsOriginals(f: Formats, s: System, step: Step)
    requires Originals(s)
    ensures Originals(Apply(f, s, step))
  {
    hide IsOriginal;
    match step
    case StartAuthorize(p, kind, r, id) =>
      if At(s, p).Idle? && Grant(f, s.disk, kind, r, id).Ok? {
        GrantPasses(f, s.disk, kind, r, id);
      }
    case FinishAuthorize(p) => assert CarriesOriginal(At(s, p));
    case StartInvoke(p, kinds, key, agent, model) => AuthorizedPasses(s, kinds, key, agent, model);
    case Reserve(p) => assert CarriesOriginal(At(s, p));
    case Spend(p, _) => assert CarriesOriginal(At(s, p));
    case _ =>
  }

  lemma GrantPasses(f: Formats, disk: Disk, kind: Kind, r: Request, id: string)
    requires Grant(f, disk, kind, r, id).Ok?
    ensures PassesTest(Grant(f, disk, kind, r, id).value)
  {
    hide DiskRefusal;
  }

  lemma AuthorizedPasses(s: System, kinds: seq<Kind>, key: TaskKey, agent: string, model: string)
    requires Originals(s)
    ensures var a := Authorized(s.disk, kinds, key, agent, model);
            a.Ok? && a.value.Some? ==> PassesTest(a.value.value)
  {
  }

  lemma {:induction false} RunOriginals(f: Formats, steps: seq<Step>)
    ensures Originals(Run(f, steps))
  {
    if steps != [] {
      RunOriginals(f, steps[..|steps| - 1]);
      StepKeepsOriginals(f, Run(f, steps[..|steps| - 1]), steps[|steps| - 1]);
    }
  }

  // ---- nesting descends ----

  lemma NotExcluded(kind: Kind, task: string, inner: Kind)
    requires IsOriginal(kind, task) && EndsWith(task, Suffix(inner))
    ensures Suffix(inner) !in Excluded(kind)
  {
  }

  /** The first store of each chain refuses everything that its own kind does not nest in. */
  lemma HeadRefuses(kind: Kind, inner: Kind)
    requires Predecessor(kind).None? || !BindsContext(Predecessor(kind).value)
    requires Suffix(inner) !in Excluded(kind)
    ensures Nests(inner, kind)
  {
    hide Suffix;
  }

  lemma SlotRefuses(s: System, kind: Kind, key: TaskKey, inner: Kind)
    requires RecordsSound(s.disk) && Originals(s)
    requires Slot(kind, key) in s.disk.authorizations && EndsWith(key.task, Suffix(inner))
    ensures Suffix(inner) !in Excluded(kind) && inner != kind
  {
    var a := s.disk.authorizations[Slot(kind, key)];
    assert Sound(s.disk, Slot(kind, key), a) && PassesTest(a);
    hide Suffix, RecordsSound, Originals, IsOriginal;
    NotExcluded(kind, key.task, inner);
    assert Suffix(kind) in Excluded(kind);
  }

  lemma {:induction false} SlotNests(s: System, kind: Kind, key: TaskKey, inner: Kind)
    requires RecordsSound(s.disk) && Originals(s)
    requires Slot(kind, key) in s.disk.authorizations && EndsWith(key.task, Suffix(inner))
    ensures Nests(inner, kind)
    decreases Rank(kind)
  {
    hide Suffix, Excluded, RecordsSound, Originals;
    SlotRefuses(s, kind, key, inner);
    match Predecessor(kind)
    case None => HeadRefuses(kind, inner);
    case Some(before) =>
      if BindsContext(before) {
        Link(s.disk, kind, before, key);
        SlotNests(s, before, key, inner);
      } else {
        HeadRefuses(kind, inner);
      }
  }

  /** In every reachable ledger, a repair granted for a task that itself is a repair is of a
      lower kind, unless it is a contract or capability repair of an output repair. */
  lemma NestingDescends(f: Formats, steps: seq<Step>, kind: Kind, key: TaskKey, inner: Kind)
    requires Slot(kind, key) in Run(f, steps).disk.authorizations && EndsWith(key.task, Suffix(inner))
    ensures Order(inner) > Order(kind) || Renews(inner, kind)
  {
    RunKeeps(f, steps);
    RunOriginals(f, steps);
    SlotNests(Run(f, steps), kind, key, inner);
  }

  // ---- lines of descendants ----

  /** Each task is the repair of the one before, and that repair was granted. */
  predicate Line(disk: Disk, tasks: seq<TaskKey>, kinds: seq<Kind>) {
    && |tasks| == |kinds| + 1
    && forall i | 0 <= i < |kinds| ::
         tasks[i + 1] == RepairKey(kinds[i], tasks[i]) && Slot(kinds[i], tasks[i]) in disk.authorizations
  }

  /** How often an output repair is followed by a contract or capability repair. */
  function Renewals(kinds: seq<Kind>): nat {
    if |kinds| < 2 then 0
    else Renewals(kinds[..|kinds| - 1]) + if Renews(kinds[|kinds| - 2], kinds[|kinds| - 1]) then 1 else 0
  }

  /** The last two kinds of a line. */
  lemma LineNests(s: System, tasks: seq<TaskKey>, kinds: seq<Kind>)
    requires RecordsSound(s.disk) && Originals(s) && Line(s.disk, tasks, kinds) && |kinds| > 1
    ensures Nests(kinds[|kinds| - 2], kinds[|kinds| - 1])
  {
    hide RecordsSound, Originals, Suffix;
    var n := |kinds|;
    assert tasks[n - 1] == RepairKey(kinds[n - 2], tasks[n - 2]);
    assert EndsWith(tasks[n - 1].task, Suffix(kinds[n - 2]));
    SlotNests(s, kinds[n - 1], tasks[n - 1], kinds[n - 2]);
  }

  lemma LineInit(disk: Disk, tasks: seq<TaskKey>, kinds: seq<Kind>)
    requires Line(disk, tasks, kinds) && kinds != []
    ensures |tasks| == |kinds| + 1 && Line(disk, tasks[..|kinds|], kinds[..|kinds| - 1])
  {
  }

  lemma {:induction false} LineDescends(s: System, tasks: seq<TaskKey>, kinds: seq<Kind>)
    requires RecordsSound(s.disk) && Originals(s) && Line(s.disk, tasks, kinds) && kinds != []
    ensures Renewals(kinds) <= |kinds|
    ensures |kinds| + Order(kinds[|kinds| - 1]) <= 9 + 3 * Renewals(kinds)
    decreases |kinds|
  {
    hide RecordsSound, Originals, Line;
    var n := |kinds|;
    if n > 1 {
      LineInit(s.disk, tasks, kinds);
      LineNests(s, tasks, kinds);
      LineDescends(s, tasks[..n], kinds[..n - 1]);
    }
  }

  /** Repairs nest at most nine deep, and at most three deeper for each time an output repair
      is repaired by contract or capability. */
  lemma NestingIsBounded(f: Formats, steps: seq<Step>, tasks: seq<TaskKey>, kinds: seq<Kind>)
    requires Line(Run(f, steps).disk, tasks, kinds)
    ensures Renewals(kinds) <= |kinds| <= 9 + 3 * Renewals(kinds)
  {
    RunKeeps(f, steps);
    RunOriginals(f, steps);
    if kinds != [] {
      LineDescends(Run(f, steps), tasks, kinds);
    }
  }
}
