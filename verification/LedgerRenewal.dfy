/** Runs in which repairs nest as deep as one likes: contract repair and output repair take
    turns, each after an operator retry, and every task is charged for a call. */
module LedgerRenewal {
  import opened Collections
  import opened Json
  import opened Ledger
  import opened LedgerSystem
  import opened LedgerRuns
  import opened LedgerNesting

  predicate Alternates(kind: Kind) {
    kind == Contract || kind == ProviderOutput
  }

  /** A request with the same model throughout; a contract repair then names its revision. */
  function Asked(kind: Kind, key: TaskKey): Request {
    var failure := match kind
                   case Retry => "RetryableAgentError"
                   case Contract => "ProviderRequestSchemaError"
                   case _ => "NonRetryableAgentError";
    Request(key, "a", "e", failure, 404, "m", "", "m", Some("v"), "", "", "r", "d", Signature(kind))
  }

  lemma AskedIsSupported(kind: Kind, key: TaskKey)
    requires (kind == Retry || Alternates(kind)) && IsOriginal(kind, key.task)
    ensures Supported(FORMATS, kind, Asked(kind, key))
  {
  }

  /** The task was called and failed; nothing was done about it yet, and nothing is longer. */
  predicate Tip(s: System, key: TaskKey) {
    && At(s, 1) == Idle && s.disk.contexts == map[("w", "r") := "d"] && key.workflow == "w"
    && key in s.disk.reservations && s.disk.reservations[key] == Reservation("w", key.task, "a", "m")
    && (forall k | k in s.disk.reservations :: |k.task| <= |key.task|)
    && (forall slot | slot in s.disk.authorizations :: |slot.key.task| < |key.task|)
  }

  /** The steps from a failed task to the failed repair of it. */
  function Round(kind: Kind, key: TaskKey): seq<Step> {
    Stage(Retry, Asked(Retry, key), "m") + Stage(kind, Asked(kind, key), "m")
  }

  lemma LongerName(kind: Kind, key: TaskKey)
    ensures |RepairKey(kind, key).task| == |key.task| + |Suffix(kind)|
    ensures RepairKey(kind, key).workflow == key.workflow
    ensures |Suffix(kind)| >= 17 && |Suffix(Retry)| == 17
  {
    SuffixMark(kind);
  }

  lemma Retried(s: System, key: TaskKey) returns (t: System)
    requires Tip(s, key) && IsOriginal(Retry, key.task)
    ensures t == After(FORMATS, s, Stage(Retry, Asked(Retry, key), "m"))
    ensures At(t, 1) == Idle && t.disk.contexts == s.disk.contexts
    ensures exists a: Authorization :: a.status == Consumed && a.request == Asked(Retry, key)
              && t.disk.authorizations == s.disk.authorizations[Slot(Retry, key) := a]
    ensures var retried := RepairKey(Retry, key);
            && t.disk.reservations == s.disk.reservations[retried := Reservation("w", retried.task, "a", "m")]
            && t.log == s.log + [Admit(retried, 0), Call(retried)]
  {
    AskedIsSupported(Retry, key);
    LongerName(Retry, key);
    hide Supported, RepairKey, Suffix;
    assert Justified(s.disk, Retry, Asked(Retry, key));
    t := StageRuns(s, Retry, Asked(Retry, key), "m");
    var a := Spent(NewAuthorization(s.disk, Retry, Asked(Retry, key), "id"));
    assert a.status == Consumed && a.request == Asked(Retry, key);
  }

  lemma RetriedJustifies(s: System, t: System, key: TaskKey, kind: Kind, a: Authorization)
    requires Tip(s, key) && Alternates(kind) && a.status == Consumed && a.request == Asked(Retry, key)
    requires t.disk.contexts == s.disk.contexts
    requires t.disk.authorizations == s.disk.authorizations[Slot(Retry, key) := a]
    requires t.disk.reservations ==
               s.disk.reservations[RepairKey(Retry, key) := Reservation("w", RepairKey(Retry, key).task, "a", "m")]
    ensures Justified(t.disk, kind, Asked(kind, key))
  {
    LongerName(Retry, key);
    hide RepairKey, Suffix;
    assert ReservedFor(t.disk, key, "a", "m") && ReservedFor(t.disk, RepairKey(Retry, key), "a", "m");
    assert Follows(t.disk, kind, Asked(kind, key)) && Invoked(t.disk, kind, Asked(kind, key));
  }

  lemma RepairIsNew(s: System, t: System, key: TaskKey, kind: Kind, a: Authorization)
    requires Tip(s, key) && Alternates(kind)
    requires t.disk.authorizations == s.disk.authorizations[Slot(Retry, key) := a]
    requires t.disk.reservations ==
               s.disk.reservations[RepairKey(Retry, key) := Reservation("w", RepairKey(Retry, key).task, "a", "m")]
    ensures Slot(kind, key) !in t.disk.authorizations && RepairKey(kind, key) !in t.disk.reservations
  {
    LongerName(Retry, key);
    LongerName(kind, key);
    LongerSuffix(kind);
    hide RepairKey, Suffix;
  }

  lemma LongerSuffix(kind: Kind)
    requires Alternates(kind)
    ensures |Suffix(kind)| > |Suffix(Retry)|
  {
  }

  /** One round: the repair is granted, consumed and charged, and its task is the new tip. */
  lemma RoundRuns(s: System, key: TaskKey, kind: Kind) returns (t: System)
    requires Tip(s, key) && Alternates(kind) && IsOriginal(Retry, key.task) && IsOriginal(kind, key.task)
    ensures t == After(FORMATS, s, Round(kind, key))
    ensures Tip(t, RepairKey(kind, key))
    ensures Slot(kind, key) in t.disk.authorizations && t.disk.authorizations[Slot(kind, key)].status == Consumed
    ensures s.log <= t.log && |t.log| > 0 && t.log[|t.log| - 1] == Call(RepairKey(kind, key))
  {
    hide Supported, Justified, IsOriginal, Suffix, Asked, RepairKey, Stage;
    var u := Retried(s, key);
    var a: Authorization :| a.status == Consumed && a.request == Asked(Retry, key)
                            && u.disk.authorizations == s.disk.authorizations[Slot(Retry, key) := a];
    RetriedJustifies(s, u, key, kind, a);
    RepairIsNew(s, u, key, kind, a);
    AskedIsSupported(kind, key);
    AskedKey(kind, key);
    t := StageRuns(u, kind, Asked(kind, key), "m");
    AfterCat(FORMATS, s, Stage(Retry, Asked(Retry, key), "m"), Stage(kind, Asked(kind, key), "m"));
    LongerName(Retry, key);
    LongerName(kind, key);
    LongerSuffix(kind);
  }

  lemma AskedKey(kind: Kind, key: TaskKey)
    ensures Asked(kind, key).key == key && Asked(kind, key).agent == "a" && Asked(kind, key).model == "m"
  {
  }

  // ---- taking turns ----

  function Turn(i: nat): Kind {
    if i % 2 == 0 then Contract else ProviderOutput
  }

  /** The repair of one kind passes the tests of the retry store and of the other kind. */
  lemma OtherPasses(i: nat, key: TaskKey)
    ensures IsOriginal(Retry, RepairKey(Turn(i), key).task) && IsOriginal(Turn(i + 1), RepairKey(Turn(i), key).task)
  {
    var kind, task := Turn(i), RepairKey(Turn(i), key).task;
    assert EndsWith(task, Suffix(kind));
    hide Suffix, RepairKey;
    forall k: Kind | k != kind ensures !EndsWith(task, Suffix(k)) {
      if EndsWith(task, Suffix(k)) {
        OneSuffix(task, k, kind);
      }
    }
  }

  lemma {:induction false} CallsGrow(log: seq<Event>, more: seq<Event>, key: TaskKey)
    requires log <= more
    ensures Calls(more, key) >= Calls(log, key)
    decreases |more|
  {
    if |more| > |log| {
      CallsGrow(log, more[..|more| - 1], key);
    } else {
      assert log == more;
    }
  }

  /** All repairs of the line are consumed and all its tasks were charged. */
  predicate Charged(s: System, tasks: seq<TaskKey>, kinds: seq<Kind>) {
    && Line(s.disk, tasks, kinds)
    && (forall i | 0 <= i < |kinds| :: s.disk.authorizations[Slot(kinds[i], tasks[i])].status == Consumed)
    && (forall i | 0 <= i < |tasks| :: Calls(s.log, tasks[i]) > 0)
  }

  lemma ChargedMore(s: System, t: System, tasks: seq<TaskKey>, kinds: seq<Kind>, kind: Kind)
    requires Charged(s, tasks, kinds) && Extends(s.disk, t.disk) && s.log <= t.log
    requires var key := tasks[|kinds|];
             && Slot(kind, key) in t.disk.authorizations && t.disk.authorizations[Slot(kind, key)].status == Consumed
             && |t.log| > 0 && t.log[|t.log| - 1] == Call(RepairKey(kind, key))
    ensures Charged(t, tasks + [RepairKey(kind, tasks[|kinds|])], kinds + [kind])
  {
    hide RepairKey;
    forall i | 0 <= i < |kinds| ensures Kept(s.disk.authorizations[Slot(kinds[i], tasks[i])],
                                             t.disk.authorizations[Slot(kinds[i], tasks[i])]) {
    }
    forall i | 0 <= i < |tasks| ensures Calls(t.log, tasks[i]) > 0 {
      CallsGrow(s.log, t.log, tasks[i]);
    }
  }

  lemma FirstTip()
    ensures Charged(Run(FORMATS, Opening("m")), [TASK], []) && Tip(Run(FORMATS, Opening("m")), TASK)
  {
    var s := OpeningRuns("m");
    assert Calls([Admit(TASK, 0), Call(TASK)], TASK) > 0;
  }

  lemma NextTip(steps: seq<Step>, tasks: seq<TaskKey>, kinds: seq<Kind>, kind: Kind)
    requires Alternates(kind) && |tasks| == |kinds| + 1
    requires Charged(Run(FORMATS, steps), tasks, kinds) && Tip(Run(FORMATS, steps), tasks[|kinds|])
    requires IsOriginal(Retry, tasks[|kinds|].task) && IsOriginal(kind, tasks[|kinds|].task)
    ensures var key := tasks[|kinds|];
            var s := Run(FORMATS, steps + Round(kind, key));
            Charged(s, tasks + [RepairKey(kind, key)], kinds + [kind]) && Tip(s, RepairKey(kind, key))
  {
    hide Run, Charged, Tip, RepairKey, IsOriginal, Round, Extends, Calls;
    var key, s := tasks[|kinds|], Run(FORMATS, steps);
    var t := RoundRuns(s, key, kind);
    RunFrom(FORMATS, steps, Round(kind, key));
    RunExtends(FORMATS, steps, Round(kind, key));
    ChargedMore(s, t, tasks, kinds, kind);
  }

  /** For every depth there is a run with repairs nested so deep, all of them consumed and all
      their tasks charged. */
  lemma {:induction false} NestingIsUnbounded(n: nat)
      returns (steps: seq<Step>, tasks: seq<TaskKey>, kinds: seq<Kind>)
    ensures |kinds| == n && |tasks| == n + 1 && tasks[0] == TASK && (forall i | 0 <= i < n :: kinds[i] == Turn(i))
    ensures Charged(Run(FORMATS, steps), tasks, kinds)
    ensures Tip(Run(FORMATS, steps), tasks[n])
    ensures IsOriginal(Retry, tasks[n].task) && IsOriginal(Turn(n), tasks[n].task)
  {
    hide Run, Charged, Tip, RepairKey, IsOriginal, Opening, Round;
    if n == 0 {
      steps, tasks, kinds := Opening("m"), [TASK], [];
      FirstTip();
      ShortIsOriginal(Retry, "t");
      ShortIsOriginal(Contract, "t");
    } else {
      steps, tasks, kinds := NestingIsUnbounded(n - 1);
      var key, kind := tasks[n - 1], Turn(n - 1);
      NextTip(steps, tasks, kinds, kind);
      OtherPasses(n - 1, key);
      steps, tasks, kinds := steps + Round(kind, key), tasks + [RepairKey(kind, key)], kinds + [kind];
    }
  }
}
