/** A run of the ledger that goes through the whole runtime repair chain of one task: the
    premises of the theorems about reachable authorizations are met. */
module LedgerExample {
  import opened Json
  import opened Ledger
  import opened LedgerSystem
  import opened LedgerRuns

  /** The request of every stage; the signature is the only field that differs. */
  function Wanted(kind: Kind): Request {
    Request(TASK, "a", "e", "NonRetryableAgentError", 404, "f", "", "m", None, "COMPATIBLE", "why", "r", "d",
            Signature(kind))
  }

  predicate InChain(kind: Kind) {
    kind == Model || kind == Output || kind == Adapter || kind == Identity || kind == Provenance
  }

  /** The ledger after the stages of `done`. */
  predicate Reached(s: System, done: set<Kind>) {
    && At(s, 1) == Idle
    && s.disk.contexts == map[("w", "r") := "d"]
    && TASK in s.disk.reservations && s.disk.reservations[TASK] == Reservation("w", "t", "a", "f")
    && (forall k :: InChain(k) ==> (Slot(k, TASK) in s.disk.authorizations <==> k in done))
    && (forall k :: InChain(k) ==> (RepairKey(k, TASK) in s.disk.reservations <==> k in done))
    && (forall k | k in done ::
          && InChain(k)
          && s.disk.authorizations[Slot(k, TASK)].request == Wanted(k)
          && s.disk.authorizations[Slot(k, TASK)].status == Consumed
          && s.disk.reservations[RepairKey(k, TASK)] == Reservation("w", RepairKey(k, TASK).task, "a", "m"))
  }

  lemma WantedIsSupported(kind: Kind)
    requires InChain(kind)
    ensures Supported(FORMATS, kind, Wanted(kind))
  {
    ShortIsOriginal(kind, "t");
    hide IsOriginal;
  }

  lemma WantedIsJustified(s: System, done: set<Kind>, kind: Kind)
    requires Reached(s, done) && InChain(kind)
    requires Predecessor(kind).Some? ==> Predecessor(kind).value in done
    ensures Justified(s.disk, kind, Wanted(kind))
  {
  }

  lemma RepairsDiffer(a: Kind, b: Kind)
    requires RepairKey(a, TASK) == RepairKey(b, TASK)
    ensures a == b
  {
    RepairIsItsKind(a, TASK);
    RepairIsItsKind(b, TASK);
  }

  lemma StageReaches(s: System, done: set<Kind>, kind: Kind)
    requires Reached(s, done) && InChain(kind) && kind !in done
    requires Predecessor(kind).Some? ==> Predecessor(kind).value in done
    ensures Reached(After(FORMATS, s, Stage(kind, Wanted(kind), "m")), done + {kind})
  {
    WantedIsSupported(kind);
    WantedIsJustified(s, done, kind);
    hide Supported, Justified;
    var t := StageRuns(s, kind, Wanted(kind), "m");
    MoreReached(s, done, kind, Spent(NewAuthorization(s.disk, kind, Wanted(kind), "id")), t);
  }

  lemma MoreReached(s: System, done: set<Kind>, kind: Kind, a: Authorization, t: System)
    requires Reached(s, done) && InChain(kind) && kind !in done
    requires a.request == Wanted(kind) && a.status == Consumed
    requires At(t, 1) == Idle && t.disk.contexts == s.disk.contexts
    requires t.disk.authorizations == s.disk.authorizations[Slot(kind, TASK) := a]
    requires t.disk.reservations ==
               s.disk.reservations[RepairKey(kind, TASK) := Reservation("w", RepairKey(kind, TASK).task, "a", "m")]
    ensures Reached(t, done + {kind})
  {
    hide Wanted, RepairKey;
    RepairIsOther(kind);
    forall k | InChain(k) ensures RepairKey(k, TASK) == RepairKey(kind, TASK) ==> k == kind {
      if RepairKey(k, TASK) == RepairKey(kind, TASK) {
        RepairsDiffer(k, kind);
      }
    }
    forall k | InChain(k) ensures Slot(k, TASK) in t.disk.authorizations <==> k in done + {kind} {
    }
    forall k | InChain(k) ensures RepairKey(k, TASK) in t.disk.reservations <==> k in done + {kind} {
    }
  }

  lemma RepairIsOther(kind: Kind)
    ensures RepairKey(kind, TASK) != TASK
  {
    SuffixMark(kind);
  }

  lemma OpeningReaches()
    ensures Reached(Run(FORMATS, Opening("f")), {})
  {
    var s := OpeningRuns("f");
    forall k ensures RepairKey(k, TASK) != TASK {
      RepairIsOther(k);
    }
  }

  /** A reachable ledger with the whole chain consumed, up to the provenance repair. */
  lemma WholeChain() returns (steps: seq<Step>)
    ensures Reached(Run(FORMATS, steps), {Model, Output, Adapter, Identity, Provenance})
    ensures Slot(Provenance, TASK) in Run(FORMATS, steps).disk.authorizations
    ensures Run(FORMATS, steps).disk.authorizations[Slot(Provenance, TASK)].status == Consumed
  {
    hide Reached, Stage, Run;
    OpeningReaches();
    steps := Opening("f");
    steps := Add(steps, {}, Model);
    steps := Add(steps, {} + {Model}, Output);
    steps := Add(steps, {} + {Model} + {Output}, Adapter);
    steps := Add(steps, {} + {Model} + {Output} + {Adapter}, Identity);
    steps := Add(steps, {} + {Model} + {Output} + {Adapter} + {Identity}, Provenance);
    var all := {Model, Output, Adapter, Identity, Provenance};
    assert {} + {Model} + {Output} + {Adapter} + {Identity} + {Provenance} == all;
    LastIsConsumed(Run(FORMATS, steps), all);
  }

  lemma Add(steps: seq<Step>, done: set<Kind>, kind: Kind) returns (more: seq<Step>)
    requires Reached(Run(FORMATS, steps), done) && InChain(kind) && kind !in done
    requires Predecessor(kind).Some? ==> Predecessor(kind).value in done
    ensures Reached(Run(FORMATS, more), done + {kind})
  {
    more := steps + Stage(kind, Wanted(kind), "m");
    RunFrom(FORMATS, steps, Stage(kind, Wanted(kind), "m"));
    StageReaches(Run(FORMATS, steps), done, kind);
  }

  lemma LastIsConsumed(s: System, done: set<Kind>)
    requires Reached(s, done) && Provenance in done
    ensures Slot(Provenance, TASK) in s.disk.authorizations
    ensures s.disk.authorizations[Slot(Provenance, TASK)].status == Consumed
  {
  }
}
