/** Any number of processes working on one ledger, each step atomic on disk, with a crash
    possible between any two steps. The exclusive create of the reservation decides who may
    call the provider (deliberation/registry.py, `_reserve_manager_invocation`). */
module LedgerSystem {
  import opened Collections
  import opened Json
  import opened Ledger

  /** Where a process is. What it carries is its own copy, read earlier. */
  datatype Pc =
    | Idle
    | Authorizing(granted: Authorization)
    | Checked(key: TaskKey, planned: Reservation, authorization: Option<Authorization>)
    | Reserved(key: TaskKey, authorization: Option<Authorization>)
    | Admitted(key: TaskKey, limit: nat, calls: nat)

  datatype Event = Admit(key: TaskKey, limit: nat) | Call(key: TaskKey)

  /** The log records admissions and provider calls in the order they happen. */
  datatype System = System(disk: Disk, pcs: map<nat, Pc>, log: seq<Event>)

  datatype Step =
    | StartAuthorize(p: nat, kind: Kind, request: Request, id: string)
    | FinishAuthorize(p: nat)
    | StartInvoke(p: nat, kinds: seq<Kind>, key: TaskKey, agent: string, model: string)
    | Reserve(p: nat)
    | Spend(p: nat, limit: nat)
    | CallProvider(p: nat)
    | Crash(p: nat)
    | SaveContext(workflow: string, retrieval: string, digest: string)

  function At(s: System, p: nat): Pc {
    if p in s.pcs then s.pcs[p] else Idle
  }

  function Go(s: System, p: nat, pc: Pc): System {
    s.(pcs := s.pcs[p := pc])
  }

  /** The checks before a new record is written: the disk must justify the request, and the
      record must not be there yet. */
  function StartingAuthorize(f: Formats, s: System, p: nat, kind: Kind, r: Request, id: string): System {
    match Grant(f, s.disk, kind, r, id)
    case Ok(a) => Go(s, p, Authorizing(a))
    case Err(_) => s
  }

  function FinishingAuthorize(s: System, p: nat, a: Authorization): System {
    match CreateAuthorization(s.disk, a)
    case Ok(d) => Go(s.(disk := d), p, Idle)
    case Err(_) => Go(s, p, Idle)
  }

  /** The authorization check before a reservation. */
  function StartingInvoke(s: System, p: nat, kinds: seq<Kind>, key: TaskKey, agent: string, model: string): System {
    match Authorized(s.disk, kinds, key, agent, model)
    case Ok(a) => Go(s, p, Checked(key, Reservation(key.workflow, key.task, agent, model), a))
    case Err(_) => s
  }

  function Reserving(s: System, p: nat, key: TaskKey, planned: Reservation, a: Option<Authorization>): System {
    match CreateReservation(s.disk, key, planned)
    case Ok(d) => Go(s.(disk := d), p, Reserved(key, a))
    case Err(_) => Go(s, p, Idle)
  }

  /** The process that holds the reservation spends its authorization and is admitted. The
      retry limit is at most one. */
  function Spending(s: System, p: nat, key: TaskKey, a: Option<Authorization>, limit: nat): System {
    var admitted := Go(s.(log := s.log + [Admit(key, if limit > 1 then 1 else limit)]), p,
                       Admitted(key, if limit > 1 then 1 else limit, 0));
    match a
    case None => admitted
    case Some(copy) =>
      match Consume(s.disk, copy)
      case Ok(d) => admitted.(disk := d)
      case Err(_) => Go(s, p, Idle)
  }

  /** The retry loop of an admitted process: attempts 0 to its limit. */
  function Calling(s: System, p: nat, key: TaskKey, limit: nat, calls: nat): System {
    if calls <= limit then Go(s.(log := s.log + [Call(key)]), p, Admitted(key, limit, calls + 1))
    else Go(s, p, Idle)
  }

  /** One step; a step that is not possible in the state leaves it alone. */
  function Apply(f: Formats, s: System, step: Step): System {
    match step
    case StartAuthorize(p, kind, r, id) => if At(s, p).Idle? then StartingAuthorize(f, s, p, kind, r, id) else s
    case FinishAuthorize(p) =>
      (match At(s, p) case Authorizing(a) => FinishingAuthorize(s, p, a) case _ => s)
    case StartInvoke(p, kinds, key, agent, model) =>
        if At(s, p).Idle? then StartingInvoke(s, p, kinds, key, agent, model) else s
    case Reserve(p) => (match At(s, p) case Checked(key, planned, a) => Reserving(s, p, key, planned, a) case _ => s)
    case Spend(p, limit) => (match At(s, p) case Reserved(key, a) => Spending(s, p, key, a, limit) case _ => s)
    case CallProvider(p) =>
      (match At(s, p) case Admitted(key, limit, calls) => Calling(s, p, key, limit, calls) case _ => s)
    case Crash(p) => Go(s, p, Idle)
    case SaveContext(workflow, retrieval, digest) =>
      if (workflow, retrieval) in s.disk.contexts then s
      else s.(disk := s.disk.(contexts := s.disk.contexts[(workflow, retrieval) := digest]))
  }

  const EMPTY := System(Disk(map[], map[], map[]), map[], [])

  /** The state after a sequence of steps, from a ledger with no records. */
  function Run(f: Formats, steps: seq<Step>): System {
    if steps == [] then EMPTY else Apply(f, Run(f, steps[..|steps| - 1]), steps[|steps| - 1])
  }

  // ---- counting ----

  function Admits(log: seq<Event>, key: TaskKey): nat {
    if log == [] then 0
    else Admits(log[..|log| - 1], key) + (var e := log[|log| - 1]; if e.Admit? && e.key == key then 1 else 0)
  }

  function Calls(log: seq<Event>, key: TaskKey): nat {
    if log == [] then 0
    else Calls(log[..|log| - 1], key) + (if log[|log| - 1] == Call(key) then 1 else 0)
  }

  lemma CountsSnoc(log: seq<Event>, e: Event, key: TaskKey)
    ensures Admits(log + [e], key) == Admits(log, key) + if e.Admit? && e.key == key then 1 else 0
    ensures Calls(log + [e], key) == Calls(log, key) + if e == Call(key) then 1 else 0
  {
    assert (log + [e])[..|log|] == log;
  }

  // ---- the invariant ----

  /** A record is filed under its own identity, was justified when granted, and is consumed
      only with its reservation in place. */
  predicate Sound(disk: Disk, slot: Slot, a: Authorization) {
    && SlotOf(a) == slot
    && Justified(disk, a.kind, a.request)
    && (a.status == Consumed ==>
          RepairKey(a.kind, a.request.key) in disk.reservations
              && a.reservation == Some(RepairKey(a.kind, a.request.key)))
  }

  predicate RecordsSound(disk: Disk) {
    && (forall slot | slot in disk.authorizations :: Sound(disk, slot, disk.authorizations[slot]))
    && (forall key | key in disk.reservations ::
          disk.reservations[key].workflow == key.workflow && disk.reservations[key].task == key.task)
  }

  /** The copy a process carries differs from the record at most in being still pending. */
  predicate CopyOf(disk: Disk, key: TaskKey, a: Authorization) {
    && a.status == Pending && RepairKey(a.kind, a.request.key) == key
    && SlotOf(a) in disk.authorizations
    && var r := disk.authorizations[SlotOf(a)];
       r.id == a.id && r.kind == a.kind && r.request == a.request && r.predecessor == a.predecessor
       && (r.status == Consumed ==> r == Spent(a))
  }

  predicate Carries(disk: Disk, key: TaskKey, a: Option<Authorization>) {
    a.Some? ==> CopyOf(disk, key, a.value)
  }

  /** The task whose reservation the process holds. */
  function Held(pc: Pc): Option<TaskKey> {
    if pc.Reserved? || pc.Admitted? then Some(pc.key) else None
  }

  predicate PcSound(s: System, pc: Pc) {
    match pc
    case Idle => true
    case Authorizing(a) => a.status == Pending && Justified(s.disk, a.kind, a.request)
    case Checked(key, planned, a) =>
      planned.workflow == key.workflow && planned.task == key.task && Carries(s.disk, key, a)
    case Reserved(key, a) => key in s.disk.reservations && Carries(s.disk, key, a) && Admits(s.log, key) == 0
    case Admitted(key, limit, calls) =>
      key in s.disk.reservations && Admits(s.log, key) == 1 && Calls(s.log, key) == calls <= limit + 1 && limit <= 1
  }

  predicate LogSound(s: System, key: TaskKey) {
    && Admits(s.log, key) <= 1
    && (Admits(s.log, key) == 1 ==> key in s.disk.reservations)
    && (Admits(s.log, key) == 0 ==> Calls(s.log, key) == 0)
    && Calls(s.log, key) <= 2
  }

  predicate HeldOnce(s: System) {
    forall p, q | p in s.pcs && q in s.pcs && Held(s.pcs[p]).Some? && Held(s.pcs[p]) == Held(s.pcs[q]) :: p == q
  }

  ghost predicate Inv(s: System) {
    && RecordsSound(s.disk)
    && (forall p | p in s.pcs :: PcSound(s, s.pcs[p]))
    && (forall key {:trigger LogSound(s, key)} :: LogSound(s, key))
    && HeldOnce(s)
  }

  // ---- every step keeps it ----

  /** A step of one process that only extends the disk and leaves the log alone. */
  lemma QuietStep(s: System, p: nat, disk: Disk, pc: Pc)
    requires Inv(s) && Extends(s.disk, disk) && RecordsSound(disk)
    requires PcSound(s.(disk := disk), pc)
    requires forall q | q in s.pcs && q != p :: Held(pc) == None || Held(s.pcs[q]) != Held(pc)
    ensures Inv(Go(s.(disk := disk), p, pc))
  {
    var t := Go(s.(disk := disk), p, pc);
    forall q | q in t.pcs ensures PcSound(t, t.pcs[q]) {
      if q != p {
        PcStable(s, t, s.pcs[q]);
      } else {
        PcStable(s.(disk := disk), t, pc);
      }
    }
    forall key ensures LogSound(t, key) {
      assert LogSound(s, key);
    }
  }

  lemma CopyStable(before: Disk, after: Disk, key: TaskKey, a: Authorization)
    requires Extends(before, after) && CopyOf(before, key, a) && RecordsSound(after)
    ensures CopyOf(after, key, a)
  {
    var r := after.authorizations[SlotOf(a)];
    assert Kept(before.authorizations[SlotOf(a)], r);
    assert Sound(after, SlotOf(a), r);
  }

  lemma PcStable(s: System, t: System, pc: Pc)
    requires Extends(s.disk, t.disk) && s.log == t.log && RecordsSound(t.disk) && PcSound(s, pc)
    ensures PcSound(t, pc)
  {
    match pc
    case Authorizing(a) => JustifiedStable(s.disk, t.disk, a.kind, a.request);
    case Checked(key, _, a) =>
      if a.Some? {
        CopyStable(s.disk, t.disk, key, a.value);
      }
    case Reserved(key, a) =>
      if a.Some? {
        CopyStable(s.disk, t.disk, key, a.value);
      }
    case _ =>
  }

  lemma SoundStable(before: Disk, after: Disk, slot: Slot, a: Authorization)
    requires Extends(before, after) && Sound(before, slot, a)
    ensures Sound(after, slot, a)
  {
    JustifiedStable(before, after, a.kind, a.request);
  }

  lemma PutAuthorization(disk: Disk, a: Authorization)
    requires RecordsSound(disk) && Sound(disk, SlotOf(a), a)
    requires SlotOf(a) in disk.authorizations ==> Kept(disk.authorizations[SlotOf(a)], a)
    ensures var after := disk.(authorizations := disk.authorizations[SlotOf(a) := a]);
            Extends(disk, after) && RecordsSound(after)
  {
    var after := disk.(authorizations := disk.authorizations[SlotOf(a) := a]);
    assert Extends(disk, after);
    forall slot | slot in after.authorizations ensures Sound(after, slot, after.authorizations[slot]) {
      SoundStable(disk, after, slot, after.authorizations[slot]);
    }
  }

  lemma AuthorizeKeeps(s: System, p: nat, a: Authorization)
    requires Inv(s) && At(s, p) == Authorizing(a)
    ensures Inv(FinishingAuthorize(s, p, a))
    ensures Extends(s.disk, FinishingAuthorize(s, p, a).disk)
  {
    assert PcSound(s, s.pcs[p]);
    match CreateAuthorization(s.disk, a)
    case Ok(d) =>
      PutAuthorization(s.disk, a);
      QuietStep(s, p, d, Idle);
    case Err(_) => PcStep(s, p, Idle);
  }

  lemma PendingIsCopy(disk: Disk, kind: Kind, key: TaskKey, agent: string, model: string)
    requires RecordsSound(disk) && EndsWith(key.task, Suffix(kind))
    requires RequirePending(disk, kind, Original(kind, key), agent, model).Ok?
    ensures CopyOf(disk, key, RequirePending(disk, kind, Original(kind, key), agent, model).value)
  {
    var slot := Slot(kind, Original(kind, key));
    RepairOfOriginal(kind, key);
    assert Sound(disk, slot, disk.authorizations[slot]);
  }

  lemma AuthorizedIsCarried(disk: Disk, kinds: seq<Kind>, key: TaskKey, agent: string, model: string)
    requires RecordsSound(disk) && Authorized(disk, kinds, key, agent, model).Ok?
    ensures Carries(disk, key, Authorized(disk, kinds, key, agent, model).value)
  {
    match KindOf(key.task, kinds)
    case None =>
    case Some(kind) => PendingIsCopy(disk, kind, key, agent, model);
  }

  lemma GrantIsJustified(f: Formats, disk: Disk, kind: Kind, r: Request, id: string)
    requires Grant(f, disk, kind, r, id).Ok?
    ensures var a := Grant(f, disk, kind, r, id).value; a.status == Pending && Justified(disk, a.kind, a.request)
  {
    RefusalIff(f, disk, kind, r);
  }

  lemma PcStep(s: System, p: nat, pc: Pc)
    requires Inv(s) && PcSound(s, pc) && Held(pc) == None
    ensures Inv(Go(s, p, pc))
  {
    ExtendsReflexive(s.disk);
    QuietStep(s, p, s.disk, pc);
    assert Go(s.(disk := s.disk), p, pc) == Go(s, p, pc);
  }

  lemma StartKeeps(f: Formats, s: System, p: nat, kind: Kind, r: Request, id: string)
    requires Inv(s) && At(s, p).Idle?
    ensures Inv(StartingAuthorize(f, s, p, kind, r, id)) && StartingAuthorize(f, s, p, kind, r, id).disk == s.disk
  {
    match Grant(f, s.disk, kind, r, id)
    case Ok(a) =>
      GrantIsJustified(f, s.disk, kind, r, id);
      PcStep(s, p, Authorizing(a));
    case Err(_) =>
  }

  lemma InvokeKeeps(s: System, p: nat, kinds: seq<Kind>, key: TaskKey, agent: string, model: string)
    requires Inv(s)
    ensures Inv(StartingInvoke(s, p, kinds, key, agent, model))
    ensures StartingInvoke(s, p, kinds, key, agent, model).disk == s.disk
  {
    match Authorized(s.disk, kinds, key, agent, model)
    case Ok(a) =>
      AuthorizedIsCarried(s.disk, kinds, key, agent, model);
      PcStep(s, p, Checked(key, Reservation(key.workflow, key.task, agent, model), a));
    case Err(_) =>
  }

  lemma PutReservation(disk: Disk, key: TaskKey, planned: Reservation)
    requires RecordsSound(disk) && key !in disk.reservations
    requires planned.workflow == key.workflow && planned.task == key.task
    ensures var after := disk.(reservations := disk.reservations[key := planned]);
            Extends(disk, after) && RecordsSound(after)
  {
    var after := disk.(reservations := disk.reservations[key := planned]);
    assert Extends(disk, after);
    forall slot | slot in after.authorizations ensures Sound(after, slot, after.authorizations[slot]) {
      SoundStable(disk, after, slot, after.authorizations[slot]);
    }
  }

  lemma NotHeld(s: System, key: TaskKey)
    requires Inv(s) && key !in s.disk.reservations
    ensures forall q | q in s.pcs :: Held(s.pcs[q]) != Some(key)
  {
    forall q | q in s.pcs ensures Held(s.pcs[q]) != Some(key) {
      assert PcSound(s, s.pcs[q]);
    }
  }

  lemma ReserveKeeps(s: System, p: nat, key: TaskKey, planned: Reservation, a: Option<Authorization>)
    requires Inv(s) && At(s, p) == Checked(key, planned, a)
    ensures Inv(Reserving(s, p, key, planned, a))
    ensures Extends(s.disk, Reserving(s, p, key, planned, a).disk)
  {
    assert PcSound(s, s.pcs[p]);
    match CreateReservation(s.disk, key, planned)
    case Err(_) => PcStep(s, p, Idle);
    case Ok(d) =>
      assert LogSound(s, key);
      PutReservation(s.disk, key, planned);
      if a.Some? {
        CopyStable(s.disk, d, key, a.value);
      }
      NotHeld(s, key);
      QuietStep(s, p, d, Reserved(key, a));
  }

  /** The holder of a reservation writes one event about its task. */
  lemma LoggedStep(s: System, p: nat, disk: Disk, e: Event, pc: Pc)
    requires Inv(s) && Extends(s.disk, disk) && RecordsSound(disk)
    requires p in s.pcs && Held(s.pcs[p]) == Some(e.key) == Held(pc)
    requires var t := System(disk, s.pcs[p := pc], s.log + [e]); PcSound(t, pc) && LogSound(t, e.key)
    ensures Inv(System(disk, s.pcs[p := pc], s.log + [e]))
  {
    var t := System(disk, s.pcs[p := pc], s.log + [e]);
    forall q | q in t.pcs ensures PcSound(t, t.pcs[q]) {
      if q != p {
        assert PcSound(s, s.pcs[q]);
        PcStable(s, s.(disk := disk), s.pcs[q]);
        if Held(s.pcs[q]).Some? {
          CountsSnoc(s.log, e, Held(s.pcs[q]).value);
        }
      }
    }
    forall key ensures LogSound(t, key) {
      assert LogSound(s, key);
      CountsSnoc(s.log, e, key);
    }
  }

  lemma ConsumeKeeps(disk: Disk, key: TaskKey, copy: Authorization)
    requires RecordsSound(disk) && CopyOf(disk, key, copy) && key in disk.reservations
    ensures Consume(disk, copy).Ok?
    ensures Extends(disk, Consume(disk, copy).value) && RecordsSound(Consume(disk, copy).value)
    ensures Consume(disk, copy).value.reservations == disk.reservations
  {
    var record := disk.authorizations[SlotOf(copy)];
    assert Sound(disk, SlotOf(copy), record);
    PutAuthorization(disk, Spent(copy));
  }

  lemma AdmitKeeps(s: System, p: nat, key: TaskKey, limit: nat, disk: Disk)
    requires Inv(s) && At(s, p).Reserved? && At(s, p).key == key && limit <= 1
    requires Extends(s.disk, disk) && RecordsSound(disk)
    ensures Inv(System(disk, s.pcs[p := Admitted(key, limit, 0)], s.log + [Admit(key, limit)]))
  {
    assert PcSound(s, s.pcs[p]);
    assert LogSound(s, key);
    CountsSnoc(s.log, Admit(key, limit), key);
    LoggedStep(s, p, disk, Admit(key, limit), Admitted(key, limit, 0));
  }

  lemma CarriedCopy(s: System, p: nat, copy: Authorization)
    requires Inv(s) && At(s, p).Reserved? && At(s, p).authorization == Some(copy)
    ensures RecordsSound(s.disk) && CopyOf(s.disk, At(s, p).key, copy) && At(s, p).key in s.disk.reservations
  {
    assert PcSound(s, s.pcs[p]);
  }

  lemma SpendKeeps(s: System, p: nat, key: TaskKey, a: Option<Authorization>, limit: nat)
    requires Inv(s) && At(s, p) == Reserved(key, a)
    ensures Inv(Spending(s, p, key, a, limit))
    ensures Extends(s.disk, Spending(s, p, key, a, limit).disk)
  {
    hide Extends, RecordsSound, CopyOf, Consume;
    var few: nat := if limit > 1 then 1 else limit;
    ExtendsReflexive(s.disk);
    match a
    case None => AdmitKeeps(s, p, key, few, s.disk);
    case Some(copy) =>
      CarriedCopy(s, p, copy);
      ConsumeKeeps(s.disk, key, copy);
      AdmitKeeps(s, p, key, few, Consume(s.disk, copy).value);
  }

  lemma CallKeeps(s: System, p: nat, key: TaskKey, limit: nat, calls: nat)
    requires Inv(s) && At(s, p) == Admitted(key, limit, calls)
    ensures Inv(Calling(s, p, key, limit, calls)) && Calling(s, p, key, limit, calls).disk == s.disk
  {
    assert PcSound(s, s.pcs[p]);
    if calls <= limit {
      assert LogSound(s, key);
      CountsSnoc(s.log, Call(key), key);
      LoggedStep(s, p, s.disk, Call(key), Admitted(key, limit, calls + 1));
    } else {
      PcStep(s, p, Idle);
    }
  }

  lemma ContextKeeps(s: System, c: (string, string), digest: string)
    requires Inv(s) && c !in s.disk.contexts
    ensures var t := s.(disk := s.disk.(contexts := s.disk.contexts[c := digest])); Inv(t) && Extends(s.disk, t.disk)
  {
    var t := s.(disk := s.disk.(contexts := s.disk.contexts[c := digest]));
    forall slot | slot in t.disk.authorizations ensures Sound(t.disk, slot, t.disk.authorizations[slot]) {
      SoundStable(s.disk, t.disk, slot, t.disk.authorizations[slot]);
    }
    forall q | q in t.pcs ensures PcSound(t, t.pcs[q]) {
      PcStable(s, t, s.pcs[q]);
    }
    forall key ensures LogSound(t, key) {
      assert LogSound(s, key);
    }
  }

  /** Every step keeps the invariant and only extends the disk. */
  lemma StepKeeps(f: Formats, s: System, step: Step)
    requires Inv(s)
    ensures Inv(Apply(f, s, step)) && Extends(s.disk, Apply(f, s, step).disk)
  {
    hide Inv, Extends, StartingAuthorize, FinishingAuthorize, StartingInvoke, Reserving, Spending, Calling;
    ExtendsReflexive(s.disk);
    match step
    case StartAuthorize(p, kind, r, id) =>
      if At(s, p).Idle? {
        StartKeeps(f, s, p, kind, r, id);
      }
    case FinishAuthorize(p) =>
      if At(s, p).Authorizing? {
        AuthorizeKeeps(s, p, At(s, p).granted);
      }
    case StartInvoke(p, kinds, key, agent, model) => InvokeKeeps(s, p, kinds, key, agent, model);
    case Reserve(p) =>
      if At(s, p).Checked? {
        ReserveKeeps(s, p, At(s, p).key, At(s, p).planned, At(s, p).authorization);
      }
    case Spend(p, limit) =>
      if At(s, p).Reserved? {
        SpendKeeps(s, p, At(s, p).key, At(s, p).authorization, limit);
      }
    case CallProvider(p) =>
      if At(s, p).Admitted? {
        CallKeeps(s, p, At(s, p).key, At(s, p).limit, At(s, p).calls);
      }
    case Crash(p) => PcStep(s, p, Idle);
    case SaveContext(workflow, retrieval, digest) =>
      if (workflow, retrieval) !in s.disk.contexts {
        ContextKeeps(s, (workflow, retrieval), digest);
      }
  }

  // ---- every run ----

  lemma {:induction false} RunKeeps(f: Formats, steps: seq<Step>)
    ensures Inv(Run(f, steps))
  {
    if steps != [] {
      RunKeeps(f, steps[..|steps| - 1]);
      StepKeeps(f, Run(f, steps[..|steps| - 1]), steps[|steps| - 1]);
    }
  }

  lemma {:induction false} RunExtends(f: Formats, steps: seq<Step>, more: seq<Step>)
    ensures Extends(Run(f, steps).disk, Run(f, steps + more).disk)
  {
    if more == [] {
      assert steps + more == steps;
    } else {
      var init, last := more[..|more| - 1], more[|more| - 1];
      assert steps + more == steps + init + [last];
      assert (steps + init + [last])[..|steps + init|] == steps + init;
      RunExtends(f, steps, init);
      RunKeeps(f, steps + init);
      StepKeeps(f, Run(f, steps + init), last);
      ExtendsTransitive(Run(f, steps).disk, Run(f, steps + init).disk, Run(f, steps + more).disk);
    }
  }

  /** In every interleaving, with crashes anywhere, a task is admitted to invocation at most
      once and only with its reservation saved; it makes no call before it is admitted. */
  lemma AdmittedAtMostOnce(f: Formats, steps: seq<Step>, key: TaskKey)
    ensures var s := Run(f, steps);
            && Admits(s.log, key) <= 1
            && (Admits(s.log, key) == 1 ==> key in s.disk.reservations)
            && (Calls(s.log, key) > 0 ==> Admits(s.log, key) == 1)
  {
    RunKeeps(f, steps);
    assert LogSound(Run(f, steps), key);
  }

  /** A record once created is never replaced: it keeps its ID, its request and its predecessor
      over every further step of any process, and changes at most from pending to consumed. */
  lemma RecordStays(f: Formats, steps: seq<Step>, more: seq<Step>, slot: Slot)
    requires slot in Run(f, steps).disk.authorizations
    ensures slot in Run(f, steps + more).disk.authorizations
    ensures Kept(Run(f, steps).disk.authorizations[slot], Run(f, steps + more).disk.authorizations[slot])
  {
    RunExtends(f, steps, more);
  }

  /** Consumed means the reservation of the repaired task exists; and once consumed, always
      consumed, whatever any process still has in memory. */
  lemma ConsumedForGood(f: Formats, steps: seq<Step>, more: seq<Step>, slot: Slot)
    requires slot in Run(f, steps).disk.authorizations && Run(f, steps).disk.authorizations[slot].status == Consumed
    ensures RepairKey(slot.kind, slot.key) in Run(f, steps).disk.reservations
    ensures slot in Run(f, steps + more).disk.authorizations
    ensures Run(f, steps + more).disk.authorizations[slot] == Run(f, steps).disk.authorizations[slot]
  {
    RunKeeps(f, steps);
    RecordStays(f, steps, more, slot);
    assert Sound(Run(f, steps).disk, slot, Run(f, steps).disk.authorizations[slot]);
  }

  // ---- how many calls an admission makes ----

  /** The limit a task was admitted with. */
  function LimitOf(log: seq<Event>, key: TaskKey): nat {
    if log == [] then 0
    else
      var e := log[|log| - 1];
      if e.Admit? && e.key == key then e.limit else LimitOf(log[..|log| - 1], key)
  }

  predicate PcWithinLimit(s: System, pc: Pc) {
    match pc
    case Admitted(key, limit, _) => limit == LimitOf(s.log, key)
    case _ => true
  }

  ghost predicate WithinLimits(s: System) {
    && (forall p | p in s.pcs :: PcWithinLimit(s, s.pcs[p]))
    && (forall key {:trigger Calls(s.log, key)} :: Calls(s.log, key) <= LimitOf(s.log, key) + 1)
  }

  lemma LimitSnoc(log: seq<Event>, e: Event, key: TaskKey)
    ensures LimitOf(log + [e], key) == if e.Admit? && e.key == key then e.limit else LimitOf(log, key)
  {
    assert (log + [e])[..|log|] == log;
  }

  lemma SpendWithinLimits(s: System, p: nat, key: TaskKey, a: Option<Authorization>, limit: nat)
    requires Inv(s) && WithinLimits(s) && At(s, p) == Reserved(key, a)
    ensures WithinLimits(Spending(s, p, key, a, limit))
  {
    assert PcSound(s, s.pcs[p]);
    assert LogSound(s, key);
    var few: nat := if limit > 1 then 1 else limit;
    var e, t := Admit(key, few), Spending(s, p, key, a, limit);
    forall q | q in t.pcs ensures PcWithinLimit(t, t.pcs[q]) {
      if q != p && t.pcs[q].Admitted? {
        assert PcSound(s, s.pcs[q]) && PcWithinLimit(s, s.pcs[q]);
        LimitSnoc(s.log, e, t.pcs[q].key);
      } else {
        LimitSnoc(s.log, e, key);
      }
    }
    forall k ensures Calls(t.log, k) <= LimitOf(t.log, k) + 1 {
      CountsSnoc(s.log, e, k);
      LimitSnoc(s.log, e, k);
    }
  }

  lemma CallWithinLimits(s: System, p: nat, key: TaskKey, limit: nat, calls: nat)
    requires Inv(s) && WithinLimits(s) && At(s, p) == Admitted(key, limit, calls)
    ensures WithinLimits(Calling(s, p, key, limit, calls))
  {
    assert PcSound(s, s.pcs[p]) && PcWithinLimit(s, s.pcs[p]);
    if calls <= limit {
      var e, t := Call(key), Calling(s, p, key, limit, calls);
      forall q | q in t.pcs ensures PcWithinLimit(t, t.pcs[q]) {
        if t.pcs[q].Admitted? {
          LimitSnoc(s.log, e, t.pcs[q].key);
        }
      }
      forall k ensures Calls(t.log, k) <= LimitOf(t.log, k) + 1 {
        CountsSnoc(s.log, e, k);
        LimitSnoc(s.log, e, k);
      }
    }
  }

  lemma StepWithinLimits(f: Formats, s: System, step: Step)
    requires Inv(s) && WithinLimits(s)
    ensures WithinLimits(Apply(f, s, step))
  {
    match step
    case Spend(p, limit) =>
      if At(s, p).Reserved? {
        SpendWithinLimits(s, p, At(s, p).key, At(s, p).authorization, limit);
      }
    case CallProvider(p) =>
      if At(s, p).Admitted? {
        CallWithinLimits(s, p, At(s, p).key, At(s, p).limit, At(s, p).calls);
      }
    case _ =>
  }

  lemma {:induction false} RunWithinLimits(f: Formats, steps: seq<Step>)
    ensures WithinLimits(Run(f, steps))
  {
    if steps != [] {
      RunKeeps(f, steps[..|steps| - 1]);
      RunWithinLimits(f, steps[..|steps| - 1]);
      StepWithinLimits(f, Run(f, steps[..|steps| - 1]), steps[|steps| - 1]);
    }
  }

  /** Over a whole run a task is charged for at most its retry limit plus one provider calls:
      two at the very most, and one when the limit is zero, as in Safe Mode. */
  lemma CallsAreBounded(f: Formats, steps: seq<Step>, key: TaskKey)
    ensures var log := Run(f, steps).log;
            Calls(log, key) <= LimitOf(log, key) + 1 && Calls(log, key) <= 2
  {
    RunKeeps(f, steps);
    RunWithinLimits(f, steps);
    assert LogSound(Run(f, steps), key);
  }

  // ---- the repair chain ----

  function Rank(kind: Kind): nat {
    match kind
    case Retry | Capability | Model => 0
    case Contract | ProviderOutput | Output => 1
    case Adapter => 2
    case Identity => 3
    case Provenance => 4
  }

  /** The two authorizations are for the same agent and, along the runtime chain, for the same
      model and the same saved context. */
  predicate Agree(a: Authorization, b: Authorization) {
    && a.request.agent == b.request.agent
    && (BindsContext(b.kind) ==>
          a.request.model == b.request.model && a.request.retrieval == b.request.retrieval
          && a.request.digest == b.request.digest)
  }

  /** Every record the authorization builds on is there, consumed with its reservation in
      place, and agrees with it, down to the head of its chain. */
  predicate Backed(disk: Disk, kind: Kind, key: TaskKey)
    requires Slot(kind, key) in disk.authorizations
    decreases Rank(kind)
  {
    match Predecessor(kind)
    case None => true
    case Some(before) =>
      && Slot(before, key) in disk.authorizations
      && var p := disk.authorizations[Slot(before, key)];
         p.status == Consumed && RepairKey(before, key) in disk.reservations
         && Agree(disk.authorizations[Slot(kind, key)], p)
         && Backed(disk, before, key)
  }

  lemma {:induction false} SoundIsBacked(disk: Disk, kind: Kind, key: TaskKey)
    requires RecordsSound(disk) && Slot(kind, key) in disk.authorizations
    ensures Backed(disk, kind, key)
    decreases Rank(kind)
  {
    assert Sound(disk, Slot(kind, key), disk.authorizations[Slot(kind, key)]);
    match Predecessor(kind)
    case None =>
    case Some(before) =>
      assert Sound(disk, Slot(before, key), disk.authorizations[Slot(before, key)]);
      SoundIsBacked(disk, before, key);
  }

  /** In every reachable ledger the repair chain is closed under predecessors. */
  lemma ChainIsClosed(f: Formats, steps: seq<Step>, kind: Kind, key: TaskKey)
    requires Slot(kind, key) in Run(f, steps).disk.authorizations
    ensures Backed(Run(f, steps).disk, kind, key)
  {
    RunKeeps(f, steps);
    SoundIsBacked(Run(f, steps).disk, kind, key);
  }

  /** A provenance repair names four consumed predecessors that share its agent, its model,
      its retrieval and the digest of the saved context, which still is that digest. */
  lemma ProvenanceChain(f: Formats, steps: seq<Step>, key: TaskKey)
    requires Slot(Provenance, key) in Run(f, steps).disk.authorizations
    ensures var d := Run(f, steps).disk;
            var a := d.authorizations[Slot(Provenance, key)];
            && ContextIs(d, key.workflow, a.request.retrieval, a.request.digest)
            && forall kind | kind in [Identity, Adapter, Output, Model] ::
                 && Slot(kind, key) in d.authorizations
                 && d.authorizations[Slot(kind, key)].status == Consumed
                 && d.authorizations[Slot(kind, key)].request.agent == a.request.agent
                 && d.authorizations[Slot(kind, key)].request.model == a.request.model
                 && d.authorizations[Slot(kind, key)].request.retrieval == a.request.retrieval
                 && d.authorizations[Slot(kind, key)].request.digest == a.request.digest
  {
    hide RecordsSound, Run;
    var d := Run(f, steps).disk;
    RunKeeps(f, steps);
    ContextStands(d, Provenance, key);
    Link(d, Provenance, Identity, key);
    Link(d, Identity, Adapter, key);
    Link(d, Adapter, Output, key);
    Link(d, Output, Model, key);
  }

  /** One link of the runtime chain. */
  lemma Link(d: Disk, kind: Kind, before: Kind, key: TaskKey)
    requires RecordsSound(d) && Slot(kind, key) in d.authorizations
    requires Predecessor(kind) == Some(before) && BindsContext(before)
    ensures Slot(before, key) in d.authorizations
    ensures var a, p := d.authorizations[Slot(kind, key)], d.authorizations[Slot(before, key)];
            && p.status == Consumed && p.request.agent == a.request.agent && p.request.model == a.request.model
            && p.request.retrieval == a.request.retrieval && p.request.digest == a.request.digest
  {
    assert Sound(d, Slot(kind, key), d.authorizations[Slot(kind, key)]);
  }

  lemma ContextStands(d: Disk, kind: Kind, key: TaskKey)
    requires RecordsSound(d) && Slot(kind, key) in d.authorizations && BindsContext(kind)
    ensures var r := d.authorizations[Slot(kind, key)].request; ContextIs(d, key.workflow, r.retrieval, r.digest)
  {
    assert Sound(d, Slot(kind, key), d.authorizations[Slot(kind, key)]);
  }
}
