/** The stores as objects over the data directory, and the manager's invocation through them:
    reservation, authorization and the retry loop (deliberation/registry.py). */
module Registry {
  import opened Json
  import opened Ledger

  /** The authorization stores and the reservations they share. One call of a method stands for
      one call without another process in between; LedgerSystem takes the steps apart. */
  class Store {
    var disk: Disk
    const formats: Formats

    ghost predicate Valid()
      reads this
    {
      Filed(disk)
    }

    constructor (formats: Formats)
      ensures Valid() && disk == Disk(map[], map[], map[]) && this.formats == formats
    {
      this.formats := formats;
      disk := Disk(map[], map[], map[]);
    }

    /** The loop over the two failed calls that a repair after a retry requires. */
    method PriorCallsMatch(kind: Kind, r: Request) returns (ok: bool)
      requires kind == Contract || kind == ProviderOutput
      ensures ok <==> Invoked(disk, kind, r)
    {
      var prior := [(r.key, FirstModel(kind, r)), (RepairKey(Retry, r.key), SecondModel(kind, r))];
      for i := 0 to |prior|
        invariant forall k | 0 <= k < i :: ReservedFor(disk, prior[k].0, r.agent, prior[k].1)
      {
        var (key, model) := prior[i];
        if key !in disk.reservations {
          return false;
        }
        var saved := disk.reservations[key];
        if saved.workflow != key.workflow || saved.task != key.task || saved.agent != r.agent || saved.model != model {
          return false;
        }
      }
      assert ReservedFor(disk, prior[0].0, r.agent, prior[0].1) && ReservedFor(disk, prior[1].0, r.agent, prior[1].1);
      return true;
    }

    /** The checks of the disk in `authorize_once`. */
    method CheckDisk(kind: Kind, r: Request) returns (refusal: Option<Error>)
      ensures refusal == DiskRefusal(disk, kind, r)
    {
      if !Follows(disk, kind, r) {
        return Some(PredecessorNotConsumed);
      }
      var invoked := Invoked(disk, kind, r);
      if kind == Contract || kind == ProviderOutput {
        invoked := PriorCallsMatch(kind, r);
      }
      if !invoked {
        return Some(ReservationMismatch);
      }
      if BindsContext(kind) {
        if (r.key.workflow, r.retrieval) !in disk.contexts {
          return Some(ContextMissing);
        }
        if disk.contexts[(r.key.workflow, r.retrieval)] != r.digest {
          return Some(ContextChanged);
        }
      }
      return None;
    }

    method Authorize(kind: Kind, r: Request, id: string) returns (result: Result<Authorization, Error>)
      requires Valid()
      modifies this
      ensures Valid()
      ensures (disk, result) == AuthorizeOnce(formats, old(disk), kind, r, id)
    {
      if !Supported(formats, kind, r) {
        return Err(RequestRefused);
      }
      var refusal := CheckDisk(kind, r);
      if refusal.Some? {
        return Err(refusal.value);
      }
      if Slot(kind, r.key) in disk.authorizations {
        return Existing(disk, kind, r);
      }
      var a := NewAuthorization(disk, kind, r, id);
      disk := disk.(authorizations := disk.authorizations[SlotOf(a) := a]);
      return Ok(a);
    }

    /** `open("x")` of a reservation. */
    method Reserve(key: TaskKey, reservation: Reservation) returns (created: bool)
      requires Valid()
      modifies this
      ensures Valid()
      ensures created <==> key !in old(disk).reservations
      ensures disk == if created then old(disk).(reservations := old(disk).reservations[key := reservation])
                else old(disk)
    {
      created := key !in disk.reservations;
      if created {
        disk := disk.(reservations := disk.reservations[key := reservation]);
      }
    }

    method Spend(a: Authorization) returns (ok: bool)
      requires Valid()
      modifies this
      ensures Valid()
      ensures ok <==> Consume(old(disk), a).Ok?
      ensures disk == if ok then Consume(old(disk), a).value else old(disk)
    {
      if a.status != Pending || RepairKey(a.kind, a.request.key) !in disk.reservations {
        return false;
      }
      disk := disk.(authorizations := disk.authorizations[SlotOf(a) := Spent(a)]);
      return true;
    }
  }

  // ---- the manager ----

  /** How one provider call ends. */
  datatype Outcome =
    | Answer(valid: bool)
    | NonRetryable
    | Retryable(automatic: bool)
    | TimedOut
    | Unclassified

  /** How `integrate` ends. */
  datatype Ending =
    | Integrated
    | Blocked
    | InvalidPayload(retries: nat)
    | NotRetried(retries: nat)
    | RetryFailed(retries: nat)
    | UnreachableRetryState

  /** The loop goes on after this outcome when attempts are left. */
  predicate GoesOn(o: Outcome) {
    o == Retryable(true) || o == TimedOut
  }

  /** The number of calls: up to and including the first outcome that ends the loop. */
  function Attempts(outcomes: seq<Outcome>, limit: nat): (n: nat)
    requires |outcomes| > limit
    ensures 1 <= n <= limit + 1
    ensures forall i | 0 <= i < n - 1 :: GoesOn(outcomes[i])
    ensures n <= limit ==> !GoesOn(outcomes[n - 1])
  {
    if limit == 0 || !GoesOn(outcomes[0]) then 1 else 1 + Attempts(outcomes[1..], limit - 1)
  }

  /** What the outcome of the last call makes of the invocation. */
  function EndingOf(o: Outcome, attempt: nat): Ending {
    match o
    case Answer(true) => Integrated
    case Answer(false) => InvalidPayload(attempt)
    case NonRetryable => NotRetried(attempt)
    case Retryable(_) => RetryFailed(attempt)
    case TimedOut => RetryFailed(attempt)
    case Unclassified => NotRetried(attempt)
  }

  class Manager {
    const store: Store
    const provider: Option<string>
    const safeMode: bool
    var invocations: set<(string, string)>

    constructor (store: Store, provider: Option<string>, safeMode: bool)
      ensures this.store == store && this.provider == provider && this.safeMode == safeMode && invocations == {}
    {
      this.store := store;
      this.provider := provider;
      this.safeMode := safeMode;
      invocations := {};
    }

    /** `_reserve_manager_invocation`: true when the invocation may go on. With a provider ID
        that is exactly when no reservation was there and the task's authorization, if its
        name asks for one, was pending; the reservation is then saved and the authorization
        spent. */
    method ReserveInvocation(workflow: string, task: string, model: string) returns (ok: bool)
      requires store.Valid()
      modifies store
      ensures store.Valid()
      ensures provider == None ==> ok == !safeMode && store.disk == old(store.disk)
      ensures provider.Some? ==>
                var key := TaskKey(provider.value, workflow, task);
                var granted := Authorized(old(store.disk), MANAGER_KINDS, key, MANAGER, model);
                && (ok <==> granted.Ok? && key !in old(store.disk).reservations)
                && (!ok ==> store.disk == old(store.disk))
                && (ok ==>
                      && store.disk.reservations ==
                           old(store.disk).reservations[key := Reservation(workflow, task, MANAGER, model)]
                      && store.disk.contexts == old(store.disk).contexts
                      && store.disk.authorizations ==
                           (match granted.value
                            case None => old(store.disk).authorizations
                            case Some(a) => old(store.disk).authorizations[SlotOf(a) := Spent(a)]))
    {
      if provider == None {
        return !safeMode;
      }
      var key := TaskKey(provider.value, workflow, task);
      var authorization: Option<Authorization> := None;
      var kindOf := KindOf(task, MANAGER_KINDS);
      if kindOf.Some? {
        var kind := kindOf.value;
        var pending := RequirePending(store.disk, kind, Original(kind, key), MANAGER, model);
        if pending.Err? {
          return false;
        }
        authorization := Some(pending.value);
      }
      var created := store.Reserve(key, Reservation(workflow, task, MANAGER, model));
      if !created {
        return false;
      }
      if authorization.Some? {
        AuthorizedPays(old(store.disk), MANAGER_KINDS, key, MANAGER, model, authorization.value);
        var spent := store.Spend(authorization.value);
      }
      return true;
    }

    /** `integrate`, from the Safe Mode guard on. The provider answers the n-th call with the
        n-th outcome. One invocation makes at most its retry limit plus one calls, exactly one
        in Safe Mode, none when it is blocked; how it ends is decided by the last call alone,
        and the error behind the loop is never raised. */
    method Integrate(workflow: string, stage: string, task: string, model: string, recovery: bool,
                     maxTechnicalRetries: int, technicalRetryLimit: nat, outcomes: seq<Outcome>)
      returns (ending: Ending, calls: nat)
      requires |outcomes| >= 2 && store.Valid()
      modifies this, store
      ensures store.Valid()
      ensures ending != UnreachableRetryState
      ensures ending == Blocked <==> calls == 0
      ensures var limit := RetryLimit(safeMode, maxTechnicalRetries, technicalRetryLimit);
              calls > 0 ==>
                && calls == Attempts(outcomes, limit) <= limit + 1 <= 2
                  && ending == EndingOf(outcomes[calls - 1], calls - 1)
      ensures safeMode ==> calls <= 1
      ensures safeMode && !recovery && (workflow, stage) in old(invocations) ==>
                calls == 0 && store.disk == old(store.disk)
      ensures invocations == if safeMode then old(invocations) + {(workflow, stage)} else old(invocations)
      ensures provider.Some? && calls > 0 ==>
                TaskKey(provider.value, workflow, task) !in old(store.disk).reservations
                && TaskKey(provider.value, workflow, task) in store.disk.reservations
    {
      hide Authorized;
      calls := 0;
      if safeMode {
        if (workflow, stage) in invocations && !recovery {
          return Blocked, calls;
        }
        invocations := invocations + {(workflow, stage)};
      }
      var reserved := ReserveInvocation(workflow, task, model);
      if !reserved {
        return Blocked, calls;
      }
      var limit := RetryLimit(safeMode, maxTechnicalRetries, technicalRetryLimit);
      ghost var saved, marked := store.disk, invocations;
      for attempt := 0 to limit + 1
        invariant calls == attempt
        invariant forall i | 0 <= i < attempt :: GoesOn(outcomes[i])
        invariant attempt <= limit
        invariant store.disk == saved && invocations == marked
      {
        var outcome := outcomes[attempt];
        calls := calls + 1;
        AttemptsAre(outcomes, limit, attempt);
        match outcome {
          case Answer(valid) =>
            return if valid then Integrated else InvalidPayload(attempt), calls;
          case NonRetryable =>
            return NotRetried(attempt), calls;
          case Retryable(automatic) =>
            if !automatic || attempt >= limit {
              return RetryFailed(attempt), calls;
            }
          case TimedOut =>
            if attempt >= limit {
              return RetryFailed(attempt), calls;
            }
          case Unclassified =>
            return NotRetried(attempt), calls;
        }
      }
      assert false;
      return UnreachableRetryState, calls;
    }
  }

  /** No retry in Safe Mode; otherwise what is configured, and never more than one. */
  function RetryLimit(safeMode: bool, maxTechnicalRetries: int, technicalRetryLimit: nat): (limit: nat)
    ensures limit <= 1 && limit <= technicalRetryLimit && (safeMode ==> limit == 0)
    ensures maxTechnicalRetries <= 0 ==> limit == 0
  {
    var configured := if maxTechnicalRetries < 0 then 0 else maxTechnicalRetries;
    var least := if configured < technicalRetryLimit then configured else technicalRetryLimit;
    if safeMode then 0 else if least > 1 then 1 else least
  }

  /** The loop makes its last call at the first outcome that does not go on, or at its limit. */
  lemma {:induction false} AttemptsAre(outcomes: seq<Outcome>, limit: nat, attempt: nat)
    requires |outcomes| > limit && attempt <= limit && forall i | 0 <= i < attempt :: GoesOn(outcomes[i])
    ensures attempt == limit || !GoesOn(outcomes[attempt]) <==> Attempts(outcomes, limit) == attempt + 1
  {
    if attempt > 0 {
      assert forall i | 0 <= i < attempt - 1 :: outcomes[1..][i] == outcomes[i + 1];
      AttemptsAre(outcomes[1..], limit - 1, attempt - 1);
    }
  }

  const MANAGER := "deliberation.manager"
}
