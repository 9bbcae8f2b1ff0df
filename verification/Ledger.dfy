/** The paid-call ledger on disk: reservations, one-shot authorizations and saved retrieval
    contexts, keyed by identity (common/provider_retry.py, common/provider_contract_repair.py,
    common/provider_capability_repair.py, common/provider_output_repair.py,
    common/provider_runtime_model_repair.py, common/provider_runtime_output_repair.py). */
module Ledger {
  import opened Collections
  import opened Json

  // ---- records ----

  datatype Kind =
    | Retry | Contract | Capability | ProviderOutput
    | Model | Output | Adapter | Identity | Provenance

  function Suffix(kind: Kind): string {
    match kind
    case Retry => "_operator_retry_1"
    case Contract => "_provider_contract_repair_1"
    case Capability => "_provider_capability_repair_1"
    case ProviderOutput => "_provider_output_repair_1"
    case Model => "_runtime_model_repair_1"
    case Output => "_runtime_model_output_repair_1"
    case Adapter => "_runtime_adapter_repair_1"
    case Identity => "_runtime_identity_repair_1"
    case Provenance => "_runtime_provenance_repair_1"
  }

  datatype TaskKey = TaskKey(provider: string, workflow: string, task: string)

  datatype Reservation = Reservation(workflow: string, task: string, agent: string, model: string)

  datatype Status = Pending | Consumed

  /** What an operator asks for. Fields a kind of authorization does not have are left empty. */
  datatype Request = Request(
    key: TaskKey, agent: string, errorMessage: string, errorClass: string, httpStatus: int,
    failedModel: string, retryModel: string, model: string, revision: Option<string>,
    capability: string, capabilityReason: string,
    retrieval: string, digest: string, signature: string)

  datatype Authorization = Authorization(
    id: string, kind: Kind, request: Request, predecessor: string, status: Status, reservation: Option<TaskKey>)

  /** The task a consumed authorization pays for. */
  function RepairKey(kind: Kind, key: TaskKey): TaskKey {
    key.(task := key.task + Suffix(kind))
  }

  datatype Slot = Slot(kind: Kind, key: TaskKey)

  function SlotOf(a: Authorization): Slot {
    Slot(a.kind, a.request.key)
  }

  /** Saved contexts are identified by workflow and retrieval ID, and stand for the digest of
      their bytes. */
  datatype Disk = Disk(
    reservations: map<TaskKey, Reservation>,
    authorizations: map<Slot, Authorization>,
    contexts: map<(string, string), string>)

  datatype Error =
    | RequestRefused | ReservationMissing | ReservationMismatch | PredecessorNotConsumed
    | ContextMissing | ContextChanged | IdentityChanged | AlreadyConsumed | FileExists
    | NotAuthorized | NotPending

  // ---- the checks of authorize_once ----

  /** Formats the stores check with regular expressions. */
  datatype Formats = Formats(provider: string -> bool, model: string -> bool, digest: string -> bool)

  /** The record an authorization of this kind has to follow. */
  function Predecessor(kind: Kind): Option<Kind> {
    match kind
    case Retry | Capability | Model => None
    case Contract | ProviderOutput => Some(Retry)
    case Output => Some(Model)
    case Adapter => Some(Output)
    case Identity => Some(Adapter)
    case Provenance => Some(Identity)
  }

  /** Suffixes that show the task is itself a repair. The retry store knows only its own. */
  function Excluded(kind: Kind): seq<string> {
    match kind
    case Retry => [Suffix(Retry)]
    case Contract => [Suffix(Retry), Suffix(Contract)]
    case Capability => [Suffix(Retry), Suffix(Contract), Suffix(Capability)]
    case ProviderOutput => [Suffix(Retry), Suffix(ProviderOutput)]
    case Model => [Suffix(Retry), Suffix(Contract), Suffix(Capability), Suffix(ProviderOutput), Suffix(Model)]
    case Output => [Suffix(Model), Suffix(Output)]
    case Adapter => [Suffix(Output), Suffix(Adapter)]
    case Identity => [Suffix(Output), Suffix(Adapter), Suffix(Identity)]
    case Provenance => [Suffix(Output), Suffix(Adapter), Suffix(Identity), Suffix(Provenance)]
  }

  predicate IsOriginal(kind: Kind, task: string) {
    forall i | 0 <= i < |Excluded(kind)| :: !EndsWith(task, Excluded(kind)[i])
  }

  function Signature(kind: Kind): string {
    match kind
    case ProviderOutput => "retrieval_metadata_hydration_contract"
    case Output => "retrieval_excerpt_hydration_contract"
    case Adapter => "research_source_identity_canonicalization_contract"
    case Identity => "research_source_redundant_identity_hydration_contract"
    case Provenance => "research_source_provenance_ownership_contract"
    case _ => ""
  }

  /** The model of the operator retry; the failed model when none is given. */
  function RetryModel(r: Request): string {
    if r.retryModel == "" then r.failedModel else r.retryModel
  }

  predicate Supported(f: Formats, kind: Kind, r: Request) {
    && f.provider(r.key.provider) && IsOriginal(kind, r.key.task)
    && match kind
       case Retry =>
         r.errorClass in ["RetryableAgentError", "ProviderResponseContractError", "PayloadValidationError",
                          "ProviderRequestSchemaError"]
       case Contract =>
         && r.failedModel != "" && r.model != "" && f.model(r.model)
         && r.errorClass in ["ProviderResponseContractError", "ProviderRequestSchemaError", "NonRetryableAgentError"]
         && (r.model == r.failedModel || r.model == RetryModel(r) ==>
               r.errorClass == "ProviderRequestSchemaError" && r.revision.Some? && r.revision.value != "")
       case Capability =>
         && r.httpStatus == 404
         && r.errorClass in ["ProviderCapabilityError", "NonRetryableAgentError"]
         && r.failedModel != "" && r.model != "" && f.model(r.model) && r.failedModel != r.model
       case Model =>
         && r.httpStatus == 404
         && r.errorClass in ["ProviderCapabilityError", "NonRetryableAgentError"]
         && r.failedModel != r.model && r.capability == "COMPATIBLE" && r.capabilityReason != ""
       case _ =>
         && r.errorClass == "NonRetryableAgentError" && r.signature == Signature(kind)
         && (kind == Output || kind == ProviderOutput ==> f.digest(r.digest))
  }

  /** The saved reservation of a task is for this agent. */
  predicate ReservedBy(disk: Disk, key: TaskKey, agent: string) {
    && key in disk.reservations
    && disk.reservations[key].workflow == key.workflow && disk.reservations[key].task == key.task
    && disk.reservations[key].agent == agent
  }

  predicate ReservedFor(disk: Disk, key: TaskKey, agent: string, model: string) {
    ReservedBy(disk, key, agent) && disk.reservations[key].model == model
  }

  predicate ContextIs(disk: Disk, workflow: string, retrieval: string, digest: string) {
    (workflow, retrieval) in disk.contexts && disk.contexts[(workflow, retrieval)] == digest
  }

  /** The kinds that are bound to a saved retrieval context. */
  predicate BindsContext(kind: Kind) {
    kind != Retry && kind != Contract && kind != Capability
  }

  /** The predecessor of a request is consumed and agrees with it. */
  predicate Follows(disk: Disk, kind: Kind, r: Request) {
    match Predecessor(kind)
    case None => true
    case Some(before) =>
      && Slot(before, r.key) in disk.authorizations
      && var p := disk.authorizations[Slot(before, r.key)];
         && p.status == Consumed && p.request.agent == r.agent
         && (BindsContext(before) ==>
               p.request.model == r.model && p.request.retrieval == r.retrieval && p.request.digest == r.digest)
  }

  /** The models of the original call and of its retry that a repair after a retry requires. */
  function FirstModel(kind: Kind, r: Request): string {
    if kind == Contract then r.failedModel else r.model
  }

  function SecondModel(kind: Kind, r: Request): string {
    if kind == Contract then RetryModel(r) else r.model
  }

  /** The reservations a request refers to are there and are for the right agent and models. */
  predicate Invoked(disk: Disk, kind: Kind, r: Request) {
    match kind
    case Retry => ReservedBy(disk, r.key, r.agent)
    case Contract | ProviderOutput =>
      ReservedFor(disk, r.key, r.agent, FirstModel(kind, r))
          && ReservedFor(disk, RepairKey(Retry, r.key), r.agent, SecondModel(kind, r))
    case Capability | Model => ReservedFor(disk, r.key, r.agent, r.failedModel)
    case _ => ReservedFor(disk, RepairKey(Predecessor(kind).value, r.key), r.agent, r.model)
  }

  /** Everything `authorize_once` requires of the disk. */
  predicate Justified(disk: Disk, kind: Kind, r: Request) {
    && Follows(disk, kind, r) && Invoked(disk, kind, r)
    && (BindsContext(kind) ==> ContextIs(disk, r.key.workflow, r.retrieval, r.digest))
  }

  /** The error of the first check of the disk that fails, in the order of the code. */
  function DiskRefusal(disk: Disk, kind: Kind, r: Request): Option<Error> {
    if !Follows(disk, kind, r) then Some(PredecessorNotConsumed)
    else if !Invoked(disk, kind, r) then Some(ReservationMismatch)
    else if BindsContext(kind) && (r.key.workflow, r.retrieval) !in disk.contexts then Some(ContextMissing)
    else if BindsContext(kind) && !ContextIs(disk, r.key.workflow, r.retrieval, r.digest) then Some(ContextChanged)
    else None
  }

  function Refusal(f: Formats, disk: Disk, kind: Kind, r: Request): Option<Error> {
    if !Supported(f, kind, r) then Some(RequestRefused) else DiskRefusal(disk, kind, r)
  }

  function PredecessorId(disk: Disk, kind: Kind, r: Request): string {
    match Predecessor(kind)
    case Some(before) =>
      if Slot(before, r.key) in disk.authorizations then disk.authorizations[Slot(before, r.key)].id else ""
    case None => ""
  }

  /** The fields two requests must share to be the same authorization. */
  predicate SameIdentity(kind: Kind, a: Request, b: Request) {
    && a.key == b.key && a.agent == b.agent && a.errorMessage == b.errorMessage
    && (kind != Retry ==> a.errorClass == b.errorClass && a.model == b.model)
    && (kind == Contract ==>
         a.failedModel == b.failedModel && RetryModel(a) == RetryModel(b) && a.revision == b.revision)
    && (kind == Capability || kind == Model ==> a.failedModel == b.failedModel)
    && (BindsContext(kind) ==> a.retrieval == b.retrieval && a.digest == b.digest)
    && (BindsContext(kind) && kind != Model ==> a.signature == b.signature)
  }

  /** The record an accepted request creates. */
  function NewAuthorization(disk: Disk, kind: Kind, r: Request, id: string): Authorization {
    Authorization(id, kind, r, PredecessorId(disk, kind, r), Pending, None)
  }

  // ---- operations, as functions of the disk ----

  /** `open("x")`: create a file that must not exist. */
  function CreateAuthorization(disk: Disk, a: Authorization): Result<Disk, Error> {
    if SlotOf(a) in disk.authorizations then Err(FileExists)
    else Ok(disk.(authorizations := disk.authorizations[SlotOf(a) := a]))
  }

  function CreateReservation(disk: Disk, key: TaskKey, reservation: Reservation): Result<Disk, Error> {
    if key in disk.reservations then Err(FileExists)
    else Ok(disk.(reservations := disk.reservations[key := reservation]))
  }

  /** What `authorize_once` answers when the record is already there. */
  function Existing(disk: Disk, kind: Kind, r: Request): Result<Authorization, Error>
    requires Slot(kind, r.key) in disk.authorizations
  {
    var existing := disk.authorizations[Slot(kind, r.key)];
    if !SameIdentity(kind, existing.request, r) then Err(IdentityChanged)
    else if existing.status == Pending then Ok(existing)
    else Err(AlreadyConsumed)
  }

  /** `require_pending_retry` and the `require_pending_repair` methods. */
  function RequirePending(disk: Disk, kind: Kind, key: TaskKey, agent: string, model: string)
    : Result<Authorization, Error>
  {
    if Slot(kind, key) !in disk.authorizations then Err(NotAuthorized)
    else
      var a := disk.authorizations[Slot(kind, key)];
      if a.request.agent != agent || (kind != Retry && a.request.model != model)
          || a.status != Pending then Err(NotPending)
      else if BindsContext(kind) && (key.workflow, a.request.retrieval) !in disk.contexts then Err(ContextMissing)
      else if BindsContext(kind)
          && !ContextIs(disk, key.workflow, a.request.retrieval, a.request.digest) then Err(ContextChanged)
      else Ok(a)
  }

  function Spent(a: Authorization): Authorization {
    a.(status := Consumed, reservation := Some(RepairKey(a.kind, a.request.key)))
  }

  /** `consume` writes the caller's copy, marked consumed, over the record. It does not read
      the record again. */
  function Consume(disk: Disk, a: Authorization): Result<Disk, Error> {
    if a.status != Pending then Err(NotPending)
    else if RepairKey(a.kind, a.request.key) !in disk.reservations then Err(ReservationMissing)
    else Ok(disk.(authorizations := disk.authorizations[SlotOf(a) := Spent(a)]))
  }

  // ---- which kind of task it is ----

  /** The suffixes the deliberation manager and the agents test for, in this order. */
  const MANAGER_KINDS: seq<Kind> := [Retry, Contract]
  const AGENT_KINDS: seq<Kind> :=
    [Retry, Contract, Capability, ProviderOutput, Model, Output, Adapter, Identity, Provenance]

  /** The chain of `endswith` tests before a reservation. */
  function KindOf(task: string, kinds: seq<Kind>): (r: Option<Kind>)
    ensures r.Some? ==> EndsWith(task, Suffix(r.value))
  {
    if kinds == [] then None
    else if EndsWith(task, Suffix(kinds[0])) then Some(kinds[0])
    else KindOf(task, kinds[1..])
  }

  /** `task_id[: -len(SUFFIX)]`. */
  function Original(kind: Kind, key: TaskKey): TaskKey
    requires EndsWith(key.task, Suffix(kind))
  {
    key.(task := key.task[..|key.task| - |Suffix(kind)|])
  }

  lemma StripAppend(task: string, suffix: string)
    requires EndsWith(task, suffix)
    ensures task[..|task| - |suffix|] + suffix == task
  {
  }

  lemma RepairOfOriginal(kind: Kind, key: TaskKey)
    requires EndsWith(key.task, Suffix(kind))
    ensures RepairKey(kind, Original(kind, key)) == key
  {
    StripAppend(key.task, Suffix(kind));
  }

  /** The checks of `authorize_once` for a record that is not there yet, and the record. */
  function Grant(f: Formats, disk: Disk, kind: Kind, r: Request, id: string): Result<Authorization, Error> {
    match Refusal(f, disk, kind, r)
    case Some(e) => Err(e)
    case None =>
      if Slot(kind, r.key) in disk.authorizations then Err(FileExists) else Ok(NewAuthorization(disk, kind, r, id))
  }

  /** The authorization a task needs before its reservation: that of its suffix, or none. */
  function Authorized(disk: Disk, kinds: seq<Kind>, key: TaskKey, agent: string, model: string)
    : Result<Option<Authorization>, Error>
  {
    match KindOf(key.task, kinds)
    case None => Ok(None)
    case Some(kind) =>
      match RequirePending(disk, kind, Original(kind, key), agent, model)
      case Ok(a) => Ok(Some(a))
      case Err(e) => Err(e)
  }

  // ---- what never changes ----

  /** The record keeps its identity and never goes back from consumed. */
  predicate Kept(a: Authorization, b: Authorization) {
    && a.id == b.id && a.kind == b.kind && a.request == b.request && a.predecessor == b.predecessor
    && (a.status == Consumed ==> b == a)
  }

  /** Files are only added; an authorization changes at most from pending to consumed. */
  predicate Extends(before: Disk, after: Disk) {
    && (forall k | k in before.reservations ::
         k in after.reservations && after.reservations[k] == before.reservations[k])
    && (forall c | c in before.contexts :: c in after.contexts && after.contexts[c] == before.contexts[c])
    && (forall s | s in before.authorizations ::
          s in after.authorizations && Kept(before.authorizations[s], after.authorizations[s]))
  }

  lemma ExtendsReflexive(disk: Disk)
    ensures Extends(disk, disk)
  {
  }

  lemma ExtendsTransitive(a: Disk, b: Disk, c: Disk)
    requires Extends(a, b) && Extends(b, c)
    ensures Extends(a, c)
  {
  }

  /** What an authorization was granted for stays true. */
  lemma JustifiedStable(before: Disk, after: Disk, kind: Kind, r: Request)
    requires Extends(before, after) && Justified(before, kind, r)
    ensures Justified(after, kind, r)
  {
  }

  /** The tests in their order refuse a request exactly when its form is not supported or what
      it builds on is not in the ledger. */
  lemma RefusalIff(f: Formats, disk: Disk, kind: Kind, r: Request)
    ensures Refusal(f, disk, kind, r) == None <==> Supported(f, kind, r) && Justified(disk, kind, r)
  {
  }

  // ---- one store call at a time ----

  /** What `authorize_once` does after its checks. */
  function Settle(disk: Disk, kind: Kind, r: Request, id: string, refusal: Option<Error>)
    : (Disk, Result<Authorization, Error>)
  {
    match refusal
    case Some(e) => (disk, Err(e))
    case None =>
      if Slot(kind, r.key) in disk.authorizations then (disk, Existing(disk, kind, r))
      else
        var a := NewAuthorization(disk, kind, r, id);
        (disk.(authorizations := disk.authorizations[SlotOf(a) := a]), Ok(a))
  }

  /** `authorize_once` without another process in between: the disk afterwards and the answer. */
  function AuthorizeOnce(f: Formats, disk: Disk, kind: Kind, r: Request, id: string)
    : (Disk, Result<Authorization, Error>)
  {
    Settle(disk, kind, r, id, Refusal(f, disk, kind, r))
  }

  lemma SettleTwice(disk: Disk, kind: Kind, r: Request, id: string, other: string)
    requires Settle(disk, kind, r, id, None).1.Ok?
    ensures var (after, result) := Settle(disk, kind, r, id, None);
            Settle(after, kind, r, other, None) == (after, result)
            && result.value.status == Pending && Extends(disk, after)
  {
  }

  lemma SettleExtends(disk: Disk, kind: Kind, r: Request, id: string)
    ensures Extends(disk, Settle(disk, kind, r, id, None).0)
  {
  }

  lemma StillNotRefused(f: Formats, before: Disk, after: Disk, kind: Kind, r: Request)
    requires Extends(before, after) && Refusal(f, before, kind, r) == None
    ensures Refusal(f, after, kind, r) == None
  {
    RefusalIff(f, before, kind, r);
    JustifiedStable(before, after, kind, r);
    RefusalIff(f, after, kind, r);
  }

  /** Asking again for the same thing gives the same pending record and writes nothing; the
      fresh ID of the second request is not used. */
  lemma AuthorizeIsIdempotent(f: Formats, disk: Disk, kind: Kind, r: Request, id: string, other: string)
    requires AuthorizeOnce(f, disk, kind, r, id).1.Ok?
    ensures var (after, result) := AuthorizeOnce(f, disk, kind, r, id);
            AuthorizeOnce(f, after, kind, r, other) == (after, result)
            && result.value.status == Pending && Extends(disk, after)
  {
    var refusal, after := Refusal(f, disk, kind, r), AuthorizeOnce(f, disk, kind, r, id).0;
    assert refusal == None;
    SettleExtends(disk, kind, r, id);
    StillNotRefused(f, disk, after, kind, r);
    SettleTwice(disk, kind, r, id, other);
  }

  /** Records are filed under their own identity. */
  predicate Filed(disk: Disk) {
    forall slot | slot in disk.authorizations :: SlotOf(disk.authorizations[slot]) == slot
  }

  /** The authorization found for a task is pending and pays for exactly that task. */
  lemma AuthorizedPays(disk: Disk, kinds: seq<Kind>, key: TaskKey, agent: string, model: string, a: Authorization)
    requires Filed(disk) && Authorized(disk, kinds, key, agent, model) == Ok(Some(a))
    ensures a.status == Pending && RepairKey(a.kind, a.request.key) == key
  {
    RepairOfOriginal(KindOf(key.task, kinds).value, key);
  }
}
