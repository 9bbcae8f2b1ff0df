# PRDCP: schema compiler, paid-call ledger and workflow gates

PRDCP runs paid LLM calls for a pipeline of layers (Researcher, Deliberation, Conclusion,
Playwright, Producer). It closes and rewrites the output schemas before it sends them, guards
every paid call with files that are created once, and repairs saved artifacts without another
call. This project models that logic in Dafny and proves what it keeps.

- **Schema compiler**: `Json`, `Pointer`, `SchemaWalk`, `StrictSchema`, `SchemaSemantics`,
  `GeminiWire`, `GeminiRelaxation`, `Inline`, `BatchPipeline`, `BatchResults`, `SchemaExample`.
  A schema is a JSON tree whose objects are ordered lists of fields. `SchemaSemantics.Accepts`
  says when a value satisfies a schema (JSON Schema Core 2020-12, sections 8.2.3.1, 10.2 and
  10.3; JSON Schema Validation 2020-12, section 6); a reference is looked up by a function, and
  `fuel` bounds how many references are followed in a row, so every statement is for each bound.
  Pointers follow sections 3 and 4 of RFC 6901.
- **Reference integrity of Conclusion**: `Decimal`, `PathText`, `References`, `RemovalReport`,
  `ContextView`, `ReferencePruning`. The walk that reports unknown IDs, the view that drops them,
  the path printer and reader, and the in-place pruning of lists.
- **Paid-call ledger**: `Ledger`, `LedgerSystem`, `LedgerNesting`, `Registry`, `LedgerRuns`,
  `LedgerExample`, `LedgerRenewal` for the nine authorization stores of provider calls and the
  managers that reserve and invoke; `Batch`, `BatchSystem`, `BatchClient` for batch jobs;
  `RetrievalLedger` for reconstructed and retried searches. The `System` modules are step systems: any number of processes share the files, every read and
  write is a step of its own, and any process may crash between two steps. `Registry`,
  `BatchClient` and the classes of `RetrievalLedger` are the code of one process.
- **Playwright**: `PlaywrightArtifacts`, `PlaywrightValidator`, `PlaywrightConsistency`,
  `PlaywrightRepair`, `PlaywrightExample`. What the deterministic validator raises, what it
  means to pass it, and why a repair that returns passes.
- **Conclusion workflow**: `RevisionBudget`, `ConclusionState`, `ConclusionManager`. The manager
  is a class whose `history` holds the files after every write. `Serve` is any sequence of
  commands in which a crash may put the process back to any of these versions; what agents and
  other layers answer is an arbitrary function `world`.
- **Around them**: `Capabilities` (the model preflight), `Deliberation` and
  `DeliberationValidator` (the evidence boundary of a deliberation).

The modules named `...Example`, `LedgerRenewal` and the concrete runs named below show that the
premises of the main theorems are met.

## Model

| member | source | states |
|---|---|---|
| StrictSchema.NormalizeIdempotent | common/structured_outputs.py:122-162 | Normalising a schema a second time changes nothing, for every schema tree. |
| StrictSchema.NormalizeResidue | common/structured_outputs.py:148-232 | What the check can still find after normalisation: no default, no wrong `required`, an open object only where it also declares no properties, and beside `$ref` only keywords that are no safe annotations. |
| StrictSchema.FindStrictSchemaViolations | common/structured_outputs.py:165-232 | The loop returns exactly the violations of the nodes the walk visits; none exactly when every one of them is strict. |
| StrictSchema.StrictPathResolves | common/structured_outputs.py:235-285 | A path the strict walk prints, without a list index, read as a `#/` reference resolves to the very node it was printed for. |
| SchemaWalk.WalkedPathResolves | common/provider_schema_compatibility.py:341-386 | The same for every walk over named keywords, so also for the provider's. |
| Pointer.UnescapeEscape | common/structured_outputs.py:274-285 | Decoding an encoded property name gives the name back, for every string. |
| Pointer.StepsOfPrinted | common/structured_outputs.py:274-285 | A printed path splits into exactly the names it was printed from, slashes and tildes included. |
| GeminiRelaxation.WireKeepsShape | common/provider_schema_compatibility.py:222-264 | The wire view keeps types, `required` and closure, has no `const`, and its `enum` admits what `const` and `enum` admitted together, the constant beside a wider enumeration aside. |
| GeminiRelaxation.DroppedConstIsLosslessIff | common/provider_schema_compatibility.py:228-248 | A constant beside an enumeration is dropped, and that loses nothing exactly when every value of the enumeration equals the constant. |
| GeminiRelaxation.SpecializeRelaxes | common/provider_schema_compatibility.py:222-268 | Whatever the canonical schema accepts, the Gemini wire view accepts, through references, when references name schemas and no `oneOf`, `not` or `if` occurs. |
| Inline.InlineFailsIff | common/provider_schema_compatibility.py:271-338 | Inlining fails exactly when some chain of references from outside the definitions repeats one, leaves the document or dangles, with the fault of such a chain as its error; a root that names no object is the one other failure. |
| Inline.InlineCloses | common/provider_schema_compatibility.py:308-338 | An inlined schema has no `$defs` or `definitions` key at any depth, for every schema; and no reference unless a reference names a bare string. |
| Inline.ExpandFieldsGet | common/provider_schema_compatibility.py:321-325 | A key survives inlining, with its own expansion as its value, exactly when it is no definitions key. |
| Inline.InlineIdempotent | common/provider_schema_compatibility.py:271-338 | Inlining an inlined schema changes nothing. |
| BatchResults.BatchCloses | providers/openrouter_provider.py:166-169 | When specialisation, the strict check and the provider check all succeed, the schema sent to a batch model has no `$ref` and no definitions key at any depth. |
| BatchResults.BatchKeepsMeaning | providers/openrouter_provider.py:166-169 | That schema is free of references and definitions and accepts exactly the values the specialised schema accepts through its references, whatever a reference would name. |
| BatchResults.BatchRelaxes | providers/openrouter_provider.py:166-169 | And it refuses nothing the canonical schema accepts. |
| BatchResults.LostPropertyIsRejected | common/provider_schema_compatibility.py:308-338 | A property named `definitions` or `$defs`, which inlining would lose, makes the passes fail at any object on any path from the root through properties, items, branches and followed references. |
| SchemaExample.LeafIsSent | providers/openrouter_provider.py:166-169 | A concrete schema that the passes send unchanged: the premises of the relaxation and batch theorems are met. |
| SchemaExample.LostExample | common/provider_schema_compatibility.py:321-325 | A concrete strict schema that is refused because of its property `definitions`. |
| SchemaExample.LossExample | common/provider_schema_compatibility.py:321-325 | The same schema loses that property when it is inlined. |
| SchemaExample.ConstIsLost | common/provider_schema_compatibility.py:243-248 | A concrete node, `const` "a" beside `enum` ["a", "b"]: specialising succeeds, the canonical node refuses "b" and the wire node accepts it. |
| PathText.ParsePrint | conclusion/manager.py:3889-3908 | A printed path of plain field names is read back as exactly its steps. |
| PathText.ReadBackIff | conclusion/manager.py:3889-3908 | A printed path is read back as its steps exactly when each of its field names is non-empty and free of dots and brackets. |
| PathText.DottedNameIsSplit | conclusion/manager.py:3889-3908 | A concrete path that is not: one field with a dot is read as two. |
| References.ReferenceKindIff | conclusion/validator.py:344-361 | The suffix tests do not depend on their order: a field has a kind exactly when it is named after that kind (`viable_candidates` after candidates), and none is named after two. |
| References.CleanHasNoUnknown | conclusion/validator.py:202-314 | What filtering leaves has no unknown reference, for every input and every allowlist. |
| References.CleanIdempotent | conclusion/validator.py:254-314 | Filtering twice is filtering once. |
| RemovalReport.RemovedIsUnknownIff | conclusion/validator.py:202-314 | The filter reports exactly what the check reports, at the same positions, if and only if in every list under a field nothing unknown stands inside an item that follows a removed one. |
| RemovalReport.RemovedIsUnknown | conclusion/validator.py:202-314 | So the two reports agree when lists under checked reference fields hold scalars. |
| RemovalReport.ShiftedReport | conclusion/validator.py:269-314 | A concrete input on which they do not: an object after a removed item of a reference list. |
| References.ReportsOnce | conclusion/validator.py:202-251 | The check reports no position twice and none outside the value it walks. |
| ContextView.ViewIsFixpoint | conclusion/validator.py:254-342 | The filtered decision context computes the allowlists of the original, has nothing unknown by its own lists, and filtering it again changes nothing. |
| ContextView.ViewReport | conclusion/validator.py:202-342 | The removals reported are the violations of the original context, candidate references aside, if and only if nothing unknown stands inside an item that follows a removed one. |
| ReferencePruning.PopListed | conclusion/manager.py:3909-3921 | Popping the listed indexes, highest first, leaves exactly the other items in order, and fails exactly when an item is not the expected one; for distinct indexes. |
| ReferencePruning.GroupByParent | conclusion/manager.py:3897-3908 | Grouping succeeds exactly when every path reads as a list item, and then holds every violation under its own parent and nothing else. |
| ReferencePruning.RemoveUnknownListItems | conclusion/manager.py:3888-3923 | Given the violations of a payload in any order, each once, the in-place repair is exactly the filter of the validator, and it refuses exactly when one of them is no list item; what it returns has nothing unknown and is left alone by the filter. For payloads of plain names and scalar lists under checked reference fields. A root that is no object is refused. |
| ReferencePruning.CheckFeedsRepair | conclusion/manager.py:3864-3923 | What the check reports about a payload of plain names and scalar lists is what the repair expects. |
| Ledger.JustifiedStable | common/provider_runtime_model_repair.py:76-174 | What an authorization was granted for stays true as files are added and authorizations are consumed. |
| Ledger.AuthorizeIsIdempotent | common/provider_retry.py:70-135 | Asking again for the same gives the same pending record and writes nothing. |
| Ledger.AuthorizedPays | common/provider_retry.py:156-203 | The authorization found for a task is pending and pays for that very task. |
| LedgerSystem.AdmittedAtMostOnce | deliberation/registry.py:195-301 | In every interleaving of any number of processes, with crashes anywhere, a task is admitted to invocation at most once, only with its reservation saved, and makes no call before that. |
| LedgerSystem.RecordStays | common/provider_contract_repair.py:205-228 | Over every further step of any process a record keeps its ID, request and predecessor, and changes at most from pending to consumed. |
| LedgerSystem.ConsumedForGood | common/provider_contract_repair.py:268-293 | A consumed authorization has the reservation of its repaired task and stays exactly as it is, whatever stale copies processes still write. |
| LedgerSystem.CallsAreBounded | deliberation/registry.py:86-193 | Over a whole run a task is charged for at most its retry limit plus one provider calls: one when the limit is zero, as in Safe Mode, and never more than two. |
| LedgerSystem.ChainIsClosed | common/provider_runtime_output_repair.py:92-201 | In every reachable ledger each repair authorization has its whole chain of predecessors, each consumed with its reservation, and agreeing with it. |
| LedgerSystem.ProvenanceChain | common/provider_runtime_output_repair.py:794-905 | A provenance repair names four consumed predecessors of the same agent, model, retrieval and context digest, and the saved context still has that digest. |
| LedgerNesting.NestingDescends | common/provider_output_repair.py:102-104 | A repair granted for a task that itself is a repair is of a lower kind in the order retry, output, contract, capability repair, then the runtime chain; the one exception is a contract or capability repair of an output repair. In every reachable ledger. |
| LedgerNesting.NestingIsBounded | common/provider_contract_repair.py:106-109 | In every reachable ledger a line of granted repairs of repairs is at most nine long, and at most three longer for each time an output repair is followed by a contract or capability repair. |
| LedgerRenewal.NestingIsUnbounded | common/provider_output_repair.py:92-204 | For every depth there is a run with granted and consumed repairs nested so deep, in which every task of the line is charged for a call: contract and output repair take turns, each after an operator retry. |
| LedgerExample.WholeChain | common/provider_runtime_output_repair.py:92-905 | A concrete run that reaches a consumed provenance repair through all five kinds of runtime repair. |
| Registry.Manager.ReserveInvocation | deliberation/registry.py:195-301 | True exactly when no reservation exists and an authorization, where the task's name asks for one, is pending; it then saves the reservation and spends that authorization and changes nothing else. |
| Registry.Manager.Integrate | deliberation/registry.py:86-193 | The number of calls is that of the answers up to the first that ends the loop, at most one retry; the last call alone decides the ending; the error behind the loop is never raised; Safe Mode never calls twice. |
| Batch.CompletedResponseIff | providers/openrouter_batch.py:425-480 | A body is returned exactly when one and only one result carries the custom ID, and it is that result's own successful body. |
| BatchSystem.SubmittedAtMostOnce | providers/openrouter_batch.py:67-268 | Over any processes, restarts and crashes on one sidecar at most one POST is issued, for the job the sidecar was created for. |
| BatchSystem.BatchIdIsWriteOnce | providers/openrouter_batch.py:67-268 | The job of the sidecar stays, and its batch ID once saved never changes. |
| BatchSystem.ReturnedBodyIsTheMatch | providers/openrouter_batch.py:67-480 | Every body handed to a caller is the successful body of the one result with the caller's own custom ID, in a response fetched for the saved batch ID. |
| BatchClient.Client.LoadOrPrepare | providers/openrouter_batch.py:346-423 | Without a sidecar one is created and ours to submit; an existing one is left untouched and is polled or refused. |
| BatchClient.Client.ExecuteChat | providers/openrouter_batch.py:67-268 | The POST goes out exactly when there was no sidecar; a saved batch ID is kept; a sidecar of another job or without a batch ID is refused with its own error; otherwise the polled replies decide. |
| PlaywrightValidator.Validate | playwright/validator.py:56-405 | The passes over mappings, paragraphs and visuals raise exactly the findings of the individual tests, and the result is valid exactly when none is an error. |
| PlaywrightConsistency.PassesIff | playwright/validator.py:56-405 | The validator passes exactly the consistent artifacts: linked, covered, unchanged in traceability, fully and correctly cited, disclosed, and with sound visuals. |
| PlaywrightConsistency.OnlyRepairableIff | playwright/deterministic_repair.py:54-62 | No error but repairable ones is raised exactly when all conditions but the citation ones hold. |
| PlaywrightConsistency.RepairableRaisedIff | playwright/deterministic_repair.py:54-62 | A repairable error is raised exactly when a citation is missing, unsupported or listed as unsupported. |
| PlaywrightRepair.AddMapping | playwright/deterministic_repair.py:64-488 | Returns the mapping a missing-mapping finding calls for, and nothing only when there is none: sources located one by one, donors in agreement, no accepted gap touched. |
| PlaywrightRepair.CorrectMapping | playwright/deterministic_repair.py:64-488 | Returns what is to be done about an unsupported mapping, drop or reclassify, and nothing only when it is undetermined. |
| PlaywrightRepair.Repair | playwright/deterministic_repair.py:64-488 | Returns a repair of the saved state and raises only when there is none, both directions. |
| PlaywrightRepair.RepairsOnce | playwright/deterministic_repair.py:64-488 | There is at most one repair, so the result is determined by the saved state. |
| PlaywrightRepair.RepairIsSound | playwright/deterministic_repair.py:64-488 | When the saved findings are the validator's own and the repair returns, the validator raises no error about the repaired artifacts. |
| PlaywrightExample.RepairIsReached | playwright/deterministic_repair.py:64-488 | Concrete artifacts with one missing mapping that meet all premises of the repair: they fail the validator, and their repair passes it. |
| RevisionBudget.Consume | storage/revision_exchange_repository.py:42-94 | A replayed request gets its own slot back; a new one the first free slot up to the limit; it is refused exactly when all are taken by others, and nothing is written then. |
| RevisionBudget.OneSlotPerRequest | storage/revision_exchange_repository.py:42-94 | Over every interleaving with crashes, and at any two times, all processes that hold a slot for one request hold the same slot. |
| RevisionBudget.RefusedForGood | storage/revision_exchange_repository.py:42-94 | A request once refused is from then on given no slot within the limit it was refused at. |
| RevisionBudget.AdmittedWithinLimit | storage/revision_exchange_repository.py:42-94 | No run hands out more slots than the limit. |
| ConclusionState.ClosureCoversTargets | conclusion/manager.py:1630-1669 | A revision runs every agent its review names, rebuilds the package when it names the manager, and starts at one of the named targets. |
| ConclusionState.ClearKeepsPrefix | conclusion/manager.py:4245-4283 | Clearing from an agent drops its checkpoint and all later ones, keeps the earlier ones unchanged, and takes selection and final conclusion with it. |
| ConclusionManager.Manager.Serve | conclusion/manager.py:315-2384 | Over any commands and any crash at any write: a state that waits for a selection has passed validation, holds no selection or conclusion, and has a passing review but for the writes of one line (see Findings); a completed one has the final conclusion of a selection made on a passing review; revisions stay within the limit; no specialist is called with a selection or conclusion stored; no revision calls more agents than were authorized. |
| ConclusionManager.GateWithoutReview | conclusion/manager.py:2028-2047 | A concrete run that ends with a saved state that waits for a selection and has no review. |
| ConclusionManager.Manager.Start | conclusion/manager.py:332-375 | A saved workflow is returned as it is; otherwise at most as many revisions as the budget has, each with a slot of its own, and with answers that approve the workflow reaches the human gate. |
| ConclusionManager.Manager.Decide | conclusion/manager.py:2247-2384 | Automatic revision ends: every revision holds a budget slot no earlier one of the run holds, Safe Mode starts none, and an approved valid package reaches the human gate with the candidates it was given. |
| ConclusionManager.Manager.Execute | conclusion/manager.py:1367-1629 | One authorized revision and what follows from it stay within the unspent budget; in Safe Mode it is one revision of at most four calls. |
| ConclusionManager.Manager.RunCycle | conclusion/manager.py:1422-1628 | A revision that has the authorization and the slot of its own request, and the revisions that follow from it, each hold a slot no earlier one of the run holds; together they stay within the unspent budget and four calls each. |
| ConclusionManager.Manager.RunAgents | conclusion/manager.py:1422-1628 | At most four calls, recorded as one revision of the authorized request, and a review only with a complete validated package. |
| ConclusionManager.Manager.Authorize | conclusion/manager.py:1367-1629 | A revision may run only with its authorization, granted to the same actor from the same source for the same reason, consumed for exactly its reservations, within the permitted count, and with the slot of its own request where its route needs one. |
| ConclusionManager.Manager.ConsumeGrant | storage/revision_exchange_repository.py:374-431 | An authorization is consumed for one list of reservations, never for more than it allows, and nothing else is written. |
| ConclusionManager.Manager.Resume | conclusion/manager.py:377-471 | Whatever the returned result, correlated or not, every version of the files written on the way satisfies the invariants of `Serve`, and the calls are bounded by the budget. |
| ConclusionManager.Manager.Recover | conclusion/manager.py:773-982 | A failed workflow continues at its first missing checkpoint: in Safe Mode no specialist whose checkpoint was saved is called again, and the calls are bounded by the budget. |
| ConclusionManager.Manager.Revise | conclusion/manager.py:984-1126 | One operator-authorized revision and no more; outside Safe Mode it changes nothing and calls nobody. |
| ConclusionManager.Manager.IntegrateCandidates | conclusion/manager.py:2029-2068 | Exactly when the workflow waits and at least two IDs, all known, are given, its state is written with the review cleared while it still reads as waiting; otherwise nothing happens. In Safe Mode only the integrator and the reviewer are called, in this order. |
| ConclusionManager.Manager.Select | conclusion/manager.py:2070-2146 | A choice outside the conditions (waiting, passing review, known IDs, fitting kind) changes nothing; what is stored is a selection with the conclusion built on it and the review it was made on; a fitting choice whose conclusion is traceable is stored. |
| RetrievalLedger.DigestIsOfTheContext | common/retrieval_reconstruction.py:227-276 | In every run, with any processes and crashes, a recorded digest is that of the context on disk, belongs to a consumed authorization with its own reservation, and no two recorded digests differ. |
| RetrievalLedger.RecordIsIdempotent | common/retrieval_reconstruction.py:227-276 | Recording twice is recording once, and afterwards exactly the context the digest was taken from passes. |
| RetrievalLedger.LosesDigestIff | common/retrieval_reconstruction.py:189-225 | A step loses a recorded digest exactly when it consumes a stale copy of the record. |
| RetrievalLedger.ConsumedOnceIff | common/retrieval_reconstruction.py:189-225 | A run consumes its authorization at most once exactly when none of its consumptions is stale. |
| RetrievalLedger.OneSearch | retrieval/coordinator.py:66-110 | Without a stale consumption at most one paid search is made. |
| RetrievalLedger.DigestStays | common/retrieval_provider_retry.py:255-301 | And a recorded digest stays for good. |
| RetrievalLedger.NeverConsumedAgain | common/retrieval_provider_retry.py:218-253 | And a consumed authorization is never consumed again. |
| RetrievalLedger.WinnersAreFresh | retrieval/coordinator.py:66-110 | When only the process that created the reservation consumes, no consumption is stale. |
| RetrievalLedger.SuccessionIsFresh | retrieval/coordinator.py:80-86 | Nor when processes do not overlap, although a later one may adopt the reservation of one that died. |
| RetrievalLedger.FirstWins | retrieval/coordinator.py:66-110 | A concrete run with one winner that ends with a recorded digest. |
| RetrievalLedger.OverlapLosesTheDigest | retrieval/coordinator.py:80-86 | A concrete run of two overlapping processes in which adoption loses the digest and pays twice. |
| RetrievalLedger.CorrelatedSidecar | common/retrieval_provider_retry.py:67-177 | The loop finds a sidecar exactly when one file is a failed batch of the model, and returns such a file. |
| RetrievalLedger.SameSidecar | common/retrieval_provider_retry.py:67-177 | Which one does not depend on the order of the files. |
| Capabilities.FollowAliases | providers/openrouter_capabilities.py:99-176 | The alias loop always stops, at a model without a further alias, an unknown ID or a repeated one. |
| Capabilities.OneEnd | providers/openrouter_capabilities.py:99-176 | Where a chain of aliases stops is determined by the ID it starts from. |
| Capabilities.CompatibleIff | providers/openrouter_capabilities.py:99-201 | A model is let through exactly when its chain of known aliases ends, without a cycle, in an entry whose endpoint list has an endpoint that supports both required parameters. |
| Capabilities.OneAnswer | providers/openrouter_capabilities.py:59-176 | The metadata admits one answer for a model, with its resolved ID and reason. |
| Capabilities.Client.Inspect | providers/openrouter_capabilities.py:59-81 | Cached or not, the answer is the only one the metadata admits. |
| Capabilities.LastItemWins | providers/openrouter_capabilities.py:178-191 | An entry of the catalog is the last item with its ID. |
| Deliberation.CollectedOccurs | deliberation/validator.py:473-487 | What is collected is a string that occurs under `evidence_id`, or in a list under a key ending in `evidence_ids`. |
| Deliberation.OccurrenceIsCollected | deliberation/validator.py:473-487 | And every such occurrence is collected when no key above it already ends the search. |
| DeliberationValidator.Validate | deliberation/validator.py:31-455 | The loops append exactly the findings of the rules, in order, and the result passes exactly when none of them is an error. |
| DeliberationValidator.PassesIff | deliberation/validator.py:31-455 | The validator passes exactly the acceptable cases, the rules stated without reference to findings. |
| DeliberationValidator.ClaimToSource | deliberation/validator.py:31-455 | In a passing case every key claim leads to known analyses, to evidence of the report, and for each of that evidence to the source the report gives for it. |
| DeliberationValidator.BlockingIsDisposed | deliberation/validator.py:31-455 | In a passing case every blocking counterargument has a disposition; with one disposition each, every change the dispositions name exists. |
| DeliberationValidator.CollectTargets | deliberation/validator.py:31-455 | The target sets grown by the loops are the sets of the case, and each metric is the size of its set. |

## Findings

Properties the code or its documentation suggests that do not hold, each with an input and the
exact condition.

- **A constant is not always preserved losslessly.** The docstring at
  common/provider_schema_compatibility.py:228-235 says it is. A constant beside an enumeration
  with another value is dropped (243-248), and the wire schema then admits that value too.
  `SchemaExample.ConstIsLost` is such a node. `GeminiRelaxation.DroppedConstIsLosslessIff`: nothing is lost exactly when every value of the
  enumeration equals the constant. `SpecializeRelaxes` holds in either case.
- **A workflow can wait for a selection without a review.** `integrate_candidates` clears the
  review and saves while the status is still WAITING_HUMAN_SELECTION
  (conclusion/manager.py:2046-2047). It does so exactly when its guard at 2037-2045 lets it:
  the workflow waits, at least two IDs are given and all of them are known
  (`ConclusionManager.Manager.IntegrateCandidates`, both directions). `ConclusionManager.Manager.Serve`: every
  other write of every command satisfies the gate. `ConclusionManager.GateWithoutReview`: a
  concrete run, `start`, integration of two candidates and a crash, that leaves the files so.
  `select` then refuses (`ConclusionManager.Manager.Select`).
- **A stale consumption erases a recorded digest and pays for a second search.** `consume` writes
  the caller's copy without reading the record again (common/retrieval_reconstruction.py:189-225),
  and a recovery adopts an existing reservation (retrieval/coordinator.py:80-86).
  `RetrievalLedger.OverlapLosesTheDigest` is the run. `RetrievalLedger.ConsumedOnceIff` and
  `RetrievalLedger.LosesDigestIff` give the exact condition; `WinnersAreFresh` and
  `SuccessionIsFresh` the two ways to keep it.
- **Paths of names with dots or brackets are not read back.** `PathText.DottedNameIsSplit` is an
  input, `PathText.ReadBackIff` the condition on the names.
- **The filter's report can point elsewhere than the check's.** `RemovalReport.ShiftedReport` is
  an input with an object in a reference list; `RemovalReport.RemovedIsUnknownIff`: the two agree
  exactly when nothing unknown stands inside an item that follows a removed one in its list.
- **Repairs of repairs are not bounded.** Every store refuses tasks that are repairs of some
  kinds, but the output store does not refuse a contract or capability repair
  (common/provider_output_repair.py:102-104), and those two do not refuse an output repair
  (common/provider_contract_repair.py:106-108, common/provider_capability_repair.py:90-96).
  `LedgerRenewal.NestingIsUnbounded`: for every depth a run, with a charged call for every task.
  `LedgerNesting.NestingIsBounded`: the depth exceeds nine only by such renewals, three for each;
  each task by itself is still admitted at most once (`LedgerSystem.AdmittedAtMostOnce`).
- **Inlining loses properties named like definitions** (common/provider_schema_compatibility.py:321-325).
  `Inline.ExpandFieldsGet`: exactly the keys `definitions` and `$defs` are lost, as in
  `SchemaExample.LossExample`. A schema is never sent so: `BatchResults.LostPropertyIsRejected`,
  with `SchemaExample.LostExample`.

## Left out

- SpecializeRelaxes: models other than Gemini get the canonical schema itself and are not modelled; does not cover `oneOf`, `not` and `if`, under which relaxing a part tightens the whole; `BatchKeepsMeaning` does cover `oneOf`.
- BatchKeepsMeaning: the schema is well formed for the metaschema with scalar constants and enumerations, and references name schemas; a constant that is an object or a list is not covered.
- SpecializeRelaxes and BatchKeepsMeaning: a reference that names a schema below `not`, `if`, `patternProperties` or a list of branches is excluded by the condition that references name schemas the provider walk reaches through definitions, properties and single schemas.
- WireKeepsShape: an `enum` that is no list is not modelled as a conflict with `const`.
- InlineIdempotent: a reference that names a bare string is not covered; the schemas the code builds have none.
- Serve: the revision limit is fixed over a run, so a limit lowered between two runs is not modelled; an exception that leaves a command is a crash at the write before it; a crash may put the files back to any earlier version, so more runs are covered than can happen; that the workflow gets on after a crash is not stated.
- Repair: mapping IDs are unique, as the manifest's own validation demands; the audit record, the repair IDs and the final `model_validate` are not modelled.
- RepairIsSound: registered sources have non-empty IDs, as their schema demands.
- RemoveUnknownListItems: works on values; mutation of a nested payload in place and deep copies are not modelled, and digits in a path are ASCII digits.
- ViewIsFixpoint: IDs that a schema declares as strings are strings; `str` of any other value is a parameter.
- OneSlotPerRequest: the audit fields of a slot and its timestamps are not modelled.
- ExecuteChat: resuming a batch on an existing reservation from the provider base class, the order of batch statuses and request counts are not modelled.
- AdmittedAtMostOnce: creates are atomic and complete, so a torn reservation file is not modelled.
- CollectTargets: `workflow_revision_count` is a parameter passed through and is not modelled.
- Schema keywords outside the semantics (`contains`, `patternProperties` and the like), and the size, depth and enumeration budgets of the Gemini check.
- The order and IDs of Playwright findings, the sorting of violations, and all message texts.
- The float product `x * 0.2`, truncated, is an integer division by five.
- Path components are not hashed; each file is identified by what its name is made of.
- The rerun flags of a Conclusion pass are modelled by its first stage; the Playwright-originated request is the first one the world offers.
- Budget preflight of the registry, prompts, LLM answers, HTTP, Discord and the command line.
- Producer and Researcher layers, configuration and logging.
