# Parts Bin: a verified model

Parts Bin keeps an inventory of electronic parts and lets a language model work on it through server-owned
tools. Its hard promises are about what survives crashes, retries and concurrency: a paid provider call is
never repeated, a decision is never lost, an approved change happens once, a client that missed events
catches up, and evidence stays attached to the part it was read for. This project models the code that
makes those promises and proves them for every input, every run and every interleaving of the model.

`dafny verify dfyconfig.toml` verifies the whole project.

## How it is laid out

Durable execution. `Store` holds the tables and one function per committed write unit of
`db/postgres/dispatch.py` and `db/postgres/execution.py`; `Repository` is the class whose methods update those
tables in place, each proved equal to its unit. `Runtime` is the worker as a step machine: one step per write
unit, external call or publication, so that anything may happen in between. `StageLoop` is the same code as
the nested loops it really is, over the tables updated in place, and proves that every run of the loops walks
the machine, with arbitrary changes to the tables between any two steps. `Protocol` states the invariant over
all executions, deliveries and workers; `ProtocolFrame` to `ProtocolTheorems` prove that every action keeps
it; `DurableExecution`, `Publication`, `Cancellation` and `StaleStart` state what follows for every run, and
`WovenRun` shows that a walk of the loops, woven with the rest of the system, is such a run.

Effects and the log. `SnapshotIsolation` models REPEATABLE READ with first-updater-wins and the shared revision
row. `Approvals` and `BatchApproval` cover receipts, additions and batches. `EventLog` is the server's log,
`EventStream` the incremental parser, `AgentSession` the client's copy, `Replica` the two together.

Inventory. `Decimals`, `Nominal`, `NominalRoundTrip` and `NominalLabels` cover stock values and their labels;
`Normalization`, `Inventory`, `InventoryIdentity`, `HiddenStock`, `MisfiledStock`, `EnrichedStock`, `CreateParts`,
`Evidence` and `PartsBin` cover identity, lookup, batches and reviews. `Numbers`, `Tolerance`, `Merging`, `Intervals`,
`Conditions`, `Confirmation` and `Reading` cover quantities, conditions and requirements. `Passages` is the
window loop that selects source text.

Three values stand for randomness and time: a uuid is the next unused number, the clock is a field that only
the action `Tick` moves, and what a provider, supplier or tool answers is an arbitrary input. One uuid drawn
per delivery stands for its dispatch token, its worker id and the approval request it may insert; the three
live in different columns and are never compared.

## Model

| member | source | states |
|---|---|---|
| DurableExecution.PaidWorkAtMostOnce | agent_runtime/runtime.py:282-325 | In every run, whatever crashes, expires or is taken over, no external call of an execution is made twice, so each model round is submitted at most once and at most `max_tool_turns` rounds in all |
| DurableExecution.CallsAreFirstAndOnly | agent_runtime/runtime.py:367-375 | A worker about to contact the provider or a supplier makes a call nobody made before, and no other worker is about to make it |
| DurableExecution.SettledPauseIsOpen | agent_runtime/dispatch.py:79-89 | A delivery acknowledged at a pause still awaits an undecided approval of its own, and its execution is not cancelled |
| DurableExecution.AcknowledgementKeepsWake | db/postgres/dispatch.py:85-109 | An acknowledgement that lost its lease changes nothing; one outdated by a wake leaves the due time and settlement alone and the row unblocked |
| DurableExecution.NoStrandedDelivery | db/postgres/dispatch.py:144-157 | Every row is due at some time, or settled, or blocked after eight failures with nobody holding it; an unblocked, unsettled row becomes deliverable by waiting; the repair UPDATE changes no reachable row |
| DurableExecution.ReturnedStatusIsPersisted | agent_runtime/runtime.py:220-236 | The status a current stage returns is the one its row holds when it releases the execution |
| DurableExecution.SettledEndIsPublished | agent_runtime/runtime.py:225-236 | In runs where no claim takes over an execution whose current delivery is already returning, every acknowledged end has its terminal event in the log |
| Publication.AcknowledgesUntold | db/postgres/dispatch.py:85-109 | A current, unwoken acknowledgement of an ended execution settles it unpublished exactly when the returned status is not final and the terminal key is not in the log |
| Publication.UntoldExactly | agent_runtime/dispatch.py:100-123 | In every run: an acknowledged end is unpublished if and only if such an acknowledgement happened and since then the end was neither published nor the execution woken |
| StaleStart.StaleStartLosesPublication | agent_runtime/runtime.py:225-236 | A run exists after which a completed, acknowledged execution has no terminal event, no worker and no due time |
| DurableExecution.PublishedExactlyOnce | db/postgres/conversations.py:51-67 | In every reachable state sequences are gapless and each published key names the one row carrying it |
| Cancellation.CancellationIsFinal | db/postgres/execution.py:117-121 | In every run, once an execution is cancelled it stays so, no worker is authorised for a model submission, lookup or ingest it was not already authorised for, and only calls authorised before are still made |
| Cancellation.CallsAfterCancellation | agent_runtime/runtime.py:267-375 | At most as many of these calls follow a committed cancellation as workers had begun a stage by then |
| WovenRun.WalkIsRun | agent_runtime/dispatch.py:100-123 | Whatever the rest of the system does between its steps, the walk of a delivery is part of a run of the system, and no call it makes was made before, twice, or by anybody else |
| StageLoop.StageRun.RunDelivery | agent_runtime/dispatch.py:100-123 | However the tables change between its steps and whatever is answered, the delivery walks the step machine from claim to acknowledgement and makes exactly the calls it accounts for |
| StageLoop.StageRun.Body | agent_runtime/runtime.py:267-398 | The nested loops leave the machine at an exit, at cancellation or at a refused budget, and end |
| StageLoop.StageRun.WasInterrupted | agent_runtime/runtime.py:445-458 | The scan finds exactly the interrupted lookups and ingests of a part |
| StageLoop.CrossingAdvances | agent_runtime/runtime.py:182-415 | A step of the walk is what the worker's action does to the whole system |
| Repository.PostgresRepository.Finish | db/postgres/dispatch.py:85-109 | Acknowledging updates the row as its unit does, and reports whether it is now blocked |
| Repository.PostgresRepository.ClaimDue | db/postgres/dispatch.py:51-67 | Claims the earliest deliverable row, ties by id, or finds that there is none |
| Repository.PostgresRepository.Save | db/postgres/execution.py:99-110 | Checkpoints under the execution lease, links the approval and re-arms delivery in one unit |
| Repository.PostgresRepository.RequestCancellation | db/postgres/execution.py:123-136 | Marks, publishes and wakes in one unit, or leaves nothing behind |
| Repository.PostgresRepository.Decide | agent_runtime/dispatch.py:79-89 | Records the decision and wakes its execution together, or refuses both |
| Repository.PostgresRepository.Reconcile | db/postgres/dispatch.py:144-157 | Takes the oldest unconsumed webhooks, all or a hundred, matches each in that order with a row that has its response by then if there is one, repairs, and drops expired ones |
| SnapshotIsolation.CommitsAreSerial | db/postgres/connection.py:68-93 | Every committed state is the result of running the first write units one after another, in commit order |
| SnapshotIsolation.RevisionIsTheOrder | db/postgres/connection.py:68-93 | The revision counts the committed write units |
| SnapshotIsolation.SnapshotIsAPrefix | db/postgres/connection.py:68-93 | Every unit, reading or writing, sees the state after some prefix of the committed write units |
| SnapshotIsolation.RevisedUnitNeverFails | db/postgres/connection.py:68-93 | After its first update a unit is never refused or kept waiting |
| SnapshotIsolation.WriteSkewWithoutRevision | db/postgres/connection.py:74-79 | Without that update, a run commits two units whose joint outcome is that of neither serial order |
| SnapshotIsolation.Access | db/postgres/connection.py:32-49 | Six attempts commit the body of a call once or not at all |
| Approvals.ApprovedEffectExactlyOnce | agent_runtime/approval.py:149-179 | In every run a single-target approval takes effect once if its stored result is a success and never otherwise, on targets equal to the approved snapshot |
| Approvals.AdditionExactlyOnce | tools/registry.py:150-169 | In every run an addition takes effect exactly when its receipt is stored, once; a replay returns the receipt and changes nothing |
| Approvals.StoredNeverChanges | agent_runtime/approval.py:79-93 | A stored decision and a stored result never change again |
| BatchApproval.CrashAndRetry | agent_runtime/approval.py:116-147 | Any number of crashes at any points and one completing run give the inventory and the outcomes of one uninterrupted run |
| BatchApproval.Batch.Execute | agent_runtime/approval.py:116-147 | A run of the batch stops at its crash with its progress kept, or stores the summary of the uninterrupted run |
| EventLog.AppendKeepsLog | db/postgres/conversations.py:51-67 | An append keeps every thread's sequences exactly 1..n, its keys injective, and all earlier rows |
| EventLog.KeyedAppendIsIdempotent | db/postgres/conversations.py:51-67 | A keyed append repeated returns the same sequence and writes nothing |
| EventLog.ConversationRepository.EventsAfter | db/postgres/conversations.py:73-76 | Reads exactly the stored events past a cursor, in order |
| EventStream.ReadEventStream | ui/src/agentSession.ts:22-63 | However the stream is cut, the reader delivers what splitting the whole text at once would, errors included |
| EventStream.RoundTrip | server.py:89-90 | The events the server printed are recovered exactly, for any cutting |
| AgentSession.Session.Cursor | ui/src/agentSession.ts:184-193 | The cursor is the largest k with 1..k all held |
| AgentSession.ReceiveKeeps | ui/src/agentSession.ts:129-136 | Receiving keeps stored events ascending and duplicate-free before the echoes, adds exactly the event, and removes only its own echoes |
| AgentSession.Session.Poll | ui/src/agentSession.ts:194-212 | After one successful poll from the cursor the stored events are the server's log at that snapshot |
| Replica.Watch | ui/src/agentSession.ts:230-245 | The same against the stored tables: whatever was missed, afterwards the session holds exactly the conversation |
| Replica.SeenStaysSeen | db/postgres/conversations.py:73-76 | In every run of durable execution an earlier conversation is a prefix of a later one |
| NominalLabels.DisplayRoundTrip | domain/nominal.py:37-49 | For every canonical quantity in every unit whose label fits, the label reads back as the quantity exactly when it is not a negative resistance |
| NominalRoundTrip.DecimalRoundTrip | domain/nominal.py:52-107 | Stored decimal text of at most 100 characters reads back as the same quantity |
| NominalLabels.ParsedSurvives | domain/nominal.py:52-107 | Whatever is parsed survives storage as decimal text, and its own label unless it is a negative resistance |
| Normalization.NormalizedIsNormal | domain/normalization.py:85-97 | Normalizing twice changes nothing more exactly when the first pass does not leave a package-shaped value with a value-shaped package |
| Normalization.ValidatedIsNormal | domain/normalization.py:54-97 | What validation stores, for any submitted record, is in normal form exactly under that condition |
| HiddenStock.HidesExactly | domain/normalization.py:33-47 | Validation stores a hidden row exactly for a submitted passive record without part number whose package is value-shaped and whose value reads as four or five digits |
| HiddenStock.AdditionsKeepUnique | domain/service.py:432-442 | On unique validated rows, every accepted addition keeps identities unique if and only if no stored row is hidden |
| MisfiledStock.HiddenRowIsDoubled | domain/normalization.py:33-47 | Two accepted additions to an empty inventory that end with one identity twice |
| InventoryIdentity.LookupIsFaithful | domain/service.py:120-158 | With no hidden row, the narrowed search finds exactly the rows an identity scan of the whole inventory finds |
| InventoryIdentity.LookupFinds | domain/service.py:543-556 | With unique identities the lookup returns the one holder and never fails as ambiguous |
| InventoryIdentity.UpdatedStaysTidy | domain/service.py:591-601 | An update keeps identities unique, and hides no row unless its record does |
| InventoryIdentity.LookupAnswers | domain/service.py:543-556 | In any inventory the lookup returns a row exactly when it alone answers the search for the identity, and none exactly when no row does |
| EnrichedStock.EnrichmentsKeepUniqueExactly | domain/service.py:765-785 | For a stored row and an enrichment of it: every tidy inventory that holds the row and accepts the enrichment keeps identities unique if and only if the identity of the written row is unknown, numbered, that of the current or of the checked record, carried by the UNIQUE column, or one no record can be stored under |
| EnrichedStock.NothingClearedStaysUnique | domain/service.py:765-785 | An enrichment that clears no stored column keeps identities unique in any inventory |
| EnrichedStock.WrittenIsSubmitted | db/postgres/inventory.py:148-150 | When repair touches no unnamed column and nothing is cleared, the written row is the validated record, and is settled exactly when the submitted record does not hide its identity |
| EnrichedStock.WrittenIsProper | db/postgres/inventory.py:148-150 | An enrichment that names neither category nor unit writes a row as validation would, whatever is repaired or cleared |
| Evidence.ClearingRunDoubles | domain/service.py:765-785 | Two additions and an enrichment with a blank value, each accepted, end with two settled rows of one identity |
| Evidence.IdentityStaysUnique | domain/service.py:787-805 | No two parts share a known identity in any run of all service operations whose single additions and updates pass the test of `HidesExactly` and whose enrichments write a settled row and pass the test of `EnrichmentsKeepUniqueExactly` on the row they meet |
| Evidence.EvidenceStaysBound | db/postgres/inventory.py:193-217 | In every state reached through the service each pending review's snapshot is its part's current metadata and accepted facts |
| Evidence.ApplyNeverConflicts | domain/service.py:405-416 | Applying a pending review of valid facts never conflicts, however long it waited |
| CreateParts.CreateRefinesOneAtATime | domain/service.py:475-497 | From any inventory whose next id is free, hidden and doubled rows included, the batch adds, finds or refuses the same parts, with the same error, as looking every item up on its own |
| CreateParts.LabelsAreRight | domain/service.py:475-497 | Each outcome carries its input's index, and a duplicate names the first input of its identity |
| CreateParts.CreateTwice | domain/service.py:475-497 | Running a batch again adds nothing and changes nothing exactly when every item has an identity |
| CreateParts.EnsuredExtends | domain/service.py:475-497 | Existing rows keep every column, quantity and metadata included |
| Evidence.EveryBatchRefines | domain/service.py:475-497 | These three hold of every validated batch in every state reached through the service |
| PartsBin.PartsBinService.CreateParts | domain/service.py:475-497 | The loop with its memory computes the batch, and a failure leaves the tables as they were |
| PartsBin.PartsBinService.DuplicateForAdd | domain/service.py:543-556 | The search loop finds the one match, none, or refuses an ambiguous one |
| PartsBin.PartsBinService.UpdateParts | domain/service.py:499-504 | Updates in order, all or nothing |
| PartsBin.PartsBinService.ApplySpecificationReview | db/postgres/inventory.py:207-217 | Accepts the reviewed facts only onto the snapshot they were staged from |
| PartsBin.PartsBinService.NormalizeNominalValues | db/postgres/inventory.py:84-97 | Rewrites every value and the snapshots of the reviews that were current, or nothing |
| Numbers.RoundedExactly | domain/quantities.py:68-77 | Rounding in the context keeps a value exactly when no digit is lost |
| Tolerance.ContextIsExact | domain/quantities.py:80-100 | For values of 100 characters in any unit and conditions of 200, both endpoints of every interval are the exact decimal difference and sum |
| Merging.MergeIsExactWhen | domain/specification_conditions.py:27-48 | A condition and its separate tolerance merge to the exact center ± tolerance exactly when neither sum has more than 220 significant digits |
| Merging.ShortTextsMergeExactly | domain/specification_conditions.py:27-48 | They do for every prefixed dimension, and in Celsius and percent for texts of together at most 221 characters |
| Merging.CombinedExactly | domain/specification_conditions.py:51-55 | The same of the comparable form of a mapping of conditions |
| Merging.LongTextsMergeInexactly | domain/specification_conditions.py:38-45 | Two percentages of 200 characters each that read exactly and merge inexactly |
| Intervals.ConfirmedMeans | domain/quantities.py:103-123 | True means the comparison holds between all stored and all requested values, and for equality that the intervals are the same |
| Intervals.RuledOutMeans | domain/quantities.py:103-123 | False means some requested value is met by no stored value, and for equality that no value is shared |
| Intervals.GapIsFailure | domain/quantities.py:131-145 | The gap is positive exactly when the outcome is False |
| Conditions.ComparableMeans | domain/specification_conditions.py:27-48 | The comparable form name by name: merged tolerances are gone, named dimensions that read are ranges, the rest is as stated |
| Conditions.ComparableIsOne | domain/specification_conditions.py:27-48 | No other mapping answers that description |
| Conditions.ConditionsCover | domain/specification_conditions.py:58-77 | The loop decides whether every qualifier stands on both sides, each one covered |
| Conditions.CoverIsPreorder | domain/specification_conditions.py:58-77 | Coverage is reflexive and transitive |
| Conditions.CoverKernel | domain/specification_conditions.py:51-55 | Two mappings cover each other exactly when they are the same conditions |
| Conditions.CoverIsContainment | domain/specification_conditions.py:58-77 | In a covered dimension each requested value is an available one |
| Reading.ReadConditionsCompare | domain/specification_conditions.py:27-55 | That description holds of every mapping as read by the service's own reader with its table of dimensions |
| Confirmation.Evaluate | domain/specifications.py:360-393 | The loop computes the assessment |
| Confirmation.ClearMeansConfirmed | domain/specifications.py:360-393 | Nothing is missing and nothing failed exactly when each requirement has a source fact of its basis, qualified, under covering conditions, confirming it |
| Confirmation.EachRequirementOnce | domain/specifications.py:360-393 | Each requirement lands in one list, and the distance is positive exactly when one failed |
| Reading.ReadEvidenceConfirms | domain/specifications.py:242-255 | Both hold for every value and condition read by the service's own reader, with nothing assumed of it |
| Confirmation.MatchesAreConfirmed | domain/service.py:287-322 | A part is a match exactly when some candidate of it is no alternative and is confirmed on every requirement |
| Confirmation.EachCandidateOnce | domain/service.py:299-318 | Each candidate is listed once, in one of the three lists, and the partial ones in order of rank |
| Confirmation.SearchPagesAreComplete | domain/pagination.py:12-13 | Following `next_offset` shows each of the three lists exactly once, in order |
| Passages.ElectricalPassages | ingestion/supplied_source.py:457-472 | The loops over pages and starts compute the selection |
| Passages.NumberedWithinBudget | ingestion/supplied_source.py:457-472 | Ids are 1..n and the total cost is within the budget |
| Passages.OmittedForBudget | ingestion/supplied_source.py:457-472 | Something is reported omitted exactly when some window with text in it did not fit what the earlier ones left of the budget |
| Passages.PassagesAreVerbatim | ingestion/supplied_source.py:457-472 | Each passage is a slice of its page at a visited start |
| Passages.ShortRunsSurvive | ingestion/supplied_source.py:457-472 | When nothing is omitted, every run of at most 200 characters that is not all blank lies inside one passage of its page |

## Findings

Properties the code does not have, each with an input and the exact condition.

- Publication before settlement. A worker stalls for more than 300 seconds before it claims its execution; a
  second delivery submits the model call and returns `waiting_model`; between its release and its
  acknowledgement the first worker takes the execution over, ends it, and dies before it publishes; the
  acknowledgement then settles the end (`StaleStart.StaleStartLosesPublication`, db/postgres/dispatch.py:100-106).
  `Publication.AcknowledgesUntold` says at the acknowledgement, and `Publication.UntoldExactly` over whole runs,
  exactly when this happens. It never does if no claim takes over an execution whose current delivery is
  already returning (`DurableExecution.SettledEndIsPublished`).
- Unique identity. A resistor with value `10k` and package `1k` is stored with value `10000`, which reads as a
  package, so its identity is that of the swapped record, and the narrowed search for that identity passes it
  by (`MisfiledStock.HiddenRowIsDoubled`). `HiddenStock.AdditionsKeepUnique` gives the condition on the stored
  rows, `HiddenStock.HidesExactly` the test on the submitted record. Adding through `add_or_increment` and
  `create_parts` stores no hidden row, because both validate twice (`InventoryIdentity.AddedAgain`).
- Unique identity, a second way. An enrichment checks the record with its cleared columns cleared, but the
  repository leaves a column that became null as it was. With a `resistor` and a `Resistor` of value `1000` and no
  package in stock, enriching the first with category `Resistor` and value ` ` is accepted and gives both rows one
  identity, though neither is hidden (`EnrichedStock.ClearingDoubles`, `Evidence.ClearingRunDoubles`).
  `EnrichedStock.EnrichmentsKeepUniqueExactly` is the condition on the current row and the submitted columns; an
  enrichment that clears nothing is always safe (`EnrichedStock.NothingClearedStaysUnique`).
- Idempotent normalization fails on exactly the same records, numbered ones included
  (`Normalization.NormalizedIsNormal`).
- Exact merging of tolerances. Two percentages of 200 characters, 199 digits before the point and 197 after it,
  need 396 digits (`Merging.LongTextsMergeInexactly`); `Merging.MergeIsExactWhen` and
  `Merging.ShortTextsMergeExactly` say when the merge is exact.
- Labels of negative resistances do not read back; all other labels do (`NominalLabels.DisplayRoundTrip`).

## Left out

- DurableExecution.SettledEndIsPublished: stated under a condition on the run, because the property is false without one; the exact condition is `Publication.UntoldExactly`.
- StageLoop.StageRun.RunDelivery: interruption of a stage by a graceful shutdown is an action of the system (`Throw`) and not of the loops.
- Evidence.IdentityStaysUnique: stated under tests on the commands, because the property is false without them; `HiddenStock.AdditionsKeepUnique` and `EnrichedStock.EnrichmentsKeepUniqueExactly` say when exactly one operation keeps it.
- Confirmation.EachRequirementOnce: the ranking gap is divided and added in exact reals, while the code divides and adds in the 220-digit context.
- Merging.ShortTextsMergeExactly: `V/s` is not a dimension of conditions and is not covered.
- Tolerance.ContextIsExact: splitting at `to` or a dash is a parameter; only that it loses a character is used, in `Merging`.
- SnapshotIsolation.Access: waiting for a row lock counts as a busy attempt.
- BatchApproval.CrashAndRetry: timestamps are not modelled, and no other writer runs.
- EventStream.ReadEventStream: chunks are decoded text; UTF-8 decoding, the idle timeout and JSON parsing are a parameter.
- Evidence.EvidenceStaysBound: whether proposed facts are valid is a parameter of staging and applying; metadata reviews and provenance rows are not modelled.
- Normalization.NormalizedIsNormal: the regular expressions are small recognisers over ASCII digits and letters, and lower-casing is ASCII; the URL grammar of datasheets is not modelled.
- Repository.PostgresRepository.Reconcile: of several rows with one response id, and of webhooks received at the same time, which one comes first is left open, as in the queries; the heartbeat row and the count of repaired rows are not modelled.
- HTTP routes, React components, telemetry, the model transport and its budgets, PDF and OCR handling, supplier lookup.
- The foreground runtime and gateway paths: only single-step deliveries are modelled, as the server drives them.
- `follow`, the conversation list and the details of blocked-delivery notices beyond their keyed publication.
- The enrichment cache, whose leases give no ownership that could be stated.
- The tables of specifications and minimum qualifiers, which are parameters.
- PostgreSQL beyond the stated rules of REPEATABLE READ.
- Search expressions, suggestions, stock checks, previews of bulk updates, exports and BOM grouping.
