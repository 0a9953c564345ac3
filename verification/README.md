# Verified model of the expert answer system

The repository answers questions from a library of documents: an agent runtime executes durable, restartable runs,
a deterministic policy decides which drafts may be published, a backend replays events, pages through libraries and
tables, streams source files and removes objects nobody may keep, and an ingestion worker embeds documents in batches.
These modules model the protocols and algorithms behind that and prove what they promise, over every input, every run
and every interleaving.

| module | models |
|---|---|
| `RunProtocol`, `RunSafety`, `RunExclusion` | any number of managers sharing one database: leases, fencing epochs, guarded writes, cancellation, recovery, the admission permit; what every interleaving keeps, and exactly when only one run has a live lease |
| `Supervision`, `SupervisionSafety`, `SupervisionResults`, `SupervisionSessions`, `SupervisionPermits`, `SupervisionWitness` | the tasks inside one manager process, one `await` at a time: `start`, `_supervise`, `_drain`, `_release`, `aclose`, with a cancellation or an error at every `await` |
| `RunStore`, `RunStoreSafety`, `ModelStep` | the artifacts, budgets and packs of one run as the database keeps them, what it refuses to save and which refusals it accepts; the durable model step: artifacts saved before they are reported, one schema retry per role, replay after a crash |
| `AnswerGraph`, `AnswerGraphSafety`, `AnswerGraphResults`, `AnswerGraphWitness` | the answer graph over that store: nodes, checkpoints, what interrupted nodes leave behind, the repair budget, the outcome and whether the database accepts it |
| `Policy`, `NumericLiterals`, `NumericScan`, `TableVariants`, `TableBuckets`, `VariantGaps`, `PublishedVariants` | the publication policy: critic policies, the precheck with its numbers and table contexts, table-variant groups and gaps, and what these mean for a published answer |
| `Texts`, `Citations`, `Rendering` | numbered citations, the answer text, rendered by the agent and again by the database, its validators and the browser's parser |
| `EventReplay` | event batches, streaming, lossy connections, reconnects and the client reducer, for runs and for ingestion jobs |
| `Batching` | greedy embedding batches under three limits, and an index that resumes from committed batches |
| `Paging`, `TableWindows`, `Cursors`, `SourceViewer` | keyset pages over changing rows, row windows of a table, opaque cursors, byte ranges of verified files |
| `Cleanup`, `CleanupSafety`, `CleanupResults`, `CleanupWitness` | leased deletion of stored objects by workers with clocks of their own, and purge plans that fail and are accepted again |
| `Common`, `Ordered`, `Sorting` | shared datatypes, insertion-ordered lists, sorting |

The database routines a protocol depends on are modelled as the SQL revisions write them; where a later revision
replaces a routine, the later one counts. Protocols among processes or tasks are transition systems over their steps;
code that loops or updates fields is a method or a class proved against a specification function.

Where the code is not what its own promises suggest, the model follows the code:

- "At most one run has a live lease" fails when a heartbeat commits after the lease it extends has run out: its guard
  looked at the lease before, and the admission count does not lock the rows it counts. `RunExclusion.LateHeartbeatBreaks`
  gives the steps, `RunExclusion.TwoLiveRunsAreReachable` a whole run from the start, `RunExclusion.ExclusionHoldsExactly`
  the exact condition, and `RunExclusion.OneLiveRun` two simple ways to meet it.
- "Every permit is released" and every session given back fails after exactly these interruptions: a supervisor or a release
  task that is cancelled between its creation and its first step, a `putconn` that fails, the clean-up of an unfinished
  `permit()` that fails to close, and a release cut short before its unlock or close has worked.
  `SupervisionPermits.EverySessionIsGivenBackExactly` says so for every run; `SupervisionWitness` reaches an abandoned
  supervisor, a cancelled release, an unfinished permit and a spoiled session. After an abandoned supervisor the process
  never takes over another run: `SupervisionResults.AbandonedBlocksForever`.
- "A session with uncertain lock state cannot reenter the pool" holds exactly as long as no release task is itself cut short:
  `SupervisionSessions.PoolStaysCleanExactly`; `SupervisionWitness.SpoiledSessionIsReachable` gives a run in which one is.
- The database turns down two refusals the graph reaches: a draft refused for its numbers or its table context alone, which
  the database cannot check again, and a router whose schema retry was spent on another input before a crash.
  `AnswerGraphResults.RefusalsAreJustified` and `AnswerGraphResults.UnseenIsNumeric` are exact, and
  `AnswerGraphWitness.UncitedNumberIsTurnedDown` and `AnswerGraphWitness.LostRetryIsTurnedDown` reach both.
- A purge plan that failed and is accepted again clears the claims on its remaining objects, also those of a worker that is
  about to send a DELETE. `CleanupWitness.TwoDeletersAreReachable` has two such workers on one object;
  `CleanupResults.DeletersHoldExactly` says that this acceptance is the only way to get there, and
  `CleanupResults.QuietAcceptsAreEnough` that it cannot happen where no lease still runs on what remains of the plan.
- The services admit citations that list up to 500 pages or printed labels, the browser takes 100 and drops the answer
  otherwise: `Rendering.ClientAcceptsDisplayable`, `Rendering.LongListsAreDropped`.
- An index whose embedding limits change between two attempts can be stranded: a batch committed under the earlier limits
  shares rows with a batch of the later ones, and the database refuses those. `Batching.IndexStore.Prepare` says exactly
  when a resumed index finishes, `Batching.TighterLimitsStrand` runs an index into it.
- Saving a step artifact under an identifier that already holds different content is a conflict, not a replay.
- Marking an object deleted does not keep it absent: an upload that was given up on may still land. The mark therefore
  only promises absence at a HEAD under the same claim, and `CleanupResults.MarkFollowsAbsence` that nothing but a later
  upload can undo it.
- A canonical number keeps its comma or point when exactly three digits follow, so such a literal equals no other
  spelling of the same value.

## Model

| member | source | states |
|---|---|---|
| RunSafety.ExecKeepsInv | apps/agent-runtime/src/expert_agent/run_manager.py:168-332 | In every reachable state rows, open transactions, managers, admission, committed writes and ends are consistent with each other |
| RunSafety.RunHistory | infra/postgres/revisions/011_agent_execution.sql:142-195 | Between any two points of any run epochs never decrease and name one owner, a terminal status never changes, a run whose cancel was requested can only end cancelled, and the recovery allowance bounds the epochs |
| RunSafety.WritesAreEpochOrdered | apps/agent-runtime/src/expert_agent/checkpoint.py:84-100 | Committed writes of a run are ordered by epoch, and one epoch writes for one owner |
| RunSafety.SupersededTokenNeverCommits | infra/postgres/revisions/004_routines.sql:80-121 | Once a run was taken over, ended or asked to cancel, no open transaction of the earlier token ever commits |
| RunSafety.EndsAtMostOnce | apps/agent-runtime/src/expert_agent/run_manager.py:206-218 | A run ends at most once, has ended exactly when its row is terminal, and its recorded end is that status |
| RunExclusion.ExclusionHoldsExactly | apps/agent-runtime/src/expert_agent/run_manager.py:180-204 | At every moment of a run at most one run has a live lease, exactly when no heartbeat revives its lease, and no acquisition commits one, beside a live run |
| RunExclusion.OneLiveSurvivesExactly | infra/postgres/revisions/004_routines.sql:122-131 | The same for one step from any reachable state with at most one live run |
| RunExclusion.SoloHoldsExactly | apps/agent-runtime/src/expert_agent/run_manager.py:180-190 | Nor is an admission ever under way beside a live run, exactly when no heartbeat revives an expired lease beside another run that is live or being admitted |
| RunExclusion.OneLiveRun | apps/agent-runtime/src/expert_agent/run_manager.py:168-190 | At most one run has a live lease in every execution whose heartbeats commit in time, and in every execution in which no permit holder crashes or loses its session |
| RunExclusion.LateHeartbeatBreaks | infra/postgres/revisions/004_routines.sql:122-131 | From any state with an overdue open heartbeat, a free permit and an eligible second run, four steps give two live runs |
| RunExclusion.TwoLiveRunsAreReachable | apps/agent-runtime/src/expert_agent/run_manager.py:180-188 | Two live runs are reachable from the initial state |
| SupervisionSafety.RunKeepsInv | apps/agent-runtime/src/expert_agent/run_manager.py:54-138 | Whatever is interrupted at whatever `await`: who is inside the lock, who answers for each permit, which children run, what was released and what was written stay consistent |
| SupervisionResults.AtMostOneActive | apps/agent-runtime/src/expert_agent/run_manager.py:295-332 | `_active` never holds more than one entry |
| SupervisionResults.PermitIsReleasedOnce | apps/agent-runtime/src/expert_agent/run_manager.py:98-108 | Until its release begins exactly one task answers for a granted permit; from then on exactly one release task serves it and no task answers for it; it is never released twice |
| SupervisionResults.EveryReleaseIsBegunExactly | apps/agent-runtime/src/expert_agent/run_manager.py:350-402 | Once all tasks are at rest the release of a granted permit was begun exactly if its supervisor was not abandoned before its first step |
| SupervisionPermits.EverySessionIsGivenBackExactly | apps/agent-runtime/src/expert_agent/run_manager.py:83-138 | Once all tasks are at rest a session that was ever checked out is closed, or in the pool without the admission lock, exactly if no step stopped the last task at work on it while it was open, and no release of it was cut short before its unlock or close worked without the server dropping the session later |
| SupervisionPermits.StraysExactly | apps/agent-runtime/src/expert_agent/run_manager.py:83-138 | For one step from any reachable state: an open session outside the pool is left without a task at work on it exactly if the step is one of the four named interruptions, or it was before |
| SupervisionPermits.SpoilStep | apps/agent-runtime/src/expert_agent/run_manager.py:83-95 | For one step: a released session still holds the lock on its way to the pool, or in it, exactly if its release has been cut short and the server has kept the session since |
| SupervisionResults.ReleaseFollowsChildren | apps/agent-runtime/src/expert_agent/run_manager.py:54-67 | A release begins only when every child of the supervisor is over; a heartbeat checking the permit finds its session open, checked out and unreleased |
| SupervisionResults.OutcomeFollowsChildren | apps/agent-runtime/src/expert_agent/run_manager.py:384-394 | An outcome is written only after the children have drained, before the permit is released, at most once per supervisor, and never for a reason that leaves the row to others |
| SupervisionResults.ShutdownWritesNothing | apps/agent-runtime/src/expert_agent/run_manager.py:354-392 | A supervisor that has not stopped waiting when shutdown begins writes no outcome in any continuation |
| SupervisionResults.InterruptionWritesNothing | apps/agent-runtime/src/expert_agent/run_manager.py:380-388 | Neither does one that is cancelled before its first step, while it waits or while it drains |
| SupervisionResults.CloseLeavesNobody | apps/agent-runtime/src/expert_agent/run_manager.py:270-293 | After `aclose` returned, even by a cancellation, no continuation starts a supervisor, and `_active` holds nothing but an abandoned one |
| SupervisionResults.AbandonedBlocksForever | apps/agent-runtime/src/expert_agent/run_manager.py:325-332 | An abandoned supervisor keeps its entry and its permit in every continuation, and no other run is ever taken over |
| SupervisionSessions.PoolStaysCleanExactly | apps/agent-runtime/src/expert_agent/run_manager.py:83-95 | No session in the pool, or about to be put there, holds the admission lock, exactly when no release task is cut short before its unlock or close has worked |
| SupervisionWitness.InterruptedRunGivesBack | apps/agent-runtime/src/expert_agent/run_manager.py:384-402 | Some run interrupted while draining writes nothing, returns its unlocked session once and leaves `_active` empty |
| SupervisionWitness.AbandonmentIsReachable | apps/agent-runtime/src/expert_agent/run_manager.py:325-327 | A supervisor can be abandoned |
| SupervisionWitness.SpoiledSessionIsReachable | apps/agent-runtime/src/expert_agent/run_manager.py:83-95 | A session that still holds the lock can return to the pool |
| SupervisionWitness.CancelledReleaseKeepsLock | apps/agent-runtime/src/expert_agent/run_manager.py:98-108 | Some run comes to rest with nothing active, no supervisor abandoned and the release begun, and the session still open outside the pool with the lock |
| SupervisionWitness.UnfinishedPermitKeepsLock | apps/agent-runtime/src/expert_agent/run_manager.py:117-138 | Some run comes to rest with a session that was never granted as a permit, open outside the pool with the lock |
| ModelStep.DecisionIsFinal | apps/agent-runtime/src/expert_agent/execution.py:221-309 | An outcome the store determines is determined the same way by every later store |
| ModelStep.EventAttemptsAreLexicographic | apps/agent-runtime/src/expert_agent/execution.py:178-180 | Event attempt numbers order exactly like epoch and schema attempt, and stay within the limit of the database |
| ModelStep.StageExecutor.Save | infra/postgres/revisions/021_table_variant_repair_policy.sql:35-142 | Insert once: what is stored never changes and is returned only for equal content; a new artifact is stored exactly if identity, kind, parents, pack, budget, payload and the cap allow it |
| ModelStep.StageExecutor.ConsumeRetry | infra/postgres/revisions/011_agent_execution.sql:517-536 | One schema retry per role, granted only for a stored retryable first attempt and idempotent for the one that bought it |
| ModelStep.StageExecutor.Infer | apps/agent-runtime/src/expert_agent/execution.py:245-290 | One call stores at most one artifact, of its own identifier and with the content the reply carried, and reports only what it stored |
| ModelStep.StageExecutor.Model | apps/agent-runtime/src/expert_agent/execution.py:221-309 | Interrupted anywhere, a step adds only its own two artifacts; what it stores is what the replies said; a reported outcome is the one the store determines; a decided step is replayed without asking the model or writing; with enough awaits and storable replies it reports |
| ModelStep.Replay | apps/agent-runtime/src/expert_agent/execution.py:221-309 | Over any sequence of interrupted executions, once one reports an outcome every later one of that step reports the same or is interrupted, and asks the model nothing |
| RunStoreSafety.ModelFailureIsAccepted | infra/postgres/revisions/022_model_output_refusal.sql:85-131 | A rejected model step proves a refusal to the database exactly unless it is a router whose retry was spent on another input |
| RunStoreSafety.OneIdentity | infra/postgres/revisions/021_table_variant_repair_policy.sql:35-142 | In a store built by accepted saves all artifacts of drafter, critic or repair in one phase belong to one identity |
| AnswerGraphResults.ChecksNeverFail | apps/agent-runtime/src/expert_agent/graph.py:305-378 | No check of kinds, parents, packs, prechecks or budgets fails in any execution with any interruptions, and the database refuses no local artifact but for the cap |
| AnswerGraphResults.RepliesAreSaved | infra/postgres/revisions/021_table_variant_repair_policy.sql:60-142 | Nor does the database refuse what a model step brings back, but for the cap and for errors of the request itself |
| AnswerGraphResults.BoundedRun | apps/agent-runtime/src/expert_agent/graph.py:188-218 | A run repairs at most once and passes at most thirteen nodes |
| AnswerGraphWitness.LongestRunCompletes | apps/agent-runtime/src/expert_agent/graph.py:110 | Some run with a repair passes thirteen nodes and completes, so the bound is tight and below the recursion limit |
| AnswerGraphResults.FailureLabelIsFresh | apps/agent-runtime/src/expert_agent/graph.py:188-241 | After Router, Critic or Repair the failure label is set exactly when that very execution was rejected |
| AnswerGraphResults.RepairIsMild | apps/agent-runtime/src/expert_agent/graph.py:344-362 | No critic that refuses reaches the repair, so none whose question match is "no"; the enriched critic the repair is asked with always has the policy "repair" and is valid |
| AnswerGraphResults.PublicationIsSound | apps/agent-runtime/src/expert_agent/graph.py:364-406 | A completed run has one pack, a draft that passes the precheck with no variant part missing, a critic whose only parent is that draft and whose raw policy renders, the critic as its decision, a policy that decides to render again, and the database accepts it |
| AnswerGraphResults.RefusalsAreJustified | infra/postgres/revisions/022_model_output_refusal.sql:60-178 | The database accepts a refusal exactly unless it rests on a draft whose fault it cannot see or on a router that lost its retry |
| AnswerGraphResults.UnseenIsNumeric | infra/postgres/revisions/022_model_output_refusal.sql:79-84 | A refused draft is turned down exactly when it is an answer that cites known sources and repeats nothing, and fails only for a number or a table context |
| AnswerGraphWitness.UncitedNumberIsTurnedDown | infra/postgres/revisions/022_model_output_refusal.sql:79-84 | Some run refuses a draft for an uncited number and is turned down |
| AnswerGraphWitness.LostRetryIsTurnedDown | infra/postgres/revisions/022_model_output_refusal.sql:85-131 | Some run whose router lost its retry is turned down |
| AnswerGraphResults.WriteOnce | apps/agent-runtime/src/expert_agent/repository.py:96-168 | Pack, budgets, artifacts and outcome never change once they exist |
| Policy.AggregateRefinesStoragePolicy | apps/agent-runtime/src/expert_agent/validation.py:255-295 | The decision is the raw policy raised by variant gaps, with a second repair turned into a refusal; never milder than the raw policy |
| Policy.AggregateVersusEnriched | apps/agent-runtime/src/expert_agent/validation.py:81-93 | Before a repair the decision equals the raw policy of the enriched critic, except exactly when the critic said "no", nothing else refuses and there are gaps |
| Policy.Merge | apps/agent-runtime/src/expert_agent/validation.py:89-93 | Merging keeps the critic's parts in front and adds exactly the missing ones |
| Policy.ValidateNoRepeatedClaimText | apps/agent-runtime/src/expert_agent/validation.py:185-194 | Accepts exactly the drafts without two claims of one text and one cited set |
| Policy.ValidateNumericLiterals | apps/agent-runtime/src/expert_agent/validation.py:217-225 | Accepts exactly when every number of every claim occurs, by canonical form, in one of that claim's excerpts |
| Policy.ValidateTableContext | apps/agent-runtime/src/expert_agent/validation.py:197-214 | Reports a mismatch without table context, and otherwise accepts exactly when every claim that uses a number of a table cell cites the context of its row |
| Policy.PrecheckDraft | apps/agent-runtime/src/expert_agent/validation.py:56-78 | The first failure in the order of the checks, and none exactly for the drafts that may be published |
| Policy.PassingDraftInventsNoNumber | apps/agent-runtime/src/expert_agent/validation.py:217-229 | In a draft that passes, every number of every claim is spelled by one of that claim's cited excerpts |
| NumericScan.MatchIsExact | apps/agent-runtime/src/expert_agent/validation.py:16-19 | A place begins a match exactly when a literal of the grammar stands there between places without digits, and the match is the longest such literal |
| NumericScan.EveryDigitIsMatched | apps/agent-runtime/src/expert_agent/validation.py:228-229 | Scanning from the start, every digit of a text is part of a match |
| NumericScan.NumberIsSpelled | apps/agent-runtime/src/expert_agent/validation.py:228-229 | A number is among the numbers of a text exactly when a match of that text spells the same number |
| NumericLiterals.CanonicalIsNormal | apps/agent-runtime/src/expert_agent/validation.py:232-252 | On every literal of the grammar the text transformation computes minus sign, digits without gaps, and the fraction behind a decimal point unless three digits follow |
| NumericLiterals.CanonicalIsIdempotent | apps/agent-runtime/src/expert_agent/validation.py:232-243 | A canonical form is a literal and its own canonical form |
| NumericLiterals.CanonicalKeepsDigitsAndMinus | apps/agent-runtime/src/expert_agent/validation.py:232-243 | The digits and a minus sign survive, and no minus sign appears |
| NumericLiterals.CanonicalComparesNumbers | apps/agent-runtime/src/expert_agent/validation.py:16-21 | Two literals have one canonical form exactly when minus sign, whole digits and fraction digits agree, and the point too where three digits follow |
| TableVariants.RefinesIsTransitive | apps/agent-runtime/src/expert_agent/table_context.py:57-106 | Contiguous containment in strictly longer subjects is transitive |
| TableVariants.MinimalBelow | apps/agent-runtime/src/expert_agent/table_context.py:57-106 | Below every refined subject there is a minimal one that it refines |
| TableVariants.VariantGroups | apps/agent-runtime/src/expert_agent/table_context.py:91-105 | The greedy loop over the rows of a bucket by length yields exactly one group per base, holding the base and all its refinements in index order, and nothing else |
| TableVariants.ComparableRowsShareAGroup | apps/agent-runtime/src/expert_agent/table_context.py:91-105 | A row comparable to another of its bucket is in some group with it |
| TableBuckets.TableVariantGroups | apps/agent-runtime/src/expert_agent/table_context.py:57-106 | Over all buckets: every base of every bucket with exactly its refinements in that bucket, nothing else, by strictly ascending base |
| VariantGaps.QuestionSelectedVariantIndices | apps/agent-runtime/src/expert_agent/validation.py:150-169 | The loop selects exactly the quoted rows and the rows the question names by words no other row has |
| VariantGaps.TableVariantMissingParts | apps/agent-runtime/src/expert_agent/validation.py:95-135 | The messages are the first twelve of all gaps, and there are none exactly when no touched group has a gap |
| VariantGaps.MissingIffGap | apps/agent-runtime/src/expert_agent/validation.py:95-135 | Missing parts exist exactly when some touched group has a required row whose complete citations are not all cited |
| VariantGaps.LackingIsReal | apps/agent-runtime/src/expert_agent/validation.py:124-134 | A message names at least one citation, and only citations of that row that are really missing |
| VariantGaps.CompleteCitationsCloseGroup | apps/agent-runtime/src/expert_agent/validation.py:108-124 | Citing what a group requires leaves no gap in it |
| PublishedVariants.PublishedHasNoGap | apps/agent-runtime/src/expert_agent/graph.py:369-380 | Where the gaps of drafts are read off the rows and groups of their pack, a published answer leaves no gap in any variant group of its pack |
| PublishedVariants.PublishedCoversVariants | apps/agent-runtime/src/expert_agent/table_context.py:57-106 | If of two rows of a bucket one refines the other and a published answer uses a value of either, both are in one group of which the answer cites completely every row the question names, or every row if it names none |
| Rendering.RenderAnswer | apps/agent-runtime/src/expert_agent/rendering.py:14-57 | Renders exactly the confirmed drafts over the evidence pack's own, non-empty snapshot whose sources all have a known version; refuses an unknown version as unavailable; the result passes the stored answer's validators |
| Rendering.RenderClaims | apps/agent-runtime/src/expert_agent/rendering.py:31-52 | The citation order is the order of first use over all claims, and every claim shows in place the numbers of its evidence |
| Rendering.RenderedIsUnique | infra/postgres/revisions/011_agent_execution.sql:560-594 | What a draft is rendered to is determined: two answers that are both its rendering are equal |
| Rendering.PublicAnswer | infra/postgres/revisions/011_agent_execution.sql:560-594 | The database's own loop computes the rendering of the stored draft |
| Rendering.Publish | infra/postgres/revisions/022_model_output_refusal.sql:60-61 | The answer the agent rendered always equals the one the database recomputes |
| Rendering.RenderedIsValid | packages/contracts/src/expert_contracts/runs.py:64-85 | Whatever a schema-valid draft over an admissible pack renders to passes every validator: counts, unique identifiers, exactly the cited citations listed, length limits, non-blank texts |
| Rendering.ClientAcceptsDisplayable | apps/frontend/src/api/client.ts:266-318 | The browser shows a valid answer exactly when no list of pages or labels exceeds a hundred and no text is blank for it |
| Rendering.LongListsAreDropped | apps/frontend/src/api/client.ts:277-280 | Some draft is rendered to a valid answer that the browser drops |
| Citations.CitesAgree | infra/postgres/revisions/011_agent_execution.sql:574-580 | The database's citation of a unit, distinct pages and grouped labels sorted by page and by first ordinal, is the agent's, from a sorted set and a list of first uses |
| Citations.PagesInAnyOrder | infra/postgres/revisions/011_agent_execution.sql:574 | In whatever order the database yields the distinct pages, sorted they are the agent's pages |
| Citations.LabelsInAnyOrder | infra/postgres/revisions/011_agent_execution.sql:575-577 | In whatever order it yields the groups of labels, sorted by smallest ordinal they are the agent's labels |
| Citations.CiteIsValid | packages/contracts/src/expert_contracts/sources.py:48-63 | The citation of an admissible unit passes the citation validators |
| Citations.LabelIsInjective | apps/agent-runtime/src/expert_agent/rendering.py:42 | Citation numbers print differently |
| Citations.LabelsAgree | infra/postgres/revisions/011_agent_execution.sql:572 | Python's and the database's padding print a number below a thousand alike |
| Ordered.FirstUsesAreTheUsed | apps/agent-runtime/src/expert_agent/rendering.py:31-50 | The citation order holds every used identifier once and no other |
| Ordered.FirstUsesKeepOrder | apps/agent-runtime/src/expert_agent/rendering.py:31-50 | Of two numbered identifiers the one numbered first was used before the other |
| EventReplay.ReadBatch | apps/backend/src/expert_api/run_events.py:108-137 | A read returns exactly the next events up to the batch size or the end of the log, or reports that the history has gaps or the cursor is ahead |
| EventReplay.ReducerKeepsOrder | apps/frontend/src/api/run-events.ts:95-104 | Whatever arrives, the client's list stays strictly ascending; repeats change nothing; a new event is appended |
| EventReplay.ClientSliceIsContiguous | apps/backend/src/expert_api/run_events.py:170-204 | Over any appends, trimming, losses and reconnects the client holds exactly the events after its start up to the last one received, and the wire continues that slice |
| EventReplay.TerminalCloseIsComplete | apps/backend/src/expert_api/job_events.py:175-202 | A terminal close means the log has ended and everything up to its last event is with the client or on the wire |
| EventReplay.EventArrivesExactly | apps/backend/src/expert_api/job_events.py:111-143 | At any point of any run an event of the log can still reach the client, by some continuation, exactly if no event up to it that nobody has read yet was trimmed; over a trimmed event no continuation passes |
| Batching.Batches | apps/ingestion-worker/src/expert_ingest/indexing.py:65-86 | The yielded batches are a greedy split of the drafts, of all of them exactly when each fits some batch |
| Batching.GreedyIsOptimal | apps/ingestion-worker/src/expert_ingest/indexing.py:65-86 | No order-preserving split of the same drafts under the same limits has fewer batches |
| Batching.GreedyRepeats | apps/ingestion-worker/src/expert_ingest/indexing.py:176-181 | Two runs over the same drafts yield the same batches, so a resumed run recognises what is committed |
| Batching.IndexStore.Write | apps/ingestion-worker/src/expert_ingest/indexing.py:180-209 | Only batches that are not committed are embedded and only embedded ones become committed; written, all are committed and every item counted; it stops for a batch only if that brings a row the database already has |
| Batching.IndexStore.Prepare | apps/ingestion-worker/src/expert_ingest/indexing.py:133-224 | Interrupted anywhere and resumed under any limits, no committed batch is embedded again; over drafts with identifiers of their own and given time it finishes exactly when each draft fits some batch and every batch committed before is one these limits yield, and then holds exactly the greedy batches of both projections |
| Batching.TighterLimitsStrand | infra/postgres/revisions/010_index_persistence.sql:341-355 | An index that committed a pair under wider limits, prepared again under limits of one item that fit every draft, ends invalid and failed |
| Paging.ScanIsStrictlyOrdered | apps/backend/src/expert_api/library.py:150-157 | Following cursors lists rows in strict order, so none twice, whatever appears or disappears in between |
| Paging.ScanIsComplete | apps/backend/src/expert_api/runs.py:181-204 | A scan followed to its end delivers every row that was visible to all its requests |
| Paging.DeliveredWasVisible | apps/backend/src/expert_api/runs.py:181-204 | A delivered row was visible to the request that delivered it |
| Paging.UnchangedRowsAreListed | apps/backend/src/expert_api/document_tree.py:181-205 | Over unchanged rows the pages list exactly the rows, in order |
| Paging.LimitsDoNotMatter | apps/backend/src/expert_api/document_tree.py:190-202 | Two scans of the same rows deliver the same list whatever their page sizes |
| Paging.BackRetracesForward | apps/frontend/src/workspace.ts:239-252 | After any pages forward, any number of steps back show the pages seen before |
| TableWindows.ProjectTable | apps/backend/src/expert_api/document_tree.py:80-128 | The page is exactly the window asked for, or a refusal in a fixed order of reasons, a size refusal exactly when the window, its contexts or the source spans of a cell are too many or too large |
| TableWindows.DistinctItems | apps/backend/src/expert_api/document_tree.py:67-77 | The loop yields the distinct items in first-use order, or nothing exactly when there are too many |
| TableWindows.PagesTileTheTable | apps/backend/src/expert_api/document_tree.py:88-128 | Whatever the limits, the pages show every row once, in order, each as on any other page |
| TableWindows.PageHasCoveringCells | apps/backend/src/expert_api/document_tree.py:92-100 | A page carries exactly the cells that cover one of its rows |
| TableWindows.RowCellsAreOnThePage | apps/backend/src/expert_api/document_tree.py:80-112 | Every cell identifier a row lists belongs to a cell on that same page |
| TableWindows.CellIsOnItsPages | apps/backend/src/expert_api/document_tree.py:91-100 | Over a whole reading a cell is on exactly the pages whose rows it meets, its anchor row's page among them |
| TableWindows.CellSourcesAreItsOwn | apps/backend/src/expert_api/document_tree.py:95-98 | On every page that carries it a cell shows the same source spans: its own, each once, in order of first use |
| Cursors.DecodeInvertsEncode | apps/backend/src/expert_api/document_tree.py:32-41 | Strict base64 decoding inverts encoding for every byte sequence |
| Cursors.RestoreInvertsStrip | apps/backend/src/expert_api/document_tree.py:32-41 | Padding that was stripped is restored from the length alone |
| Cursors.CursorRoundTrip | apps/backend/src/expert_api/document_tree.py:32-55 | A cursor is read back exactly when presented under its own scope, with an ordinal in range and an identity just when one is expected; then it yields what went in |
| SourceViewer.ByteRange | apps/backend/src/expert_api/source_viewer.py:72-88 | A header is accepted exactly when it is well formed and selects at least one byte in the sense of RFC 9110 section 14.1.2; the answer is exactly the bytes it selects |
| SourceViewer.MatchHeader | apps/backend/src/expert_api/source_viewer.py:76-78 | The pattern matches exactly the single-range headers, and yields their two numbers |
| SourceViewer.HeaderIsUnambiguous | apps/backend/src/expert_api/source_viewer.py:76-80 | A header reads in one way only |
| SourceViewer.Download | apps/backend/src/expert_api/source_viewer.py:226-263 | An accepted copy is a beginning of the stored object with the recorded size, digest and PDF prefix, described as recorded; a genuine, well described object that is read out is accepted whole; the deadline alone gives a deadline error |
| SourceViewer.Stream | apps/backend/src/expert_api/source_viewer.py:151-161 | Whatever happens, the bytes sent are a beginning of the range; finished, they are the range and as many as announced; with every check passed and every read returning bytes it finishes |
| SourceViewer.SourceViewerService.Original | apps/backend/src/expert_api/source_viewer.py:266-294 | The slot is taken exactly when a response is handed over, which carries a genuine copy and the range asked for; a failing first reference read is reported as such, a bad range exactly when that read succeeded; a good range and a readable, unchanged object give a response |
| SourceViewer.SourceViewerService.Close | apps/backend/src/expert_api/source_viewer.py:165-171 | The slot is given back once, however often a response is closed |
| CleanupSafety.RunKeepsInv | apps/backend/src/expert_api/purge_cleanup.py:118-222 | Every step keeps workers, rows, plans, storage and log consistent: a worker's claim is the row's claim for as long as its lease runs and its plan is not accepted again, and local deadlines end no later than leases |
| CleanupResults.DeletesStayInLease | apps/backend/src/expert_api/purge_cleanup.py:190-212 | Every DELETE is sent inside the lease of its claim, after a HEAD that found the object and, for a purge, after an authorization at which the database held the object for exactly that claim |
| CleanupResults.DeletesHoldOrWereCleared | infra/postgres/revisions/018_document_purge.sql:372-376 | When a DELETE is sent the database still holds the object for that claim, unless the plan was accepted again since the authorization |
| CleanupResults.ClaimsNeverInterleave | apps/backend/src/expert_api/debug_cleanup.py:93-168 | Of two claims that were not cleared, all DELETEs under the earlier one are sent before the later one begins, which needs the earlier one given up or its lease ended |
| CleanupResults.DeletersHoldAfterStep | infra/postgres/revisions/018_document_purge.sql:372-376 | A step breaks the rule that whoever may send a DELETE holds the object exactly if it accepts a plan again beside such a worker |
| CleanupResults.DeletersHoldExactly | infra/postgres/revisions/018_document_purge.sql:372-376 | Over a whole run that rule holds at every moment exactly if no plan is accepted again beside such a worker |
| CleanupResults.QuietAcceptsAreEnough | infra/postgres/revisions/018_document_purge.sql:372-376 | In every run whose acceptances find no running lease on what remains of their plan, whoever may send a DELETE holds the object at every moment |
| CleanupResults.OneDeleterPerObject | apps/backend/src/expert_api/upload_cleanup.py:186-188 | In every run without such an acceptance at most one worker may send a DELETE for an object at any time |
| CleanupResults.MarkFollowsAbsence | apps/backend/src/expert_api/upload_cleanup.py:251-266 | An object is marked only inside a lease, after a HEAD of the same claim saw it absent, and is stored again only if a later upload landed |
| CleanupResults.PurgeAttemptsAreBounded | infra/postgres/revisions/018_document_purge.sql:388-413 | An object still to be purged is claimed at most eight times after each acceptance of its plan, however its workers crash |
| CleanupResults.DelaysBackOff | apps/backend/src/expert_api/purge_cleanup.py:214-217 | Retry delays stay in the range the database accepts, never shrink and at most double |
| CleanupWitness.PurgeCanSucceed | apps/backend/src/expert_api/purge_cleanup.py:190-212 | Some run of the protocol deletes an object, marks it and completes its plan |
| CleanupWitness.TwoDeletersAreReachable | infra/postgres/revisions/018_document_purge.sql:372-376 | In some run two workers may send a DELETE for one object at once |

## Left out

- HTTP, authentication, settings, tracing, S3, Redis, psycopg and LangGraph internals: each call is a step that may fail, be lost or be late.
- Model outputs, embeddings, retrieval ranking and prompt text: arbitrary values; digests, `uuid5` and JSON texts are identified with their arguments.
- Word splitting, Unicode normalisation, quotation marks and the rendered form of evidence: functions given from outside. Digits are the ten ASCII digits.
- Wall-clock liveness and fairness: safety and step bounds only; all clocks of the timed protocol run at one rate.
- `recover_once` and the reconciler loop: callers of `start` like any other; `last_error_code` and `ready` only report.
- Supervision of the run manager: the driver's `close` and `putconn` either do their work or raise without having done it, and a row's own state is part of the run protocol, not of the tasks.
- Header scopes and the completeness of row citations in table_context.py: complete citation lists are inputs of the gap module.
- React components and the field-by-field parsers of the browser, except what the answer parser demands of texts, counts and citations.
- The browser's own jump of its cursor after it has read a whole run: it counts as a new subscription from there.
- AnswerGraphResults.PublicationIsSound: the repeated revocation and source checks of the finalizing SQL are not modelled, since they only refuse more.
- RunStoreSafety.ModelFailureIsAccepted: comparisons of execution epochs between artifacts and budgets are not modelled; they follow from the order in which fenced writes commit.
- AnswerGraphResults.RepliesAreSaved: at the cap of one hundred artifacts the database refuses any further one.
- CleanupResults.DeletesStayInLease: speaks of when a DELETE is sent; the check of the deadline and the sending are one step, and a DELETE already sent may still take effect after the lease.
- CleanupResults.PurgeAttemptsAreBounded: audits of completed purges start new rounds of attempts and are not bounded.
- Cursors.CursorRoundTrip: JSON reading and writing are functions of which only the round trip of the cursor at hand is used.
- TableWindows.ProjectTable: encoded sizes are given functions; of a cell only position, row span and source spans are modelled, not its text.
- Batching.IndexStore.Prepare: a reply of the embedding service that fails its checks fails the generation like a refused batch and is no step of its own.
- Rendering.RenderAnswer: the closing sentence is a given text.
- Event cursors are numbers: reading them from headers and queries, and the browser's progress line, are one-branch checks.
- Parsing of documents, uploads, publication and the library's counts: other parts of the system with protocols of their own.
