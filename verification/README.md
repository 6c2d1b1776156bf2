# MarketBot decision engines, modelled and proved in Dafny

This project models the deterministic cores of MarketBot and proves what they keep over every input, run or
reachable state. It leaves the asynchronous shell, the transports and the rendering aside.

- **Paper positions** (`Market`, `Position`, `RecoveryExit`, `Analyses`, `Opportunity`, `Marking`, `Protection`,
  `Envelope`, `Exits`, `Lifecycle`, `References`, `Results`, `Runs`, `Phases`, `Interference`, `Validity`,
  `ValidityWitnesses`, `Engine`, `Reconciliation`): one record per ticker with horizon legs and maturity checkpoints,
  driven by one-minute bars, analyses, watcher transitions, core signals, reference bars and reconciliation, through the
  overrides of versions 1 to 22 for long positions. The records are immutable values, as in the source; the store and
  the engine that rewrites it are classes, and the loops over lists and dictionaries are methods proved equal to the
  functions the theorems speak of.
- **SwingTrade consolidation** (`StructuralId`, `GroupMerge`, `SwingTradeConsolidation`, `ConsolidatedRecords`): the three
  merge loops against one declarative group merge.
- **Entry Watcher** (`EntryWatcher`, `EntryWatchRuns`, `EntryWatchTriggers`, `EntryWatchRestart`, `EntryWatchEngine`):
  versions 1, 2, 4, 5 and 5.1 as one state machine over a compare-and-set store.
- **Strategy graphs** (`StrategyGraph`): the three-colour search and the compiled-order check.
- **Audit log** (`AuditLog`, `AuditStore`): bytes, torn tails, index and acknowledgements.
- **Elliott waves** (`ElliottWave`, `ElliottWaveWitnesses`), **dilution risk** (`DilutionRisk`, in `Dilution.dfy`) and **alert cooldown**
  (`AlertCooldown`).

Prices are exact reals and are rounded only where the source quantises. Instants are integers that count microseconds.
Percentages of positions are integers that count ten-thousandths of a percent. Identifiers made by a factory are
parameters. Whether a bar ends the regular session is a flag of the bar.

## What turned out not to hold

Each of these is stated with the exact condition under which the property does hold, and with an input that fails.

- A recovery state survives its own validator over a later bar exactly when nothing is pending (`ObserveKeepsValidator`).
  A bar inside the minute after a confirmation therefore breaks the checkpoint, unless it ends the position
  (`ValidatorBeforeExitIsDue`, `OffMinuteBarBreaksCheckpoint`). On whole-minute bars this never happens (`RunSound`).
- Capturing the evidence of a signal breaks the validators of a checkpoint that shares the signal's setup and instant
  but is below L1, and of nothing else (`CaptureKeepsValidators`, `CaptureBreaksValidator`).
  `SignalKeepsValidatorsExactly` says the same of record and signal before the call.
- An ARMED core entry signal on a countertrend record under observation leaves it without a checkpoint and with a core
  reference, which its validator refuses; every other core signal keeps it valid (`ArmedSignalBreaksObservation`,
  `ArmedSignalBreaksValidator`).
- The stores look symbols up in upper case but keep them as they came. No run of the watcher gives a symbol two active
  watches exactly when the symbol is in upper case (`OneActiveExactlyWhenNormalised`). Reconciling the opportunity store
  raises exactly when some record would change before it was armed, or an active record of another spelling meets an
  active one under the normalised symbol that outlives its own reconciliation (`ReconcilesExactly`,
  `TwoSpellingsRaise`).
- An analysis is refused exactly when it has something to publish and the clock is before the record was armed
  (`AnalysisRefusedExactly`).
- SwingTrade consolidation is idempotent exactly when no participating id ends in two versions
  (`ThesesIdempotentExactly`, `OnePassExactly`, `BarePrefixTakesTwoPasses`).
- Restarts are invisible as long as no ingestion raises. After one that does, watcher and checkpoint agree exactly when
  there is no active watch, or the refused result had nothing to teach: it is no mature Intraday result, or it is the
  candidate, too early after it, or already reconfirmed, and it is either stamped later than the clock or already the
  newest of its horizon (`AfterAnException`, `RefusedResultIsRemembered`, `RejectedResultIsRemembered`).
- A second audit log over the same root, opened before an append, accepts the event again. The next opening then fails
  exactly when the two appends differ in run or stream; otherwise the file holds the event twice (`TwoLogsMayCorrupt`).
  A single log never reaches either state (`RunRefines`). The writer claims of the source are per path, so that in one
  process they stop the second case only.
- An alert cooldown under one second is accepted by the policy, but makes every attempt fail on a division by zero
  (`FailsExactly`). Two spellings of one state key share their deduplication keys (`KeyCheckMattersExactly`).
- An Elliott assessment is refused by its own contract exactly when the low at the chosen origin is under 0.00005, which
  rounds to zero (`PublishedIsValid`, `TinyWaveIsRefused`). A search divides by zero exactly on an impulse of size zero
  under an average true range of zero (`Wave2DividesExactly`, `Wave4DividesExactly`, `StepsFail`).

## Model

| member | source | states |
|---|---|---|
| Market.PercentSign | app/entry_opportunity_engine/engine.py:3444-3448 | A gain in percent, rounded half up, never has the wrong sign for the side of the entry the price is on. |
| RecoveryExit.PendingExactlyOnConfirmedFailure | app/entry_opportunity_engine/v20.py:191-221 | For every increasing minute-aligned history with nothing pending before its last bar, the incremental state turns pending at that bar exactly when the history ends in two adjacent complete quarter hours, both closing below both levels and the second strictly lower. |
| RecoveryExit.NeverPendingIffNeverConfirmed | app/entry_opportunity_engine/v20.py:191-221 | Over a whole history, nothing is ever pending exactly when no prefix of it is such a confirmed failure. |
| RecoveryExit.ObserveKeepsValidator | app/contracts/entry_opportunity.py:52-71 | A later bar keeps the recovery validator if and only if nothing is pending. |
| RecoveryExit.UnalignedBarBreaksValidator | app/contracts/entry_opportunity.py:63-70 | Any bar inside the minute after a confirmation leaves a state the validator refuses. |
| Marking.PendingAlwaysCloses | app/entry_opportunity_engine/v20.py:63-83 | A recovery exit that has fallen due always closes the checkpoint, at the bar's open, whatever layer gives the reason. |
| Marking.LockstepBar | app/entry_opportunity_engine/v19.py:38-126 | One bar through versions 18 to 22, pending recovery exits included, keeps a leg and the one protectable checkpoint it shares its entry with in step. |
| Marking.Lockstep | app/entry_opportunity_engine/v20.py:89-110 | Over any run of bars the pair stays open with equal extremes and protection or closes on the same bar with one price, outcome and result. |
| ProtectionHistory.ProtectionIsRatchet | app/entry_opportunity_engine/v19.py:156-174 | While a protectable entry is open its stop is absent until a close has gained the initial risk, and is then the highest such close less the risk, at or above the entry and below the target. |
| ProtectionHistory.ProtectionNeverFalls | app/entry_opportunity_engine/v19.py:156-174 | A longer history of the same open entry never lowers or removes the protection stop. |
| ProtectionHistory.ProtectedExits | app/entry_opportunity_engine/v19.py:38-77 | With protection in place a bar can end the entry only by protection, target or a confirmed recovery failure, each at its gap-aware price, and at a loss only when the bar opens below the stop. |
| ProtectionHistory.RecoveryExitMeaning | app/entry_opportunity_engine/v20.py:54-87 | A recovery buy still open when its history ends in a confirmed failure closes on the next bar at the open, and it fails as a recovery on no other history. |
| Envelope.MarkCheckpointSound | app/contracts/entry_opportunity.py:113-165 | Marking keeps the checkpoint validator, the recovery validator and the profit-and-loss envelope although copies never run them. |
| Envelope.ValidatorBeforeExitIsDue | app/contracts/entry_opportunity.py:52-71 | Between a confirmation and the minute it falls due, marking keeps the validator exactly when that candle ends the position. |
| Envelope.OffMinuteBarBreaksCheckpoint | app/contracts/entry_opportunity.py:63-70 | A concrete sound checkpoint and a quiet candle half a minute after the confirmation, after which the checkpoint is refused. |
| Envelope.MarkRecordSound | app/entry_opportunity_engine/engine.py:3311-3382 | One bar keeps every validator of the record's legs and checkpoints, and lowest <= entry <= highest, mae <= 0 <= mfe and mae <= result <= mfe through half-up rounding. |
| Exits.CoreExitsSpareTheRest | app/entry_opportunity_engine/v18.py:73-121 | Whatever family the evidence does not address, or opened after it, is still in the record unchanged. |
| Exits.CoreExitOrigin | app/entry_opportunity_engine/engine.py:2231-2283 | Every leg that survives is a leg of the record as it was, or that leg closed once at the evidence's price, time and status. |
| Exits.FollowedExitIsSpoken | app/entry_opportunity_engine/v18.py:73-134 | Evidence reaches a leg through its checkpoint only if it addresses the entry they share. |
| Results.AdvanceEvolves | app/entry_opportunity_engine/engine.py:809-1001 | Maturity evidence opens legs and appends a checkpoint; it keeps ids apart, one unscoped leg per family and horizon, peak maturity non-decreasing and every realised result. |
| Results.BarStepEvolves | app/entry_opportunity_engine/engine.py:561-653 | A bar with its thesis stop, session close and last-horizon closure evolves every leg and checkpoint forward only. |
| Results.AnalyticalExitsEvolve | app/entry_opportunity_engine/v16.py:61-172 | Family-scoped analytical exits only evolve the record. |
| Results.ReconcileEvolves | app/entry_opportunity_engine/engine.py:1896-1990 | Reconciliation only evolves the record: expired legs close or, if watching, go; nothing realised changes. |
| Runs.RunEvolves | app/entry_opportunity_engine/engine.py:56-65 | Over every run of bars, analyses, transitions, signals, reference bars and reconciliations a record only evolves: an entered leg stays, with its terms, a terminal one with its result, every leg has an origin or a new id, ids stay apart, checkpoints only gain, peak maturity never falls and bounds the current one. |
| Phases.StepPhases | app/entry_opportunity_engine/engine.py:3411-3432 | One event either enters legs or closes them: none goes from watching to terminal in one step, and none is born terminal. |
| Phases.TerminalWasEntered | app/entry_opportunity_engine/engine.py:3411-3419 | Every leg that is terminal after an event was open or terminal before it. |
| Phases.TerminalWasOpen | app/entry_opportunity_engine/engine.py:3411-3432 | Over every run a leg goes from watching to open to terminal: one that is terminal at the end was terminal at the start, or open after some prefix. |
| Runs.ResultsAreFrozen | app/entry_opportunity_engine/engine.py:3385-3432 | Over every such run a terminal leg is never dropped, and the one leg of its id keeps status, price, time, gain and marks; a closed checkpoint keeps its exit and outcome. |
| Runs.NothingIsReopened | app/entry_opportunity_engine/engine.py:959-1063 | No leg of a later state that existed before is in an earlier phase than it was. |
| Runs.AnalysisGate | app/entry_opportunity_engine/engine.py:306-393 | An analysis lifts a record waiting at its zoned L2 entry to L4 only as an Intraday result later than a retest already on record, itself later than the entry, with stop and target bracketing the price; the one new checkpoint is an L4 core entry at that price, stop and target. |
| Runs.RetestIsNoReclaim | app/entry_opportunity_engine/engine.py:3094-3202 | The result that records the retest cannot be the one that confirms it. |
| Runs.StepGate | app/entry_opportunity_engine/engine.py:1116-1123 | No other event passes that gate, and every event keeps what it relies on. |
| Runs.RunGate | app/entry_opportunity_engine/v17.py:50-69 | Over every run, a record that waits at its L2 entry and ends at L4 passed through one event that reclaimed a strictly earlier retest and entered at the stop and target it published. |
| Interference.AnalysisSparesForeignLegs | app/entry_opportunity_engine/v16.py:61-172 | No analysis changes a leg owned by a family outside the core. |
| Interference.AnalysisSparesForeignCheckpoints | app/entry_opportunity_engine/v16.py:61-172 | No analysis changes a checkpoint owned by a family outside the core. |
| Interference.AnalysisSparesLeg | app/entry_opportunity_engine/v16.py:43-59 | An analysis closes nothing without a price observed within five minutes, and nothing opened after its evidence. |
| Interference.AnalysisSparesLater | app/entry_opportunity_engine/v16.py:35-59 | The same of the whole ingestion: an entered leg beyond the evidence is still there as it was, but for the family label that a lift puts on its own legs. |
| Interference.TerminalTransitionSpares | app/entry_opportunity_engine/v16.py:174-192 | An invalidated or expired watch touches core entries of its own record only, and nothing opened after it. |
| Interference.BarNeverSweepsCheckpoint | app/entry_opportunity_engine/v19.py:23-36 | A bar that closes the whole record changes an open L1 to L4 core buy, or any checkpoint outside CORE_ENTRY, only through that checkpoint's own marking. |
| Interference.BarNeverSweepsLeg | app/entry_opportunity_engine/v16.py:194-207 | A bar-driven closure never sweeps a leg outside CORE_ENTRY; only its own marking and the session close end it. |
| Interference.DeferredExitsSpare | app/entry_opportunity_engine/v16.py:209-232 | The analytical exits deferred to a bar leave the legs of other families alone. |
| Interference.DeferredExitsSpareCheckpoint | app/entry_opportunity_engine/v16.py:209-232 | And their checkpoints. |
| Validity.CaptureKeepsValidators | app/entry_opportunity_engine/v20.py:32-52 | Capturing entry evidence keeps the validators if and only if it freezes no recovery or every checkpoint it captures is a confirmed buy. |
| Validity.SignalKeepsValidatorsExactly | app/entry_opportunity_engine/engine.py:1086-1190 | A signal that the contracts accept keeps the validators if and only if the record passes it over, or it freezes no recovery on an unconfirmed checkpoint of its setup and instant and, on an observation, brings the first checkpoint. |
| Validity.StepSound | app/contracts/entry_opportunity.py:317-375 | Every regular event keeps the whole validator of the record (levels of SwingTrade and other records, closure, checkpoint keys, at most 32 references apart by signal and by setup, the observation without checkpoints) and the validators and envelopes of checkpoints and legs. |
| Validity.RunSound | app/contracts/entry_opportunity.py:194-225 | So does every regular run. |
| Validity.RunFromTransitionSound | app/entry_opportunity_engine/engine.py:128-182 | In particular every regular run from a record that a watcher transition opened. |
| Validity.RunFromSignalSound | app/entry_opportunity_engine/engine.py:1095-1116 | And every regular run from a record that a core signal opened. |
| Validity.ArmedSignalBreaksObservation | app/contracts/entry_opportunity.py:319-337 | A core signal that a countertrend observation accepts keeps its validators if and only if it is a recovery or not ARMED. |
| ValidityWitnesses.CaptureBreaksValidator | app/entry_opportunity_engine/v20.py:32-52 | Two concrete recovery signals of one setup and instant, ARMED and L1, of which the second leaves an unsound record. |
| ValidityWitnesses.ArmedSignalBreaksValidator | app/entry_opportunity_engine/engine.py:1118-1169 | A concrete observation and an ARMED core signal that leaves it unsound. |
| References.ReplaceKeepsReferenced | app/entry_opportunity_engine/engine.py:2857-2869 | Replacing the reference of a setup keeps signals apart, setups apart and the cap of 32, whichever reference falls off. |
| References.SignalIsProvenanced | app/entry_opportunity_engine/engine.py:1089-1118 | A signal whose event has not been seen is new to every reference, so the replacement keeps the clauses and the provenance. |
| Engine.MarkLegsForBar | app/entry_opportunity_engine/v20.py:89-110 | The loop that assigns `legs[index]` computes the marking the lockstep theorem is about. |
| Engine.CloseSpokenInLoop | app/entry_opportunity_engine/engine.py:2231-2283 | The appending loop computes the specified closures and drops. |
| Engine.OpenHorizonsInLoop | app/entry_opportunity_engine/engine.py:959-1001 | The dictionary loop opens the specified legs. |
| Engine.OpportunityStore.LoadActive | app/entry_opportunity_engine/memory.py:15-22 | Returns the one active record of the normalised symbol, or nothing exactly when there is none. |
| Engine.OpportunityStore.Save | app/entry_opportunity_engine/memory.py:44-54 | Refuses a second active record for a symbol and records an event id once. |
| Engine.OpportunityEngine.IngestBar | app/entry_opportunity_engine/v16.py:209-232 | Rewrites exactly the active record of the bar's symbol as the bar and the deferred exits prescribe, and keeps one active record per symbol. |
| Engine.OpportunityEngine.StepBar | app/entry_opportunity_engine/engine.py:561-653 | The leg-by-leg lifecycle of one candle equals the step the theorems are about. |
| Engine.OpportunityEngine.IngestAnalysis | app/entry_opportunity_engine/engine.py:306-393 | Ignores an analysis whose event has been seen, rewrites exactly the active record otherwise, changes nothing when the event may not be published, and records the event exactly when the analysis lifted the record, closed something or gave first notice of an exit. |
| Lifecycle.AnalysisRefusedExactly | app/contracts/entry_opportunity.py:387-392 | An analysis is refused if and only if it has an event to publish and the clock is before the record was armed. |
| Engine.OpportunityEngine.IngestTransition | app/entry_opportunity_engine/engine.py:120-304 | Ignores seen events, opens a record for a new symbol, applies the rest, and changes nothing when the contracts refuse the checkpoint or an event dated before the record. |
| Engine.OpportunityEngine.IngestSignal | app/entry_opportunity_engine/engine.py:1086-1190 | The same for core signals; every stored record keeps references that are apart, at most 32, and from seen signals. |
| Engine.OpportunityEngine.IngestReferenceBar | app/entry_opportunity_engine/engine.py:655-689 | Refreshes the marks of what is open and nothing else. |
| Engine.OpportunityEngine.ReconcileAll | app/entry_opportunity_engine/engine.py:1896-1990 | One pass over the listed active records, published and saved one by one until one of the two is refused. |
| Reconciliation.ReconcilesExactly | app/entry_opportunity_engine/engine.py:1896-1990 | The pass raises if and only if some active record would change before it was armed, or one of another spelling has an active twin under the normalised symbol that outlives its own reconciliation; otherwise every active record is reconciled on its own and every other one is as it was. |
| Reconciliation.NormalisedStoreNeverRaises | app/entry_opportunity_engine/memory.py:44-54 | It never raises over a store whose active symbols are in upper case and armed by now. |
| Reconciliation.OtherSpellingIsRemoved | app/entry_opportunity_engine/engine.py:1899-1915 | A record of another spelling is closed as removed whatever the universe holds. |
| Reconciliation.TwoSpellingsRaise | app/entry_opportunity_engine/memory.py:44-54 | One unexpired record under two spellings of its symbol makes the pass raise. |
| Engine.KeepUnexpiredInLoop | app/entry_opportunity_engine/engine.py:1917-1943 | The expiry loop over the legs computes the specified closures and drops. |
| StructuralId.SuffixComesOff | app/entry_opportunity_engine/engine.py:2384-2391 | Canonicalising a SwingTrade id with a semantic version after its last colon takes exactly that suffix off. |
| StructuralId.OnePassExactly | app/entry_opportunity_engine/engine.py:2384-2391 | A second pass over an id changes nothing if and only if the id does not end in two versions after a text that makes it a SwingTrade id up to the first of them. |
| StructuralId.BarePrefixTakesTwoPasses | app/entry_opportunity_engine/engine.py:2384-2391 | The bare prefix followed by two versions is such an id, although the prefix without its colon is no SwingTrade id. |
| GroupMerge.Consolidate | app/entry_opportunity_engine/engine.py:2422-2502 | The loop over a values list and a positions dictionary equals the declarative merge: every group folded where it first appears, everything else in place and in order. |
| GroupMerge.OneSurvivorPerGroup | app/entry_opportunity_engine/engine.py:2437-2443 | Two values of the result never belong to one group. |
| GroupMerge.GroupSurvives | app/entry_opportunity_engine/engine.py:2437-2443 | Every group of the input has a value in the result. |
| GroupMerge.IdempotentExactly | app/entry_opportunity_engine/engine.py:2403-2419 | A second pass over a list changes nothing if and only if no participating id ends in two versions. |
| SwingTradeConsolidation.MergedReference | app/entry_opportunity_engine/engine.py:2422-2447 | The reference of a group has the latest time and the highest peak stage of its members. |
| SwingTradeConsolidation.MergedCheckpoint | app/entry_opportunity_engine/engine.py:2450-2480 | The checkpoint of a group has the earliest time and the extremes and excursions of its members. |
| SwingTradeConsolidation.MergedLeg | app/entry_opportunity_engine/engine.py:2483-2518 | The leg of a group is one of its members, open whenever the group has an open one, and the earliest of the best rank when it is dated. |
| SwingTradeConsolidation.ConsolidationKeepsEnvelope | app/contracts/entry_opportunity.py:113-165 | Merged checkpoints still satisfy their validator and envelope. |
| ConsolidatedRecords.ConsolidationKeepsSound | app/contracts/entry_opportunity.py:317-375 | Consolidating a sound record leaves a sound record: references apart and capped, checkpoints keyed apart, levels, observation, and the validators and envelopes of checkpoints and legs. |
| SwingTradeConsolidation.ThesesIdempotentExactly | app/entry_opportunity_engine/engine.py:2403-2419 | Consolidating a record twice is consolidating it once, exactly under that condition on its references, checkpoints and legs. |
| EntryWatchRuns.StepSound | app/entry_watcher/engine.py:120-248 | One result or restart, in every version, keeps the store sound and is never refused by it. |
| EntryWatchRuns.RunSound | app/entry_watcher/memory.py:22-59 | Over every run with non-decreasing time: at most one active watch per normalised symbol, one chain of statuses per watch, fixed thesis levels, valid watches, closed watches frozen. |
| EntryWatchRuns.StoreNeverRefuses | app/entry_watcher/memory.py:36-59 | The stale and duplicate errors of the store are unreachable in every run. |
| EntryWatchRuns.ClosedIsLast | app/entry_watcher/engine.py:344-385 | In a chained journal a terminal transition is the last of its watch. |
| EntryWatchTriggers.TriggersAreReconfirmed | app/entry_watcher/v4.py:50-144 | Whenever versions 4 to 5.1 trigger, restarts included, the run holds two different mature Intraday results of the symbol at least the delay apart and the later one is the evidence. |
| EntryWatchTriggers.TriggerBounds | app/entry_watcher/engine.py:165-203 | A trigger is fresh, unexpired, above the invalidation, and above the zone keeps the minimum reward for its risk up to half a hundredth. |
| EntryWatchTriggers.ChaseIsCapped | app/entry_watcher/engine.py:450-483 | After a touch a chase stays within the grace period, the percentage cap, and the cap in average true ranges or, with none known, the tighter fallback, up to the rounding. |
| EntryWatchTriggers.NoRetestChaseIsCapped | app/entry_watcher/v5.py:46-88 | Without a touch only versions 5 and 5.1 chase, above the zone and within both caps of the live Intraday trigger. |
| EntryWatchTriggers.OneActiveExactlyWhenNormalised | app/entry_watcher/memory.py:22-40 | No run gives a symbol two active watches if and only if the symbol is in upper case. |
| EntryWatchRestart.CheckpointRoundTrip | app/entry_watcher/v51.py:89-155 | Restoring a persisted decision state into an empty memory gives the memory back, and into the memory it came from changes nothing. |
| EntryWatchRestart.SameNextDecision | app/entry_watcher/v51.py:64-87 | A restarted watcher with an active watch takes the same next decision and reaches the same state as one that never stopped. |
| EntryWatchRestart.MirrorKept | app/entry_watcher/v51.py:126-155 | Every ingestion that does not raise leaves checkpoint and memory in agreement. |
| EntryWatchRestart.RestartsAreInvisible | app/entry_watcher/v51.py:64-155 | Over every one-symbol run, any number of restarts under an active watch leaves the watches and the journal as they would have been without them. |
| EntryWatchRestart.RestartsFromStartAreInvisible | app/entry_watcher/v51.py:64-155 | In particular for runs from an empty store. |
| EntryWatchRestart.AfterAnException | app/entry_watcher/v51.py:64-87 | After any ingestion that raises, watcher and checkpoint agree if and only if there is no active watch, or the result had nothing to teach the candidate memory and was stamped later than the clock or already known. |
| EntryWatchRestart.RefusedResultIsRemembered | app/entry_watcher/engine.py:120-121 | A mature result stamped later than the clock is remembered by the running watcher and forgotten by a restarted one. |
| EntryWatchRestart.RejectedResultIsRemembered | app/contracts/entry_watch.py:55-56 | So is a result whose expiry message is rejected because it names one source twice. |
| EntryWatchEngine.Watcher.Process | app/entry_watcher/engine.py:120-248 | The method over dictionaries and store is one step of the specified decision. |
| EntryWatchEngine.Watcher.IngestCheckpointing | app/entry_watcher/v51.py:64-87 | The same for version 5.1 with restore, observation and persistence in place. |
| EntryWatchEngine.Watcher.RestoreDecisionState | app/entry_watcher/v51.py:89-124 | The restore loop merges the stored results one by one into the memory. |
| EntryWatchEngine.WatchStore.Transit | app/entry_watcher/memory.py:42-51 | Compare and set: written exactly when the watch exists with the expected status. |
| StrategyGraph.OrderExcludesCycles | app/contracts/strategy.py:165-177 | A graph with an execution order has no cycle. |
| StrategyGraph.CycleSearch.Visit | app/contracts/strategy.py:107-118 | The recursive search terminates, refuses only on a real cycle, and otherwise finishes its step after everything it depends on. |
| StrategyGraph.ValidateStrategy | app/contracts/strategy.py:92-131 | Accepts exactly the strategies with unique known steps, rules and no cycle, names the reason otherwise, and yields an execution order of every accepted graph. |
| StrategyGraph.ValidateOrder | app/contracts/strategy.py:165-177 | Accepts an order exactly when it is an execution order of the pipeline. |
| StrategyGraph.ExecutionOrdersAreComplete | app/contracts/strategy.py:165-177 | Any execution order passes the completeness test of the compiled strategy. |
| StrategyGraph.ValidateCompilation | app/contracts/strategy.py:160-186 | Accepts exactly the compilations whose order and rule pack fit the strategy. |
| StrategyGraph.ValidatePrimaryUniqueness | app/contracts/strategy.py:134-149 | Reports a clash exactly when two primaries share a scope. |
| AuditLog.ReadBack | app/audit_engine/store.py:136-148 | Reading the lines of any records gives the records back in order. |
| AuditLog.RecoveryDropsTornTail | app/audit_engine/store.py:124-134 | Recovery removes a torn final line and nothing else. |
| AuditLog.OpensExactly | app/audit_engine/store.py:113-122 | Opening fails exactly when a completed line is unreadable or two files hold one event id, whatever the order of the listing. |
| AuditLog.StepRefines | app/audit_engine/store.py:67-92 | One append, death after any byte of a write, or restart on the bytes is one action on the records. |
| AuditLog.RunRefines | app/audit_engine/store.py:67-134 | Over every run of those, opening never fails, bytes, index and records agree, and no event id is stored twice. |
| AuditLog.RunFromEmptyRefines | app/audit_engine/store.py:58-65 | In particular from an empty directory. |
| AuditLog.AtMostTheRecordInFlight | app/audit_engine/store.py:67-92 | After one append, crash or restart every file reads as before, but for the one unknown record in flight, which its own file may read at the end. |
| AuditLog.AcknowledgedForever | app/audit_engine/store.py:75-79 | After any later run an acknowledged event is replayed with everything before it, and appending it again changes nothing. |
| AuditLog.TwoLogsMayCorrupt | app/audit_engine/store.py:150-157 | After two logs over one root have both accepted an event, opening fails if and only if they differ in run or stream; otherwise the one file reads the event twice. |
| AuditStore.ReplayYieldsTheRecords | app/audit_engine/store.py:94-101 | A replay yields the recorded events of its run and stream day by day. |
| AuditStore.ReadCompletedLines | app/audit_engine/store.py:136-148 | The line loop computes the specified reading. |
| AuditStore.RebuildIndex | app/audit_engine/store.py:113-122 | The recover-and-index loop leaves the recovered files and the specified index, or the corruption error. |
| AuditStore.Log.DurableAppend | app/audit_engine/store.py:167-182 | The partial-write loop appends exactly the prefix of the line that the successive writes accepted. |
| AuditStore.Log.Append | app/audit_engine/store.py:67-92 | A new event is one more line and one more index entry, a known one changes nothing, a cut-short write leaves the prefix and no index entry; closed logs and unsafe run ids change nothing. |
| ElliottWave.ConfirmedPivots | app/elliott_wave_engine/engine.py:281-296 | The pivot loop computes the specified pivots on both sides. |
| ElliottWave.PivotsAreConfirmed | app/elliott_wave_engine/engine.py:281-296 | An index is reported exactly when it is a pivot with two bars on either side. |
| ElliottWave.PivotsIncrease | app/elliott_wave_engine/engine.py:281-296 | The reported indices are strictly increasing. |
| ElliottWave.NoLookAhead | app/elliott_wave_engine/engine.py:281-296 | The pivots of any prefix are exactly the pivots of the whole series that have two bars after them inside the prefix. |
| ElliottWave.Wave2IsCoherent | app/elliott_wave_engine/engine.py:123-189 | With a positive average true range every Wave 2 candidate has ordered rounded levels, is invalidated at its origin and scores between 45 and 100. |
| ElliottWave.Wave4IsCoherent | app/elliott_wave_engine/engine.py:192-278 | The same for Wave 4, whose invalidation is always the Wave 1 peak less 0.15 average true ranges, at or below the correction low. |
| ElliottWave.Wave2BonusIsTheZone | app/elliott_wave_engine/engine.py:145-154 | The retracements that earn the Wave 2 bonus are exactly those whose low lies in the published entry zone. |
| ElliottWave.Wave4BonusIsTheZone | app/elliott_wave_engine/engine.py:227-259 | The same for Wave 4 and its entry zone. |
| EntryWatcher.LiveInvalidation | app/entry_watcher/engine.py:485-516 | The stop of a chase is the highest of the thesis invalidation and the live levels under the price. |
| ElliottWave.Wave2DividesExactly | app/elliott_wave_engine/engine.py:137-145 | The search divides by zero exactly on an impulse of size zero with an average true range of zero. |
| ElliottWave.Wave4DividesExactly | app/elliott_wave_engine/engine.py:216-227 | The same for Wave 4 structures. |
| ElliottWave.Candidates | app/elliott_wave_engine/engine.py:123-278 | The search over the peaks collects the candidates newest first. |
| ElliottWave.PublishedIsValid | app/contracts/elliott_wave.py:58-101 | With a positive average true range an evaluation always ends in an assessment, and its contract accepts it if and only if the low of the bar at the chosen origin is at least 0.00005. |
| ElliottWave.OrdinaryPricesArePublished | app/contracts/elliott_wave.py:39-51 | No assessment is refused over bars that all trade at 0.00005 or more. |
| ElliottWaveWitnesses.TinyWaveIsRefused | app/contracts/elliott_wave.py:39 | Fifteen concrete bars whose sound count is refused. |
| ElliottWaveWitnesses.StepsFail | app/elliott_wave_engine/engine.py:137-145 | Thirty concrete bars on which both searches divide by zero and the evaluation fails. |
| ElliottWave.EvaluateContext | app/elliott_wave_engine/engine.py:45-100 | The evaluation over the two search loops computes the specified one. |
| DilutionRisk.DeduplicatedMeans | app/dilution_sec_engine/engine.py:168-185 | Deduplication keeps each filing once and fails exactly on two different filings under one accession number. |
| DilutionRisk.Deduplicate | app/dilution_sec_engine/engine.py:168-185 | The dictionary loop computes it. |
| DilutionRisk.CollectEvidence | app/dilution_sec_engine/engine.py:201-255 | The evidence loop computes one entry per supported topic in the fixed order. |
| DilutionRisk.OnlyTheSetMatters | app/dilution_sec_engine/engine.py:136-166 | The outcome, errors included, is the same for any two lists with the same set of filings. |
| DilutionRisk.ConflictExactly | app/dilution_sec_engine/engine.py:168-185 | An assessment is refused for a conflict exactly when two filings conflict, in whatever order. |
| DilutionRisk.NewFilingNeverLowersRisk | app/dilution_sec_engine/engine.py:201-269 | Adding a filing of the last 365 days that conflicts with no other lowers neither score nor severity. |
| AlertCooldown.CooldownEscalates | app/alert_engine/engine.py:369-413 | In any run whose clock never goes back, two alerts of one state key less than a cooldown apart have strictly increasing severity. |
| AlertCooldown.RateIsBounded | app/alert_engine/v2.py:89-145 | No cooldown holds more alerts of one key than there are severities. |
| AlertCooldown.KeysAreDistinct | app/alert_engine/engine.py:384-391 | Every alert sent has its own deduplication key, and the builder remembers exactly those. |
| AlertCooldown.KeyCheckIsRedundant | app/alert_engine/engine.py:378-391 | Unless two state keys share their text, the deduplication check holds nothing back that the cooldown let through. |
| AlertCooldown.KeyCheckMattersExactly | app/alert_engine/engine.py:384-391 | A first alert of one key can hold back another key at the same instant if and only if their texts are equal. |
| AlertCooldown.FailsExactly | app/alert_engine/engine.py:384-385 | An attempt fails on a division by zero in every run exactly when the cooldown is under a second. |

## Left out

- Network, database, message bus, settings, logging and command line: no decision logic.
- Short positions, versions 12, 13, 15 and 23 of the opportunity engine: the exit rule mirrors the long one and the rest is gating.
- Signals of the SwingTrade, countertrend and other non-core families, alerts as entry signals and leveraged cancellations: their legs and checkpoints are in the model, the events that open them are not.
- Event texts, reasons, provenance ids, and the events of bars and reconciliations, whose ids come from a factory: written, never read by a decision.
- Lockstep: speaks of marking by bars; a session close and an analytical exit are leg-only by design and end it.
- MergedCheckpoint: says nothing of `current_price`, which for three or more duplicates need not come from the latest one.
- ReconcileAll: the order in which the store lists active records, sorted by symbol, is a parameter.
- White space around symbols: the stores strip it, but a symbol holds none; universe symbols are taken as stripped.
- Digits outside ASCII in the version of a setup id.
- Checkpoint ids are taken to be unique, so that checkpoints are matched by position.
- RecoveryExitMeaning: assumes bars on whole minutes, as the feed delivers them.
- Entry Watcher versions 3 and 5.2 and later: version 3 is off the inheritance path, 5.2 adds arming thresholds, the others are not part of this model.
- Reason texts of watcher transitions are reduced to a tag; a stored result is taken to read back as the same value.
- RestartsAreInvisible: one symbol, because the set of reconfirmed ids is shared across watches.
- Writer claims, file locks and directory synchronisation of the audit log: they guard against other processes and lost directory entries, not against torn lines.
- Continuing to use an audit log in the same process after a write was cut short: a failed write is modelled as the end of the process.
- The line sink of the alert engine: the same recovery and index as the audit log.
- The order of deduplicated filings: the source sorts them; every use of the sorted list is an order-independent maximum, sum or count.
- Thresholds, scores and texts of the alert engine, and alert versions 3 and later: single-branch predicates.
- AlertCooldown.Window: instants before the epoch, where whole seconds would be cut towards zero.
- TriggersAreReconfirmed: takes an analysis id to name one result, as its factory intends.
- RunRefines: the record text is any newline-free encoding that can be read back; JSON itself is not modelled.
- Metrics given as text or whole numbers: every metric is a number, a text or a flag from the start.
- Decimal's 28-digit context: arithmetic is exact up to the quantise steps.
