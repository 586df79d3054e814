# Models of the orchestration engine and its store

This project models the parts of the engine whose correctness depends on interleaving, on the order of writes, or on
two forms of one thing agreeing, and proves what they guarantee:

* **The session runner.** `CreateSession` racing any number of `Destroy` calls (`RunnerState`, `CreateDestroy`,
  `CreateDestroyTheorems`), a session that is deleted and created again (`Recreate`, `RecreateRuns`, `NewerAttempt`),
  the two id spaces of a turn in flight (`ActiveQuery`, `ActiveAttach`), counted persistence claims (`TurnClaims`), the
  archive sweep (`ArchiveSweep`, `ArchiveRuns`) and transcript reconstruction (`Transcript`, `TranscriptText`). Each
  block the runner executes under its mutex, each call to the environment and each call to the store is one atomic
  step.
* **The configuration log.** Entity references and the fold (`ConfigFold`), the transactional seam with its retries
  (`ConfigLog`, `ConfigSeam`), the fold against the table and the tombstones (`ConfigProjection`, `ConfigTombstones`,
  `ConfigRaces`), and reverting a change by writing forward (`ConfigRows`, `ConfigHistory`, `Revert`, `RevertTheorems`,
  `RevertRuns`, `RevertSurprises`).
* **Label selectors.** Parser, printer and matcher (`Labels`), what is parsed and what it means (`LabelsGrammar`,
  `LabelsLanguage`), the round trip (`LabelsRoundTrip`) and the SQL translation (`LabelsSql`). SQL is modelled as a
  token sequence read with SQL's own precedence, its arguments taken left to right.
* **Versioned and compare-and-swap stores.** Named memories (`MemoryCas`), datasets and their reaper (`Datasets`,
  `DatasetReaper`), the image catalogue and its references (`Images`, `ImageNumbers`, `ImageRows`, `ImageRefs`), the
  snapshot reaper (`SnapshotReaper`, `SnapshotReaperTheorems`).
* **Attention requests** with parked deliveries (`Attention`, `AttentionTheorems`) and the **UTF-8 truncation** of
  briefing sections (`Truncation`, with the grammar of section 4 of RFC 3629, and `Utf8`).

Tables are maps keyed by their unique indexes; a transaction is an atomic commit after reads that may be stale. What the
database, the container environment, the registry and the clock answer is a parameter or a free choice of a step. Code that
updates state in loops and fields is a method proved equal to a function, and the theorems are about that function.

## Where the code and its own words part

Each item names the lemma that exhibits it and the one that says when the promise holds, which is exact unless the item
says "one way".

* Printing and re-parsing a selector is not always a fixed point: the set-term expression allows a form feed between
  words and `cutWord` does not, so `exists<FF>in (a)` parses, and its printed form does not parse back
  (`FormFeedBreaksRoundTrip`). It holds exactly for the selectors without a set over the key `exists`
  (`ParsedTextRoundTrip`), so for every text without a form feed.
* A comparison or a set over the key `exists` is refused when white space follows the key, since `exists` and a space begin
  the other spelling; every other spelling means what it says, and nothing else parses (`SpellingMeans`,
  `ParsedTextIsSpelled`).
* "Exactly one of the two destroys" (go/runner.go:474-476) is "at least one" (`BothDestroy`): `abandonCreate` destroys
  whether or not the instance is still tracked. That is what the safety argument uses.
* A Destroy that is in flight when an attempt begins can leave a running, untracked container, whether its mark precedes
  the guard (`EarlyDestroyLeaks`) or its `forget` comes late (`LateForgetUntracksRecreate`). With no create, no Destroy
  and no container of the session left when each attempt begins, it cannot (`LiveContainerIsAnsweredFor`, one way).
* The environments hand back a session's existing container, so an abandoned create can destroy its successor's: when
  the successor begins after the check for a newer create (`AdoptedContainerDestroyed`), or is over before it
  (`FinishedSuccessorDestroyed`). Where no attempt begins while a create of its session is unfinished, every delivered
  attempt keeps its container until a Destroy of the session (`DeliveredKeepsContainer`, one way).
* A delete's payload is the row as it was read, not as it last stood (`TombstoneIsStale`); it is the latter exactly if
  nothing was written about the row in between, or the last write put back the row that was read
  (`TombstoneIsCurrentIff`, `TombstoneAfterRestore`).
* A save that commits on a row another project owns by then breaks the agreement of log and table (`SharedIdDiverges`),
  and besides a blank id nothing else does (`FoldIsTableIff`).
* A revert is not an undo when the newest change re-created a deleted entity (`RevertIsUndo`), and reverting the revert
  of a delete does not delete again (`RevertTwice`). Its chain is read outside its transaction, so a change that lands
  in between is overwritten without a refusal (`RaceErases`). A key with trailing white space, or a history beyond the
  scan, reads as an empty chain, and then any revert that is not of a delete removes the row (`EmptyChainRemoves`).
  Reverting a settings write also puts back the prompt inside it (`SettingsRevertRewritesPrompt`). For plain keys within
  the scan, a revert does what it says (`RevertRestores`, one way).
* A conditional memory write stamped before the lock can land without becoming the newest, and then the next writer
  naming the same row lands too (`SecondLandsIff`, `BothLandInOneMillisecond`).
* A dataset number can be issued twice when the reaper removes it while a writer holds it (`LandingIsSwapIff`,
  `ReapReopensNumber`); a duplicate caller-supplied id is reported as a version conflict with the caller's own version
  (`DuplicateIdIsToldItsOwn`, `LoserIsToldAnother`, one way).
* `DeleteCustomImage` lets an image number be issued twice, when it removes a name's highest version
  (`DeleteReissuesHighest`) or a number a burner holds (`DeletedHeldIsReissued`), and exactly when a burn then lands on
  a removed version (`NumbersInOrderIff`); and it lets a name float back (`DeleteFloatsBack`,
  `FloatingIsHighestEverBurnedIff`).
* The snapshot reaper judges the copies it listed, so a launch after the listing does not spare an image
  (`LaunchAfterListingIsNoReprieve`, `RemovedWasDueIff`); and an image whose retention was shorter than the present one
  is due before it is listed (`DueListedIff`).
* An open notice keeps a session's deliveries parked as an open ask does (`OpenRequestKeepsParked`); after a timeout
  closes the last request no reply settles them (`TimeoutLeavesParked`).
* A sweep looks for a turn in flight before its snapshot and never again: what a turn does between the commit and the
  release is lost (`TurnDuringReleaseIsLost`), and so is a session that is created again in the window
  (`RecreatedRowIsDestroyed`, `RenewedRowIsReleased`). Nothing else is (`SweepsLoseNothingIff`). A worker that
  leaves the fleet between the record and the release leaves its container running, forgotten and reported as released
  (`ForgottenButRunning`; `RemovedIff` says when one sweep removes a container).
* A connected frame after the end of its turn records the ended turn (`LateFrameRecordsEndedTurn`); the live turn's
  entry is safe (`LiveTurnKeepsEntry`, one way). Text that follows a tool line continues on that line
  (`SpeechJoinsTheLine`).

## Model

| member | source | states |
|---|---|---|
| RunnerState.Runner.MarkCreating | go/runner.go:247-253 | installs a guard that is new and unmarked under the session, and changes nothing else |
| RunnerState.Runner.AdoptCreateGuard | go/runner.go:262-271 | returns the registered guard, marked or not, or registers and returns a new one |
| RunnerState.Runner.EndCreate | go/runner.go:276-282 | deregisters the guard only if it is still the registered one |
| RunnerState.Runner.MarkCreateAbandoned | go/runner.go:287-293 | marks the registered guard and no other; without one nothing changes |
| RunnerState.Runner.UntrackAbandoned | go/runner.go:326-338 | reports a newer create exactly if another guard is registered for the session and is unmarked; without one it untracks the session if its tracked container is the create's own, and otherwise changes nothing |
| RunnerState.Runner.Track | go/runner.go:2993-3000 | records container and worker of the session, all other sessions as they were |
| RunnerState.Runner.Forget | go/runner.go:3018-3024 | drops the session's container and worker together |
| CreateDestroy.StepKeeps | go/runner.go:366-497 | every enabled step of every create and destroy keeps the invariant on guards, containers and obligations |
| CreateDestroy.RunKeeps | go/runner.go:366-497 | the invariant holds after every run, of any number of attempts on a session, in which an attempt begins only when no create and no Destroy of its session is in flight and none of its containers runs |
| CreateDestroyTheorems.LiveContainerIsAnsweredFor | go/runner.go:366-497 | in every state of such a run, for every attempt: a live container is tracked, or its create has yet to track it or is obliged to destroy it, or an Env.Destroy failed on it |
| CreateDestroyTheorems.NoOrphanContainer | go/runner.go:748-822 | once every create and Destroy of a session has returned, and a Destroy that began in its last attempt succeeded, no container with its label runs, save those a destroy failed on |
| CreateDestroyTheorems.ExcuseNeedsFailure | go/runner.go:352-358 | a run without failed environment calls excuses no container |
| CreateDestroyTheorems.CreateGetsOn | go/runner.go:366-497 | every step brings a create nearer its end; a call that fails before the container is tracked, or the boot, ends it, a mark seen before there is a container too, and one seen later sends it to abandonCreate |
| CreateDestroyTheorems.DestroyGetsOn | go/runner.go:790-822 | a Destroy destroys the container it found tracked exactly if its worker is there and the lookup succeeds, and forgets the session unless a removal failed |
| CreateDestroyTheorems.ContainersComeAndGo | go/runner.go:303-497 | containers come only from a Provision that made one, labelled with its session, and go only by a removal that succeeded |
| CreateDestroyTheorems.EarlyDestroyLeaks | go/runner.go:284-293 | a run that keeps to the conditions but for one Destroy in flight when the attempt begins; all returns successfully, and the container is live and untracked |
| RunPieces.UninterruptedRun | go/runner.go:366-497 | a create nobody interrupts provisions one container and ends with it live, tracked and the guard gone |
| Recreate.FreshAttempt | go/runner.go:241-282 | after any history, the guard MarkCreating installs is never abandoned and never evicted until a create under it finishes, as long as the session is neither destroyed nor marked again |
| Recreate.AbandonSparesOthers | go/runner.go:303-363 | after any run, an abandonCreate step leaves every other session's containers and tracking as they are, and of its own session's takes only the container it holds |
| Recreate.AbandonIsNewestMarked | go/runner.go:303-363 | where no attempt begins while a create of its session is unfinished, abandonCreate runs only for the newest attempt, whose registered guard a Destroy marked, every other create of the session having finished |
| Recreate.DeliveredKeepsContainer | go/runner.go:241-363 | in such runs, also where the environment hands back the existing container, what a delivered attempt was left with runs until a Destroy of the session begins or removes it |
| Recreate.EndingDelivers | go/runner.go:276-282 | in such runs the end of a create leaves its session so delivered: the last create, its container running, no guard registered |
| NewerAttempt.UntrackDecides | go/runner.go:326-363 | in any state: with another unmarked guard registered the locked block changes nothing and the create leaves; otherwise it goes on to destroy its container |
| NewerAttempt.SparesWhileSuperseded | go/runner.go:303-363 | over any run, overlapping attempts included: a create whose session has a newer unmarked guard from now until it is past its locked block never takes a running container or a tracking entry away |
| NewerAttempt.FreshAttemptIsSpared | go/runner.go:241-363 | after any history: an attempt begun by MarkCreating before its predecessor's reclaim, neither deleted nor finished until the predecessor is past its locked block, loses nothing to it, even sharing its container |
| RecreateRuns.AdoptedContainerDestroyed | go/runner.go:321-363 | the attempt begins after its predecessor has checked for a newer create: the shared container is destroyed after delivery, no call failed, nobody deleted the second attempt |
| RecreateRuns.FinishedSuccessorDestroyed | go/runner.go:276-363 | the attempt is delivered and its guard deregistered before its predecessor checks: the same end |
| RecreateRuns.BothDestroy | go/runner.go:474-497 | a run in which the Destroy and the create both go on to destroy the one container |
| RecreateRuns.LateForgetUntracksRecreate | go/runner.go:3018-3024 | a run that keeps to the conditions but for one Destroy in flight when the second attempt begins: its last step untracks the second attempt's live container, with no failure |
| ActiveQuery.Runner.BeginActiveQuery | go/runner.go:1237-1242 | records the turn without a sandbox id, other sessions untouched, and issues that store write |
| ActiveQuery.Runner.OnConnected | go/runner.go:1247-1263 | joins the two ids unless the frame says nothing new or another turn is recorded; then nothing changes and nothing is written |
| ActiveQuery.Runner.EndActiveQuery | go/runner.go:1269-1284 | forgets the turn only if it is the recorded one |
| ActiveQuery.Runner.Store | go/agentdb/activequery.go:46-115 | a set needs both ids and a row; a clear empties the columns only if its turn is the one recorded |
| ActiveQuery.AttachesToTheTurn | go/runner.go:1298-1326 | under late and lost writes, late frames and restarts, the id used to attach for a turn is never one of another turn: it is the turn's own or one announced for it |
| ActiveAttach.FallsBackIff | go/runner.go:1298-1326 | after any history, the caller's own id is used exactly if neither the entry in memory nor the row, where the store answers, has a sandbox id for the turn |
| ActiveAttach.AttachesWithLastTold | go/runner.go:1298-1312 | while the turn is recorded, the id used is the one its own last telling frame gave, through any other turns' frames and ends and any store writes |
| ActiveAttach.AttachesAfterFrame | go/runner.go:1247-1312 | after a frame that is not ignored, and until another of the turn's own, the id used is that frame's |
| ActiveAttach.AttachesAfterRestart | go/runner.go:1255-1326 | with that frame's write landed and not overwritten, it is so after a restart too, if the store answers |
| ActiveAttach.EndedTurnIsForgotten | go/runner.go:1269-1284 | after the end of a turn memory has no sandbox id for it, and once the clear lands the store has none, until something records the turn again |
| ActiveAttach.CallsBalance | go/runner.go:1237-1296 | every store write is issued by one begin, heard frame or end, and is under way, landed or lost, once |
| ActiveAttach.OnlyBegunTurnsSpeak | go/runner.go:1237-1284 | frames and ends are those of turns begun |
| ActiveQuery.StepSpares | go/runner.go:1252-1275 | a superseded turn's frame or end leaves the live turn's entry as it is |
| ActiveQuery.LiveTurnKeepsEntry | go/runner.go:1237-1275 | through any number of other turns' frames and ends and of late or lost writes, the live turn's entry is its own id with the sandbox id of its own last telling frame, which once known is never forgotten |
| ActiveQuery.LateFrameRecordsEndedTurn | go/runner.go:1247-1262 | a frame after its turn's end, with no turn recorded, records the ended turn |
| ActiveQuery.StoreCanLag | go/runner.go:1237-1242 | two turns' store writes can land in the other order and leave the older turn in the row |
| TurnClaims.PersistOwners.Own | go/runner.go:1440-1445 | an unconditional claim: the counter is the number of outstanding claims before and after |
| TurnClaims.PersistOwners.TryClaim | go/runner.go:1448-1456 | a stream is granted exactly when no claim on the session is outstanding, so no session has two streams |
| TurnClaims.PersistOwners.Release | go/runner.go:1458-1466 | releases one claim, with no counter left at zero |
| ArchiveSweep.Sweeper.Snapshot | go/runner.go:828-886 | succeeds exactly when every call of it does, and only then stores its handle on the row |
| ArchiveSweep.Sweeper.Teardown | go/runner.go:790-822 | fails exactly when a tracked container's removal fails, and then changes nothing; otherwise the session is forgotten, with artifacts marked lost only when asked |
| ArchiveSweep.Sweeper.Destroy | go/runner.go:748-763 | marks a create in flight before the teardown, whether or not the teardown succeeds |
| ArchiveSweep.Sweeper.ArchiveIdleOnce | go/runner.go:1580-1653 | each idle session fares as if alone; every other, and each with events to flush or a turn in flight, is untouched; with no timeout nothing happens |
| ArchiveSweep.SweepOutcome | go/runner.go:1586-1653 | field by field and call by call: left as it is with events to flush, a turn in flight, no worker or no snapshot support; else brought up, recorded if every snapshot call succeeds, and removed if so or if the row is definitely absent |
| ArchiveSweep.BusyIsLeftAlone | go/runner.go:1587-1598 | a session with events to flush or a turn in flight is as before after any number of sweeps |
| ArchiveSweep.RemovedIff | go/runner.go:1586-1643 | exactly when a running container goes, in the calls and guards themselves |
| ArchiveSweep.SweepsRemoveOnlyStored | go/runner.go:1572-1653 | over any number of sweeps, whatever fails: the row points at the last snapshot recorded; a container goes only after some sweep recorded one or found the row definitely absent, and artifacts are lost and a create abandoned only in the second case |
| ArchiveRuns.SweepsLoseNothingIff | go/runner.go:824-886 | over any interleaving of sweeps, failures, turns, restores, deletions and re-creations, with commit, upload and record apart: a session with a row never loses work or artifacts exactly if every release found no work done since its commit and its snapshot on the present row, and every orphan removed had no row still |
| ArchiveRuns.SweepsLoseNothing | go/runner.go:1572-1653 | so nothing is lost if no turn works between commit and release and no row is created between record and release or between the answer and the removal |
| ArchiveRuns.SweepsOnlyTheIdle | go/runner.go:1587-1605 | over any run, a snapshot or a removal is under way only if its sweep found no turn in flight and nothing to flush |
| ArchiveRuns.TurnsInFlight | go/runner.go:1594-1598 | the turns in flight are those begun and not ended, and one begins in the running container or one restored from the snapshot on the row |
| ArchiveRuns.TurnDuringReleaseIsLost | go/runner.go:862-886 | a turn that begins after the commit, the upload or the record and works before the release loses that work |
| ArchiveRuns.RecreatedRowIsDestroyed | go/runner.go:1620-1627 | a session created again between the answer and the removal loses its container, its work and its artifacts |
| ArchiveRuns.RenewedRowIsReleased | go/runner.go:886-894 | a session created again between record and release is left with no container and no snapshot |
| Transcript.Reconstruct | go/runner.go:2096-2184 | the loop with its builder, pending map and open order yields the messages of the turn-by-turn walk |
| TranscriptText.TranscriptSays | go/runner.go:2096-2184 | for all events, from the events alone: cut at the user messages, each cut gives one trimmed assistant message unless blank, each non-blank user content one user message; without tools a cut says its deltas run together, with tools each end adds its line under the open start of its id, and each unfinished start one that says so |
| Transcript.SplitsAtUserMessages | go/runner.go:2096-2184 | cutting the events at a user message cuts the messages there, with or without tool lines |
| Transcript.BothShapesSayTheSame | go/runner.go:2074-2184 | both shapes have the same turns, user text, and deltas in every assistant turn |
| Transcript.EveryActionHasItsLine | go/runner.go:2096-2184 | tool lines plus restarts of still-open calls equal tool starts plus ends that close nothing |
| Transcript.SpeechJoinsTheLine | go/runner.go:2108-2119 | what is said after a tool line continues on that line |
| ConfigFold.RefRoundTrip | go/agentdb/config_fold.go:117-180 | a reference the fold produces survives String and ParseEntityRef exactly when its key has no trailing white space |
| ConfigFold.ParseRendered | go/agentdb/config_fold.go:145-180 | reading a rendered reference back drops the key's trailing white space and nothing else |
| ConfigFold.RenderInjective | go/agentdb/config_fold.go:117-122 | the fold's map keys tell all entities apart |
| ConfigFold.RefForIsValid | go/agentdb/config_fold.go:257-313 | a keyed record's reference has the action's kind, and a non-blank key unless the kind is a singleton |
| ConfigFold.FoldTo | go/agentdb/config_fold.go:475-515 | the loop over the two maps is the last-writer-wins fold; it fails exactly on a blank project or a record that cannot be keyed |
| ConfigFold.FoldIsNewest | go/agentdb/config_fold.go:498-512 | an entity is live exactly when its newest record is not a delete, tombstoned exactly when it is, and the fold holds that record |
| ConfigFold.FoldKeys | go/agentdb/config_fold.go:475-515 | live and tombstoned keys are disjoint and together are the keys ever written |
| ConfigFold.TombstonedByAction | go/agentdb/config_fold.go:223-237 | an entity is tombstoned exactly if its newest record is its kind's delete, a connection by a disconnect, and of the kinds that have none never |
| ConfigFold.SelectionIsPrefix | go/agentdb/config_fold.go:480-486 | for every instant the rows read are a prefix of the log exactly when created_at never decreases along seq |
| ConfigLog.MovedIsAtomic | go/agentdb/config_events.go:398-411 | a writer's step either commits its row change with one record under the next number, or leaves rows and log as they were |
| ConfigLog.NumbersAreDense | go/agentdb/config_events.go:368-459 | however writers interleave, each project's records are numbered 1, 2, 3, ... in commit order |
| ConfigLog.OneRecordPerSuccess | go/agentdb/config_events.go:368-426 | there are as many records as writers told they succeeded: a failed mutation leaves neither row nor record |
| ConfigLog.WriterTriesFiveTimes | go/agentdb/config_events.go:385-431 | however others interfere, a writer commits only the mutation it read, and fails exactly when that is refused or its fifth number was taken, or it is aborted |
| ConfigSeam.Store.Commit | go/agentdb/config_events.go:398-408 | one transaction commits row and record, or refuses, or collides, and in the last two changes nothing |
| ConfigSeam.Store.WithConfigEvent | go/agentdb/config_events.go:368-426 | the retry loop, with rivals landing between its mark and its insert, behaves as the attempts in turn |
| ConfigSeam.SeamIsAtomic | go/agentdb/config_events.go:368-426 | success adds one row change and one record numbered next to what the rivals landed; failure adds nothing |
| ConfigSeam.FirstDecides | go/agentdb/config_events.go:385-426 | the first attempt that keeps its number, or whose mutation fails, decides between success and that failure |
| ConfigSeam.RivalLands | go/agentdb/config_events.go:398-411 | a rival lands its row change with one record under its project's next number, or nothing |
| ConfigSeam.ExhaustedIsAlwaysBeaten | go/agentdb/config_events.go:385-431 | it gives up exactly when a rival of its project landed between mark and insert at every attempt |
| ConfigProjection.FoldIsTableIff | go/agentdb/events.go:611-762 | over any run of concurrent creates, stale updates and deletes: in every state the fold of each project's log is its rows and its tombstones the ids it wrote that have none, exactly if no save committed on a row another project owned by then and no row with a blank id was written |
| ConfigProjection.FoldIsTable | go/agentdb/config_fold.go:475-515 | after any run without such writes, for every project and entity reference, the fold of the project's log is right about the entity |
| ConfigProjection.OwnedRunIsClean | go/agentdb/events.go:611-762 | callers whose ids belong to one project each, and are not blank, never make such a write |
| ConfigRaces.WholeRun | go/agentdb/config_events.go:385-408 | a mutation nobody interrupts lands its row change and its record |
| ConfigTombstones.TombstoneIsCurrentIff | go/agentdb/events.go:722-762 | in every run, a delete's record carries the row as it last stood exactly if, between its read and its commit, nothing was written about the row or what was last written left it as it had been read |
| ConfigRaces.TombstoneIsStale | go/agentdb/events.go:722-762 | a delete overtaken by an update logs the row before that update |
| ConfigRaces.TombstoneAfterRestore | go/agentdb/events.go:722-762 | two updates land in between, the second puts the first row back, and the record is right |
| ConfigRaces.SharedIdDiverges | go/agentdb/events.go:681-719 | with one id in two projects, a stale save takes over the other project's row while its log says otherwise |
| ConfigRows.UpsertActionNamesTheFlip | go/agentdb/workers.go:312-334 | enable, disable, freeze and unfreeze are logged exactly when that one toggle flipped and nothing else changed |
| ConfigRows.MissingFieldsAreZero | go/agentdb/config_revert.go:289-345 | a field the payload lacks reads as its zero value, and the kinds without a table do not decode |
| ConfigHistory.PutKeeps | go/agentdb/config_events.go:353-408 | a logged write keeps every entity's newest record equal to its row |
| ConfigHistory.DropKeeps | go/agentdb/events.go:722-762 | a logged delete does too, fails exactly when the project has no such row, and its record carries the row it removed |
| Revert.FilterByEntity | go/agentdb/config_events.go:606-619 | keeps exactly the records keyed to the entity, newest first, up to the limit |
| Revert.ConfigStore.ListEntity | go/agentdb/config_events.go:507-563 | the chain is the entity's records among the newest ones the scan reads |
| Revert.ConfigStore.RevertOne | go/agentdb/config_revert.go:64-118 | commits the compensating write and returns its record, or reports an error with nothing written |
| Revert.ChainIsHistory | go/agentdb/config_events.go:530-558 | within the scan, and for a key without trailing white space, the chain is the entity's whole history |
| RevertTheorems.CompensateOutcome | go/agentdb/config_revert.go:185-287 | the compensating write does exactly what was planned or nothing, and which of the two can be told beforehand |
| RevertTheorems.RevertWritesWhatItRead | go/agentdb/config_revert.go:81-107 | whatever the tables have become since the chain was read, the revert writes what that log said |
| RevertTheorems.RevertRestores | go/agentdb/config_revert.go:64-287 | reverting the newest change puts back the tombstone's row, or absence, or the predecessor's payload, adds one record, touches no other row; an older change is refused |
| RevertTheorems.SettingsStayInProject | go/agentdb/config_revert.go:270-283 | whatever project a settings payload names, the revert writes its own project's settings |
| RevertRuns.RunKeeps | go/agentdb/config_revert.go:64-287 | after any sequence of mutations and reverts each entity's row is its newest record's payload, or absent after a delete |
| RevertRuns.EachLogsItsVerb | go/agentdb/workers.go:312-334 | every mutation that succeeds appends one record under its own verb, a worker's upsert under the verb of the toggle that flipped |
| RevertRuns.MutationOutcome | go/agentdb/events.go:611-762 | a mutation succeeds exactly if its event id is free and what it finds allows it, and then leaves one row written, one column of it, or one row less, all others as they were |
| RevertRuns.NoInverseUntouched | go/agentdb/config_revert.go:123-140 | after any such sequence, whatever reverts were asked for, a topology, image, skill or connection has exactly the records it had |
| RevertSurprises.RevertIsUndo | go/agentdb/config_revert.go:185-287 | the entity is as before its newest change exactly when that change did not re-create it after a delete |
| RevertSurprises.RevertTwice | go/agentdb/config_revert.go:64-287 | reverting the revert restores the row it replaced, exactly unless the first target was a delete |
| RevertSurprises.RaceErases | go/agentdb/config_revert.go:81-103 | a change landing between the chain's read and the transaction is overwritten, and the revert is not refused |
| RevertSurprises.EmptyChainRemoves | go/agentdb/config_revert.go:81-148 | with an empty chain, reverting any record but a delete removes the row |
| RevertSurprises.TrailingSpaceChain | go/agentdb/config_fold.go:145-180 | a key with trailing white space meets an empty chain unless the shorter key has records |
| RevertSurprises.BeyondTheScan | go/agentdb/config_events.go:503-563 | so does an entity whose records lie beyond the scan cap |
| RevertSurprises.SettingsRevertRewritesPrompt | go/agentdb/config_revert.go:270-283 | reverting a settings write puts back its whole predecessor, prompt included, and leaves the prompt's own history as it was |
| RevertSurprises.PromptRevertRestoresPrompt | go/agentdb/config_revert.go:248-268 | reverting a prompt write changes that one column back; the first one is refused |
| RevertSurprises.FirstSettingsRefused | go/agentdb/config_revert.go:270-274 | the first settings write has nothing before it and is refused |
| RevertSurprises.RevertIsRevertable | go/agentdb/config_revert.go:10-25 | after a revert, asking for the original again is refused as not the newest, and the revert's own record can be reverted, with the original as its predecessor, exactly while the tables permit it |
| Labels.SplitTerms | go/agentdb/labels.go:185-223 | the loop with buffer and depth splits at the commas outside parentheses, or fails on unbalanced ones |
| Labels.ParseLabelSelector | go/agentdb/labels.go:167-181 | parses every term in order and fails with the first term's error |
| LabelsGrammar.SpellingMeans | go/agentdb/labels.go:228-300 | every spelling of a requirement, with its white space, parses to what it says: `=` and `==` to Equals, `!=` to NotEquals, `exists key` and the bare key to Exists, `!key` to NotExists, sets to their trimmed values; refused exactly if it is a comparison or set over the key `exists` with white space after it |
| LabelsLanguage.TextMeans | go/agentdb/labels.go:167-223 | a text of spellings between commas, with white space or nothing in between, parses to what they mean, in order |
| LabelsLanguage.ParsedIsSpelled | go/agentdb/labels.go:228-300 | whatever parses as a requirement is one of these spellings |
| LabelsLanguage.ParsedTextIsSpelled | go/agentdb/labels.go:167-300 | whatever parses as a selector is such a text |
| LabelsLanguage.KeysAndValuesAre | go/agentdb/labels.go:77-105 | keys and values are at most 63 letters, digits, hyphens, underscores and periods, a letter or digit at both ends; a value may be empty |
| LabelsLanguage.UnbalancedIsRefused | go/agentdb/labels.go:185-223 | a text is refused as unbalanced exactly where a parenthesis closes that was not open, or else where one is left open, before any term is read |
| LabelsLanguage.KeyRefusedFirst | go/agentdb/labels.go:228-300 | of a comparison or a set the key is checked first, then the values |
| LabelsLanguage.ValuesRefused | go/agentdb/labels.go:258-271 | a set is refused for its first bad value, an empty one as such |
| LabelsLanguage.OperatorsMean | go/agentdb/labels.go:338-378 | each operator against the others: the negative ones hold exactly where the positive do not, also for a missing key, and a set is any of its values |
| Labels.String | go/agentdb/labels.go:318-336 | the loop prints each requirement in its own form, joined by commas |
| LabelsRoundTrip.ParsedSelectorWellFormed | go/agentdb/labels.go:228-300 | what a text parses to has valid keys and values and each operator's own number of values |
| LabelsRoundTrip.RequirementRoundTrip | go/agentdb/labels.go:228-336 | a well-formed requirement prints and parses back to itself exactly unless it is a set over the key `exists` |
| LabelsRoundTrip.SelectorRoundTrip | go/agentdb/labels.go:167-336 | a printable selector does exactly when all its requirements are well formed and none is such a set |
| LabelsRoundTrip.ParsedTextRoundTrip | go/agentdb/labels.go:167-336 | for every text that parses, printing and parsing again gives the same selector exactly when it holds no such set |
| LabelsRoundTrip.FormFeedFreeRoundTrip | go/agentdb/labels.go:167-336 | so it does for every text without a form feed |
| LabelsRoundTrip.FormFeedBreaksRoundTrip | go/agentdb/labels.go:303-314 | the text with a form feed that parses, though its printed form does not parse back |
| LabelsSql.SQL | go/agentdb/labels.go:392-433 | the loop over the requirements builds the conjunction and its arguments in order |
| LabelsSql.SetClause | go/agentdb/labels.go:418-428 | one containment test and one argument per value, joined by OR and negated for notin |
| LabelsSql.ClauseMeans | go/agentdb/labels.go:402-430 | one clause, read with SQL's precedence, is true exactly when the requirement holds, and takes its own arguments |
| LabelsSql.SqlAgreesWithMatches | go/agentdb/labels.go:340-433 | for every selector and label map the predicate is true exactly when the selector matches, every token and argument used |
| LabelsSql.SelectorTextSql | go/agentdb/labels.go:437-443 | the same from selector text |
| MemoryCas.LandingsFormOneChain | go/agentdb/memories.go:303-482 | among lock-taking writers, with keys that rise and nothing retracted or appended unconditionally, a name's landings form one chain, the last is its newest, and no row is named by two of them |
| MemoryCas.LandedIsNewest | go/agentdb/memories.go:465-482 | the row that lands is the newest exactly when its (created_at, id) exceeds the one it replaced |
| MemoryCas.LoserIsToldAnother | go/agentdb/memories.go:452-461 | a refused writer is told the newest memory of that moment, never the one it named |
| MemoryCas.NewestHeadsTheListing | go/agentdb/memories.go:465-482 | the newest memory is the head of the unretracted ones listed by created_at and then id, descending |
| MemoryCas.WithdrawalUncovers | go/agentdb/memories.go:465-482 | withdrawing the newest makes the runner-up the newest |
| MemoryCas.RowsOnlyCome | go/agentdb/memories.go:303-482 | over any run no memory is rewritten; an append adds its row, and any other new row is one a writer landed |
| MemoryCas.AloneAtCommit | go/agentdb/memories.go:426-463 | while a writer is about to commit no other holds its name's lock |
| MemoryCas.SecondLandsIff | go/agentdb/memories.go:362-366 | two writers naming one row both land exactly when the first one's key does not exceed the row's |
| MemoryCas.BothLandInOneMillisecond | go/agentdb/memories.go:362-366 | with equal stamps and the smaller id first, both land on the same row |
| MemoryCas.Memories.CreateIfCurrent | go/agentdb/memories.go:289-463 | blank and nameless swaps are errors; otherwise the row lands exactly when the named memory is the newest and the id is free, and a refusal writes nothing and names the memory that is newest |
| Datasets.Store.CreateVersion | go/agentdb/datasets.go:169-275 | negative versions are an argument error, a mismatch or used id is a conflict with the current version, a success is the next version and becomes the current one |
| Datasets.NumbersAreDense | go/agentdb/datasets.go:169-285 | over any interleaving of writers and reaps that remove no held number, versions are issued once each, in order, without a gap |
| Datasets.LandsOnCurrent | go/agentdb/datasets.go:226-243 | a landing names the version that is current when it inserts |
| Datasets.LandsAsNamed | go/agentdb/datasets.go:169-275 | whatever others do, a writer lands only the version after the one its caller named, with its caller's row, exactly where that number and its id are free |
| Datasets.LoserIsToldAnother | go/agentdb/datasets.go:263-272 | a loser is told another version than it named, unless it lost to a duplicate id |
| Datasets.LandingIsSwapIff | go/agentdb/datasets.go:226-243 | in every reachable state, whatever is reaped, a landing replaces the version it named exactly when its number was never issued before |
| Datasets.ReapReopensNumber | go/agentdb/datasets.go:226-243 | a run from the empty store in which a reaped number is issued a second time |
| Datasets.DuplicateIdIsToldItsOwn | go/agentdb/datasets.go:243-250 | a used id is reported as a conflict that names the caller's own version |
| DatasetReaper.Store.Reap | go/agentdb/datasets.go:516-576 | the loop with its stopped names, first error and early return is the sweep candidate by candidate; keep at or below 0 does nothing |
| DatasetReaper.SweptSound | go/agentdb/datasets.go:516-576 | rows only go, as many as counted, each a candidate with our prefix whose blob went first; every blob that goes is a candidate's |
| DatasetReaper.KeepsTheHighest | go/agentdb/datasets.go:516-576 | none of a name's keepPerName highest versions is removed, whatever fails |
| DatasetReaper.KeepsTheNewestOfDense | go/agentdb/datasets.go:480-576 | of versions 1 to n the newest keepPerName stay whatever fails, and a sweep without an error leaves none of ours below |
| DatasetReaper.FailedBlobStopsItsName | go/agentdb/datasets.go:516-576 | after a failed blob no later candidate of that name is removed |
| DatasetReaper.SweptIs | go/agentdb/datasets.go:516-576 | from the rows and the faults alone: a candidate's row goes exactly if it is ours, both its deletions succeed, no blob of its name failed before, and no row did |
| DatasetReaper.ReportedIs | go/agentdb/datasets.go:516-576 | the error reported is the row that stopped the sweep, or else the first failed blob, or else none |
| DatasetReaper.NoErrorMeansAllGone | go/agentdb/datasets.go:516-576 | a sweep that reports no error removed every candidate with our prefix |
| ImageNumbers.NumbersInOrderIff | go/agentdb/customimages.go:298-362 | over any run, hard deletes anywhere: a name's versions are 1, 2, 3, ... issued once each, reaped or not, exactly if no burn landed on a version that had been hard deleted |
| ImageNumbers.BurnReissuesIff | go/agentdb/customimages.go:298-420 | in every reachable state a burn takes a number given out before exactly if that version was hard deleted; otherwise it takes the next one |
| ImageNumbers.FloatingIsHighestEverBurnedIff | go/agentdb/customimages.go:520-580 | over any run a floating reference answers for the highest row or fails, and that is the highest version ever burned exactly if the latter is not hard deleted |
| ImageNumbers.FloatingIsHighestEverBurned | go/agentdb/customimages.go:298-580 | hard deletes that spare each name's highest version and any held number leave the numbers in order, and a floating reference resolves to the highest ever burned or fails |
| Images.RunKeeps | go/agentdb/customimages.go:298-414 | burns with hints outside the transaction, tombstones, launches and such deletes keep the numbering |
| ImageNumbers.PinnedIsThatVersion | go/agentdb/customimages.go:543-576 | over any run a pinned reference answers for that version and no other, and is not found exactly if it was never burned or is hard deleted |
| ImageNumbers.FloatingIsHighestRow | go/agentdb/customimages.go:549-576 | a floating one answers for the highest row, which it insists on |
| ImageRows.BurnerTriesFiveTimes | go/agentdb/customimages.go:325-355 | a burner gives up exactly after five inserts that met a taken number, and until then is about to land just what it was asked for |
| ImageRows.ExpiryIsDaysLater | go/agentdb/customimages.go:363-368 | an image has expired exactly when a retention was set and that many whole days have passed since the burn |
| ImageRows.RowHistory | go/agentdb/customimages.go:611-683 | a row not hard deleted stays what was burned, reaped at its first tombstone's time and resumed at its last launch's |
| ImageNumbers.DeleteReissuesHighest | go/agentdb/customimages.go:174-179 | the highest version is hard deleted and the next burn takes its number again |
| ImageNumbers.DeletedHeldIsReissued | go/agentdb/customimages.go:174-420 | a held number that is not the highest is burned by another, hard deleted, and landed again |
| ImageNumbers.DeleteFloatsBack | go/agentdb/customimages.go:174-580 | after a hard delete of the highest version a floating reference resolves to the one below |
| Images.CatalogueStore.MarkReaped | go/agentdb/customimages.go:611-637 | the record survives, a second tombstone keeps the first one's time, and a missing version is an error |
| ImageRefs.PrintThenParse | go/agentdb/customimages.go:232-266 | a valid reference prints and parses back to itself |
| ImageRefs.ParsePrintIsFixed | go/agentdb/customimages.go:232-266 | for every text that parses, printing and parsing again changes nothing |
| ImageRefs.NameIs | go/agentdb/customimages.go:205-212 | an image name is at most 255 lower case letters, digits, periods, hyphens and underscores, a letter or digit at both ends |
| ImageRefs.ReferenceMeans | go/agentdb/customimages.go:245-266 | a name, or a name, a colon and a number, which a plus sign and zeros may precede, is read as just that, and refused below 1 |
| ImageRefs.ParsedIsReference | go/agentdb/customimages.go:245-266 | nothing else parses, and each refusal says what was wrong |
| SnapshotReaper.DueMeansBothPassed | go/snapshot_reaper.go:246-265 | an image is due exactly when an expiry was stamped and both it and the last use's window have passed |
| SnapshotReaper.Reaper.ReapOneImage | go/snapshot_reaper.go:268-286 | bytes first, then the record, stopping where a call fails or the crash comes |
| SnapshotReaper.Reaper.ReapProject | go/snapshot_reaper.go:187-244 | over what the query answers, with launches before every visit, the pass is the listed copies one by one; without a retention window nothing is listed |
| SnapshotReaperTheorems.NeverOrphaned | go/snapshot_reaper.go:187-286 | over any history of burns, launches and passes, with launches during the passes and failures and crashes anywhere, no tombstoned image owns bytes |
| SnapshotReaperTheorems.ReceiptAddsUp | go/snapshot_reaper.go:187-244 | Scanned is Reaped plus Kept plus Deferred plus errors |
| SnapshotReaperTheorems.DueListedIff | go/snapshot_reaper.go:203-211 | a due image burned under a longer retention is always listed, under the same one a second after its expiry, under a shorter one only when it is older than the present window |
| SnapshotReaperTheorems.PassOnlyDue | go/snapshot_reaper.go:187-286 | a pass tombstones, and deletes bytes of, only images that were due as they were listed; all else of a row changes only by a launch |
| SnapshotReaperTheorems.RemovedWasDueIff | go/snapshot_reaper.go:206-228 | such an image is still due when the pass gets to it exactly if the last launch from it since the listing, if any, is a window old |
| SnapshotReaperTheorems.LaunchAfterListingIsNoReprieve | go/snapshot_reaper.go:206-228 | an image launched from after the listing, at that moment, is removed all the same |
| SnapshotReaperTheorems.CompletePassReapsAll | go/snapshot_reaper.go:187-286 | a pass that is not interrupted tombstones every due image of the project created before the cutoff, leaves none of their bytes, and reports no error, also where an earlier pass stopped half way |
| SnapshotReaperTheorems.PassTombstones | go/snapshot_reaper.go:213-286 | row by row: tombstoned, at the pass's time, exactly the listed images that were due and on which nothing failed |
| SnapshotReaperTheorems.ReceiptSays | go/snapshot_reaper.go:213-244 | Kept counts the listed images not expired, Deferred the expired ones in use, errors the due ones on which something failed, Reaped the rest |
| SnapshotReaperTheorems.PassLeavesOthers | go/snapshot_reaper.go:203-228 | another project's images, those already tombstoned and those created within the window are untouched |
| SnapshotReaperTheorems.PassCalls | go/snapshot_reaper.go:268-286 | the crash comes exactly where fewer calls are left than the bytes and tombstones of the due images take |
| Attention.Store.CreateRequest | go/agentdb/attention.go:98-138 | records the request and stamps the session where it is the project's own, or refuses and changes nothing |
| Attention.Store.Resolve | go/agentdb/attention.go:240-273 | closes an open request; with no other open on the session the stamp goes, and an answer settles the parked deliveries |
| Attention.Store.AnswerSession | go/agentdb/attention.go:295-318 | the loop over the open requests, one resolution each, ends in the state described at once, and counts them |
| AttentionTheorems.RunKeeps | go/agentdb/attention.go:98-318 | over any run no request is both answered and timed out, and a stamped session has an open request |
| AttentionTheorems.EndIsAsRecorded | go/agentdb/attention.go:240-318 | over any run, a request that bears an answer's instant was answered by an event of that instant that reaches it, one that bears a timeout's was timed out |
| AttentionTheorems.EventEnds | go/agentdb/attention.go:240-318 | and these events end what they reach |
| AttentionTheorems.AskOpens | go/agentdb/attention.go:98-138 | an ask opens its request and stamps its session exactly if that is the project's own |
| AttentionTheorems.ReplyCloses | go/agentdb/attention.go:240-318 | a reply that closes one leaves none of the project's open; stamp clear and nothing parked exactly when no other project has one open there |
| AttentionTheorems.ReplySettles | go/agentdb/attention.go:253-318 | a reply settles, at its instant, exactly the project's parked deliveries of the session, if it closes a request and no other project has one open there |
| AttentionTheorems.ReplyIsIdempotent | go/agentdb/attention.go:295-318 | repeating a reply changes nothing |
| AttentionTheorems.ReplyTouchesItsSessionOnly | go/agentdb/attention.go:295-318 | other sessions' stamps, other requests and other deliveries stay as they were |
| AttentionTheorems.OpenRequestKeepsParked | go/agentdb/attention.go:240-318 | while one request of a session stays open, a notice or another project's included, nothing that happens moves a parked delivery of it |
| AttentionTheorems.TimeoutOfLast | go/agentdb/attention.go:264-272 | a timeout of the last open request clears the stamp and moves no delivery |
| AttentionTheorems.TimeoutLeavesParked | go/agentdb/attention.go:240-318 | with nothing open, no later reply, acknowledgement or timeout moves a parked delivery until a new request is made |
| Truncation.CapBriefing | go/compose.go:309-318 | of valid UTF-8 over the cap, keeps a valid prefix within the cap and above the cap less 4, and no longer valid prefix fits; shorter text is kept whole |
| Truncation.PrefixValidIff | go/compose.go:303-316 | a prefix of valid text is valid exactly where the next byte starts a character |
| Utf8.EncodedIsValid | go/compose.go:303-318 | every text of characters, in the encoding of section 3 of RFC 3629, is valid |
| Utf8.ValidIsEncoded | go/compose.go:303-318 | every valid text is the encoding of some characters, so what is kept are whole ones |

## Left out

- CreateDestroyTheorems.LiveContainerIsAnsweredFor: proved for attempts that begin with nothing of their session in flight or running; the two runs show why a Destroy in flight is excluded, and the converse is not stated.
- Recreate.DeliveredKeepsContainer: proved for creates of one session one after the other; the two runs show why, and the converse is not stated.
- In the archive runs, deleting a session removes its row only: the Destroy that goes with it is in the create and destroy model.
- Hard deletes during a reaper's pass: a row that is gone is an error of the pass, and none goes in its histories.
- Shared-tenancy workers: `CreateSession`, `Destroy` and `Snapshot` are modelled for per-session containers.
- `lastActivity` and progress entries in the runner's lock-protected blocks: no decision modelled here reads them.
- HTTP, SSE, Docker, registries and blob stores: abstract calls that succeed or fail.
- Image pulls, MCP configuration, composition and token issue inside `CreateSession`: one step that may fail.
- The SQL column name check of `LabelSelector.SQL`: the column is fixed.
- Row timestamps in the fold and in reverts: payloads are marshalled before the automatic timestamps are set.
- Field validation of workers, schedules and settings on a revert: the payloads it writes forward came from validated rows.
- Schedules, workers and settings under concurrency: the concurrent seam is modelled on subscriptions, the others one call at a time.
- The post-commit hook and the emission watermark of the configuration log.
- Event ids in the concurrent seam: taken to be unique; the sequential model has the duplicate-id error.
- Skills by revision, the exempt runtime writes and `UpsertCustomImage` on versioned rows in the fold and the catalogue.
- Embeddings, full-text and vector ranking of memories; ids are numbers whose order stands for the order of texts.
- `ListOrphanBlobPaths`, dataset listings and catalogue listings.
- Stream claims and turn ids across processes: query ids repeat after a restart, and the attach theorem is about the id as text.
- Tool argument and outcome digests in transcripts: the walk takes them as given.
- Delivery claims and the other delivery transitions: only parked and settled matter here.
- `BuildBriefingSections` and the rest of prompt composition; the truncation marker is the boolean beside the kept bytes.
- Git projection, connection credentials, leases, fleet placement, the router and the dispatcher, and all TypeScript.
