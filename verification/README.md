# Verified model of the session, memory and confirm protocols

A Dafny model of the parts of the system whose correctness is hard to see from one function: the
incremental caches that must agree with a full recomputation, the once-only protocols that many requests
run at the same time, and the budgeted assembly of prompts and transcripts. `dafny verify dfyconfig.toml`
checks the whole project.

How the model is built:

- **Shared state machines.** Confirm/cancel, idempotency keys, turn leases, the event log, linked runs and
  speech requests are modelled as a `State`, a partial function `Step(s, event)` with one event per atomic
  step (one lock section, one read or write of a shared table, the code between two awaits), and a function
  `Run` over event sequences. Each has an inductive invariant `Inv`, a `StepKeeps`/`RunKeeps` pair, and the
  promises over all runs as lemmas. The objects that the source updates in place are classes whose methods
  are proved to perform exactly the state change that `Step` uses.
- **Loops.** The planners, validators, fills, prunings and readers are methods with loops, each proved against
  a specification function or an exact (if and only if) condition, about which the lemmas then speak.
- **Oracles.** Token costs, tokenizers, text patterns, serialised sizes and the model's answers are function
  parameters. Hashes are modelled by the data they are taken over, which is what an injective hash gives.

## Results

**Semantic cache** (`SemanticHistory`, `SemanticMemory`, `SemanticPlan`, `SemanticCycle`, `Numbers`). Whatever a
run of prepare, accept and persist leaves on disk, with plans in flight and the history growing in between,
is re-accepted whole by a plan-mode load as long as no newer correction appears; after arbitrary growth it is
re-accepted exactly when no newer correction lies behind its cursor. Retained segments quote of every
message exactly the part from the first retained position to the cursor, so complete coverage means full
text, and the prompt prefix that is replaced holds only covered messages. A plan is the largest range that
fits, up to backing off to a number, and planning a fixed history ends. Every accepted quote is the cited
original and cuts no number of it, every number of an accepted item is a whole number of a cited message, and an
item counts as the assistant's exactly if it cites the assistant; so it is of every item of every stored cache.
A first plan begins at the newest correction and quotes nothing of what that replaced.

**Confirm and cancel** (`ConfirmGate`, `ConfirmSafety`, `ConfirmResults`). One Team B run at a time and none twice for
one plan; a stored result stands, and is what repeats are told, until a cancel or a revision; at most two
requests wait. Reads and writes of the session table are separate steps here, so a cancel may land anywhere. A
cancel between the running mark and the check behind the run is final. In general, revisions aside, a cancelled
session stays cancelled if and only if no request stands between its last look at the state and the write it
decided on; `AcknowledgedCancelLost` is a run in which a cancel was acknowledged and Team B runs nevertheless.

**Idempotency keys** (`Idempotency`). The refcounted lock map gives mutual exclusion and holds exactly the keys in use;
a run that succeeds stores its response, and while that is fresh, no further run of its key starts, and every request
whose lookup succeeds is answered from it. A failed run stores nothing.

**Turns** (`Turns`). One lease per session, released only by the end of its run; a turn has one terminal state; an
accepted cancel ends as cancelled exactly if the lease was started; what is sealed without a cancel is what is recorded,
and a producer that breaks off is recorded as failed. `CancelBeforeStartEndsDone` shows the other
case: a turn that is cancelled and torn down before its producer starts is recorded as done.

**Event log** (`LiveLog`). Numbers are 1..n, nothing follows the end, the file is the log without the lines whose write
failed, and a follower that stops and resumes sees every event once and in order.

**Linked runs** (`WebLink`, `WebRetention`). Slots, users and locks are accounted for exactly; a slot and a session's lock are
given back once, after all workers are idle; no job of a session in use is removed; with nobody inside, all
retention limits hold from the first release on. What stays are the newest: with a job every later one of its session,
with a demo session every later one, stated on job numbers and times.

**Speech** (`AsrService`). One process at a time, reaped before the slot is free, and after a cancel is answered no
process of that id is alive and none starts until the id has been forgotten. A job that a cancel stopped still
delivers its result exactly if the cancel came while the finished job was being cleaned up (`LateCancelDelivers`).

**Prompt assembly** (`ContextBudget`, `DraftMaterial`). Reported costs are the real costs; the final check never rejects a
prepared request; every choice is the greedy one, and nothing is dropped if and only if everything fits under the limits.
Every message of the given history is in the request or counted as folded, and what is kept ends it in order.
Draft material stays within its budget, its pieces show pairwise disjoint ranges, every retrieved position is
shown or named, and a range is left out only if it does not fit. Over all inputs of the function neither constant of
the budget can be smaller; the hits that show it are longer than those retrieval returns.

**Retrieval** (`Retrieval`, `RetrievalSync`, `RetrievalDocuments`). Incremental synchronisation equals a rebuild after
any series of syncs, and repeating a sync changes nothing. What is stored is every document and nothing else. Chunks
cover the text; a stretch of 161 characters always lies in one chunk (one more than the overlap constant says), and at
every seam one of 162 does not.

**Task memory** (`TaskMemory`, `TaskMemoryText`). The active item of an identity holds its last stated text; superseded
items form chains that end there and never change role. Named fields are revised, section labels only add. Rendering
fits its budget, leaves a line only when it does not fit, and keeps the order of sections and lines.

**Transcript** (`TranscriptLine`, `Transcript`, `TranscriptDecode`). Over any run of appends, each cut off at any byte, the
reader gets exactly the turns whose record reached the file whole. Over arbitrary prior content, appending a turn adds
exactly that turn to what is read, except for one file that append_turn itself never leaves: an interrupted record that
is complete JSON, lacks only its line break and is exactly as long as the reader's limit is pushed over the limit by the
line break that append adds (`PaddedRecordLost`). The assumed JSON reader is shown to exist by a decoder for the written
records.

## Model

| member | source | states |
|---|---|---|
| Numbers.RunsExact | demo/semantic_memory.py:355-359 | the left-to-right scan finds exactly the maximal digit runs, in order and without overlap |
| Numbers.SliceNumberIsWhole | demo/semantic_memory.py:236-241 | a number of a slice that cuts no number of the whole text is, at the shifted place, a number of the whole text |
| Numbers.JoinedNumbers | demo/semantic_memory.py:245 | joining quotes with a line break creates no number: each number of the joined text is a number of one quote |
| SemanticHistory.RangesAreWhole | demo/semantic_memory.py:332-340 | a range ending at a message boundary rebuilds exactly the whole-message sources the planner collected |
| SemanticHistory.RangesAddCut | demo/semantic_memory.py:426-427 | appending a cut of the last message to the whole ones gives the sources of the range up to the cut |
| SemanticHistory.RangesStable | demo/semantic_memory.py:128-137 | appending messages changes neither the sources of an existing range nor the prefix of an existing cursor |
| SemanticHistory.RangeText | demo/semantic_memory.py:332-340 | the sources of a range quote from each message exactly the part of it inside the range |
| SemanticHistory.PiecesJoin | demo/semantic_memory.py:305-311 | the parts of a message in two adjacent ranges concatenate to its part in the joined range |
| SemanticHistory.NumberBoundsAt | demo/semantic_memory.py:347-361 | the bounds of a quoted message are those of its full content that touch the quoted range, also outside the planned slice |
| SemanticHistory.NumberBoundsStable | demo/semantic_memory.py:347-361 | later messages add no bounds for the sources of an earlier range |
| SemanticMemory.FoundExact | demo/semantic_memory.py:245 | the numbers the scan finds are exactly the numbers of the text |
| SemanticMemory.RefGrounded | demo/semantic_memory.py:227-241 | an accepted reference quotes the cited original text of one message and cuts no number of it |
| SemanticMemory.ItemGrounded | demo/semantic_memory.py:208-251 | every quote of an accepted item is the cited original, every number of its text is a whole number of a cited message, its sizes are within limits, and it stays unverified and counts as the assistant's if and only if it cites a message of the assistant |
| SemanticMemory.LoadedGrounded | demo/semantic_memory.py:208-251 | all of that holds of every item of a cache that loads, against the history it loads with |
| SemanticMemory.FiguresExactly | demo/semantic_memory.py:254-268 | retained_coverage_complete means nothing skipped, nothing evicted and nothing eligible behind the cursor; covered counts the whole messages between origin and cursor |
| SemanticMemory.PendingExactly | demo/semantic_memory.py:287-291 | a correction is pending if and only if its last character lies behind the cursor |
| SemanticMemory.SegmentsOk | demo/semantic_memory.py:298-311 | the loop accepts exactly segments that each revalidate and tile without gap or overlap |
| SemanticMemory.Load | demo/semantic_memory.py:271-318 | a cache is returned, with refreshed figures, if and only if every check holds |
| SemanticMemory.BaseStable | demo/semantic_memory.py:280-313 | all checks that do not concern corrections survive any growth of the history |
| SemanticMemory.ReloadAfterGrowth | demo/semantic_memory.py:287-291 | after any growth a loadable cache loads if and only if no newer correction lies behind its cursor, or a plan extends it and the correction is its own boundary |
| SemanticPlan.CheckHistory | demo/semantic_memory.py:97-111 | accepts exactly histories of stored messages with unique ids |
| SemanticPlan.LargestCut | demo/semantic_memory.py:405-413 | the binary search returns a fitting prefix, and under a monotone cost no longer one fits |
| SemanticPlan.BackOffNumber | demo/semantic_memory.py:414-424 | the cut stays unless a number that begins behind the start would be split; then it moves to that number's start and still advances |
| SemanticPlan.CostToMonotone | demo/semantic_memory.py:401-410 | under a monotone request cost a longer range from the same start never costs less |
| SemanticPlan.NothingBeyond | demo/semantic_memory.py:401-413 | once a message does not fit whole and no longer cut of it fits, no later cursor fits |
| SemanticPlan.TakeCut | demo/semantic_memory.py:405-428 | the last message contributes its largest fitting prefix, backed off to a number boundary, and the sources are those of the resulting range |
| SemanticPlan.PlanRange | demo/semantic_memory.py:395-428 | the planned sources are the range from start to end, and end is the largest fitting cursor up to the number boundary |
| SemanticCycle.StartCache | demo/semantic_memory.py:380-394 | planning starts from the stored cache if it loads, else from the newest correction, and that cache's segments reach its cursor |
| SemanticCycle.RecentStays | demo/semantic_memory.py:383-386 | the newest keep_recent messages are never eligible; nothing is planned while there is no older message or the newest correction is among the recent ones |
| SemanticCycle.Prepare | demo/semantic_memory.py:369-442 | refuses exactly bad arguments or history; a plan continues a cache that loads at its cursor with its segments, and otherwise begins at the newest correction with the skip counts of that place; every source quotes its message within the eligible part, and a first plan quotes nothing before the correction; under a monotone cost a plan is within the budget and the largest fit; no plan means blocked, nothing left or nothing fits |
| SemanticCycle.Accept | demo/semantic_memory.py:449-474 | an answer is accepted exactly when valid and storable, with the fewest oldest segments evicted; the cache then holds the kept segments and the accepted items under the planned range, loads again, and all its items are grounded in the history, trust included |
| SemanticCycle.AcceptedLoads | demo/semantic_memory.py:462-474 | an accepted cache, after any eviction, passes every check of a plan-mode load |
| SemanticCycle.CacheFile.Persist | demo/semantic_memory.py:477-488 | the file is replaced exactly when it is still the one the plan was made against |
| SemanticCycle.CycleStep | demo/semantic_memory.py:369-488 | one step of growth, planning, accepting or writing keeps every stored and pending cache loadable and every plan valid |
| SemanticCycle.StoredCacheAlwaysReloads | demo/semantic_memory.py:271-318 | after any run with plans in flight and a growing history the stored cache is re-accepted by a plan-mode load |
| SemanticCycle.TaskCacheReloads | demo/semantic_memory.py:271-318 | so it is from the start of every task, with no readable cache and nothing in flight, and every item of every stored segment is grounded in the history of that moment |
| SemanticCycle.SegmentsTile | demo/semantic_memory.py:298-313 | the retained segments together quote of every message exactly its part from the first retained position to the cursor |
| SemanticCycle.CompleteCoverage | demo/semantic_memory.py:254-268 | retained_coverage_complete implies that the retained sources of every eligible message concatenate to its full text |
| SemanticCycle.DropsOnlyCovered | demo/chat_service.py:418-429 | every message of the replaced prompt prefix is fully quoted and is not among the newest four stored ones |
| SemanticCycle.DropsAllButFour | demo/chat_service.py:418-429 | a complete summary replaces all messages but the newest four |
| SemanticCycle.RemainingDrops | demo/semantic_memory.py:429-430 | a cursor that advances strictly decreases the text still to plan |
| SemanticCycle.PlanningTerminates | demo/semantic_memory.py:369-442 | successive plans over a fixed history are at most as many as its characters and message ends |
| ConfirmGate.SessionLock.TryAcquire | gateway/app.py:1371-1372 | takes the lock exactly when it is free |
| ConfirmGate.SessionLock.Enqueue | gateway/app.py:1373-1376 | admits a waiter exactly while fewer than two wait |
| ConfirmGate.SessionLock.Dequeue | gateway/app.py:1379-1381 | one waiter less, nothing else changed |
| ConfirmGate.SessionLock.Release | gateway/app.py:1455-1457 | frees the lock and keeps the waiters |
| ConfirmGate.SessionTable.Store | gateway/app.py:1342-1346 | files the state under the session and, when it has one, under its run_id alias, leaving other keys alone |
| ConfirmSafety.AliasResolves | gateway/app.py:1342-1355 | in every reachable table the run_id alias and the session id resolve to the same session |
| ConfirmSafety.StepKeeps | gateway/app.py:1358-1578 | every atomic step of any request keeps the invariant on table, lock, waiters, results and what each request has read |
| ConfirmSafety.RunKeeps | gateway/app.py:1358-1616 | so does every interleaving |
| ConfirmResults.OneTeamBAtATime | gateway/app.py:1387-1407 | in every run at most one request of the session is in Team B |
| ConfirmResults.EachPlanOnce | gateway/app.py:1410-1419 | no plan is run to completion twice, so completed runs never outnumber plans |
| ConfirmResults.FewWait | gateway/app.py:1373-1381 | at most two requests wait behind the holder |
| ConfirmResults.AnswersAgree | gateway/app.py:1420-1426 | whoever is told a result, first or repeated, is told what the plan's one run returned |
| ConfirmResults.RepeatRunsNothing | gateway/app.py:1503-1505 | a confirm or resume that has read a finished state changes neither sessions nor runs in any continuation, and the only answer it can give is the stored result |
| ConfirmResults.ResultStands | gateway/app.py:1567-1578 | once a result is stored, the gate answers every confirm or resume of every continuation without a revision with exactly it, until a cancel |
| ConfirmResults.CancelFinalExactly | gateway/app.py:1471-1488 | a cancelled session stays cancelled under every continuation without a revision if and only if no request is between its last look and its write |
| ConfirmResults.RevisionReopens | gateway/app.py:1490-1498 | a revision of any session, cancelled or finished ones included, leaves it awaiting confirmation of a new plan that has not run, under both its names |
| ConfirmResults.CancelDuringTeamB | gateway/app.py:1387-1407 | a cancel written between the running mark and the check behind the run is final and the run's request will see it |
| ConfirmResults.CheckSeesTheCancel | gateway/app.py:1402-1407 | a result is adopted exactly when no cancel was written between the mark and the check |
| ConfirmResults.ExceptionRestoresWaiting | gateway/app.py:1394-1401 | a Team B exception without a cancel restores the waiting state with the same plan, which can be confirmed again |
| ConfirmResults.AcknowledgedCancelLost | gateway/app.py:1503-1556 | a concrete run: a cancel acknowledged between gate and running mark is overwritten and Team B runs |
| ConfirmResults.AnswersMean | gateway/app.py:1387-1430 | what each answer says of the session when it is decided: refused, replayed, completed, cancelled meanwhile, failed and waiting again, revised |
| ConfirmResults.BusyExactly | gateway/app.py:1371-1377 | a request that does not get the lock is turned away at once if and only if two others wait |
| ConfirmResults.WaitEnds | gateway/app.py:1378-1384 | a waiting request gets the free lock, or is turned away when its time is over |
| ConfirmResults.WaitingPasses | gateway/app.py:1410-1419 | a request that reads a waiting session is marked as running unless the checks of a confirm refuse |
| ConfirmResults.RunCompletes | gateway/app.py:1556-1578 | undisturbed from the mark on, the session is done after a clean run and needs a revision after another, and the answer and the session have the run's result |
| Idempotency.LockMap.Enter | gateway/idempotency.py:167-172 | one more user of the key's lock, a new one if nobody uses the key |
| Idempotency.LockMap.Leave | gateway/idempotency.py:174-181 | one user less; the last one removes the entry |
| Idempotency.RunKeeps | gateway/idempotency.py:163-213 | every interleaving of requests, disconnects, failing lookups and failing runs keeps the lock map exact |
| Idempotency.MutualExclusion | gateway/idempotency.py:195-213 | two requests inside the lock of one key are the same request |
| Idempotency.LockMapExact | gateway/idempotency.py:163-213 | an entry exists iff the key has users, counts exactly the requests inside, they all share its lock, and one of them at most holds it |
| Idempotency.FreshStays | gateway/idempotency.py:112-132 | a fresh stored response survives every step and no step starts a run of its key |
| Idempotency.NoSecondRun | gateway/idempotency.py:261-304 | within the time to live, once a response is stored no further run of its key starts in any continuation |
| Idempotency.LookupDecides | gateway/idempotency.py:262-274 | a request runs exactly if its lookup succeeds and nothing fresh is stored; else it gets the stored response for the same body and a refusal for another; a failed lookup runs nothing and gives the lock back |
| Idempotency.StoredIsReplayed | gateway/idempotency.py:146-155 | right after it is stored a response is what the same body gets, and no other key's answer changes |
| Idempotency.SuccessIsStored | gateway/idempotency.py:298-304 | a run that succeeds stores its response under its key and body with the time of storing, whatever other requests do between the two steps |
| Idempotency.StoredServesAll | gateway/idempotency.py:262-274 | from a stored response on and within the time to live, no run of the key starts in any continuation, and every request of the key whose lookup succeeds gets that response for the same body and a refusal for another |
| Idempotency.SuccessServesAll | gateway/idempotency.py:261-304 | both together: so it is from every success on |
| Idempotency.OutcomeStands | gateway/idempotency.py:174-213 | an outcome once decided is the one the request ends with |
| Idempotency.FailureStoresNothing | gateway/idempotency.py:298-304 | a run that raises or whose response is not to be kept leaves the store unchanged and ends as what it was |
| Idempotency.StoringExpires | gateway/idempotency.py:112-132 | storing removes exactly the expired rows and adds its own |
| Turns.TurnControl.RequestCancel | demo/turn_control.py:36-50 | refused exactly on a terminal turn, changing nothing; otherwise sets the event, keeps the first reason and returns the closers newest first |
| Turns.TurnControl.Seal | demo/turn_control.py:52-57 | a result other than cancelled is refused exactly after a cancel; otherwise it becomes the state |
| Turns.Registry.Acquire | demo/chat_service.py:105-120 | a lease is made exactly when neither registry knows the session, and both then do |
| Turns.SessionLease.Begin | demo/chat_service.py:122-126 | performs the start step: refused exactly once the lease is released |
| Turns.SessionLease.Release | demo/chat_service.py:128-134 | performs the release step: nothing while running, otherwise the session is given back once |
| Turns.SessionLease.Finish | demo/chat_service.py:136-142 | performs the last two steps of a producer |
| Turns.RunKeeps | demo/turn_control.py:36-103 | every interleaving of leases, producers, cancels, teardowns and timeouts keeps the invariant |
| Turns.OneTerminalState | demo/turn_control.py:52-57 | once a turn is terminal its state and event never change, and its recorded label is that state |
| Turns.AcceptedCancelIsFinal | demo/turn_control.py:36-50 | after an accepted cancel the turn never becomes done or failed, ends cancelled, and is recorded cancelled iff it was started |
| Turns.LabelExactly | demo/chat_service.py:128-142 | a turn is recorded cancelled iff it was started and its event was set, and a started one under its own state |
| Turns.SealedIsRecorded | demo/turn_control.py:52-57 | what a producer seals without a cancel, done or failed, is its state and label in every later run |
| Turns.BreakEndsFailed | demo/chat_service.py:1293-1314 | a producer that breaks off with nothing sealed ends and is recorded as failed, or as cancelled if its event was set by then, and never as done |
| Turns.CancelBeforeStartEndsDone | demo/chat_service.py:128-134 | a concrete run: a cancel accepted before the producer starts, then teardown, is recorded as done |
| Turns.RefusedChangesNothing | demo/turn_control.py:36-50 | a request is refused iff the turn has ended, and a refused one changes nothing else |
| Turns.DoneWasNeverCancelled | demo/turn_control.py:52-57 | done or failed implies that the event was never set and no cancel of that turn was accepted |
| Turns.EventOnlyByRequest | demo/turn_control.py:36-50 | the event is set only by an accepted request or by the limit on a detached turn |
| Turns.OneLeasePerSession | demo/chat_service.py:105-134 | _ACTIVE equals the keys of _TURNS, and two unreleased leases never share a session |
| Turns.OnlyFinishEndsARun | demo/chat_service.py:128-142 | a running lease cannot be released or doubled by anything; it stops running only in finish and under a terminal state |
| Turns.FinalizerEnds | demo/chat_service.py:1293-1314 | from its start the finalizer needs at most seven own steps, a producer stopped by a cancel is sealed cancelled at its next step, no step of anybody else undoes progress, and its end is released under a terminal label |
| LiveLog.Deliver | demo/chat_service.py:1226-1228 | of one batch exactly the events above the follower's position are delivered |
| LiveLog.LiveTable.EvictOldest | demo/chat_service.py:1083-1086 | the oldest entries leave until one place is free, the rest is unchanged |
| LiveLog.LiveTable.BeginTurn | demo/chat_service.py:1073-1093 | the session's new record replaces its old one, dropped records lose their file, and the table stays within its limit |
| LiveLog.LiveTable.NoteEvent | demo/chat_service.py:1096-1124 | numbers and logs the event in the session's current record exactly when it is a logged kind and the record is not done |
| LiveLog.RunKeeps | demo/chat_service.py:1073-1230 | every interleaving of producers, followers, evictions and restarts keeps the invariant |
| LiveLog.NumberedAndFinal | demo/chat_service.py:1096-1124 | sequence numbers are 1..n, an error or done event is last, and a done log never changes again |
| LiveLog.FileIsLogIffNothingLost | demo/chat_service.py:1109-1119 | the file holds exactly the events whose write succeeded, and equals the log iff no write failed |
| LiveLog.FileExact | demo/chat_service.py:1203-1214 | a reader of the file gets the same as from memory iff every lost number is at or below its position |
| LiveLog.FollowerSeesExactly | demo/chat_service.py:1184-1230 | a follower has seen, in order and once each, a prefix of the events after its position, and all of them once it has ended |
| LiveLog.ResumeIsExact | demo/chat_service.py:1184-1191 | stopping after m events and resuming from the last number gives in total exactly the logged events |
| LiveLog.EndsOnceDone | demo/chat_service.py:1215-1230 | a live follower can always poll, then has everything, and ends exactly when the log is done, as it is once the producer is closing |
| LiveLog.NoteReachesOwnRecord | demo/chat_service.py:1096-1124 | every event but a heartbeat is appended to the record of the turn that holds the session, unless that record is done or evicted, and to no other; it is in the file iff its write succeeds, and the log is done after it iff it is an error or the end |
| LiveLog.NobodyEvicted | demo/chat_service.py:1083-1086 | a new turn evicts nobody iff the table has a free place, as always with at most 256 sessions |
| WebRetention.LinkFolders.RemoveOldDemos | gateway/web_link.py:350-353 | removes exactly the unprotected demo sessions that are not among the five latest |
| WebRetention.LinkFolders.LimitSessions | gateway/web_link.py:354-362 | keeps the ten newest jobs of every unprotected session and returns all jobs left |
| WebRetention.LinkFolders.LimitTotal | gateway/web_link.py:363-366 | of the unprotected sessions' jobs keeps exactly those among the 200 newest of all |
| WebRetention.LinkFolders.RemoveEmpty | gateway/web_link.py:367-374 | removes exactly the empty unprotected upload folders |
| WebRetention.LinkFolders.PruneIdle | gateway/web_link.py:344-374 | the four stages in order, of which the rows below say what stays |
| WebRetention.NewestSize | gateway/web_link.py:350-364 | the newest n of a set are min(n, size) many |
| WebRetention.ProtectedKept | gateway/web_link.py:348 | nothing of a protected session is touched |
| WebRetention.IdleSessionWithinLimit | gateway/web_link.py:336-374 | an unprotected session keeps at most ten jobs and no empty upload folder |
| WebRetention.AllIdleWithinLimits | gateway/web_link.py:336-374 | with nobody protected all three limits hold |
| WebRetention.NewestSurvive | gateway/web_link.py:354-366 | when a job is kept, so is every later job that is among its own session's ten newest |
| WebRetention.DemosByTime | gateway/web_link.py:350-353 | an unprotected demo session goes if five are later and stays if fewer than five others are at least as late |
| WebRetention.LaterDemoStays | gateway/web_link.py:350-353 | when an unprotected demo session stays, so does every later one |
| WebRetention.OwnTen | gateway/web_link.py:357-362 | a job is among the ten kept of its session iff fewer than ten of the session are later |
| WebRetention.LaterJobStays | gateway/web_link.py:354-366 | when a job of an unprotected session is kept, so is every later job of it |
| WebRetention.LaterJobElsewhereStays | gateway/web_link.py:354-366 | and so is every later job of any other session that stays and has fewer than ten later ones |
| WebRetention.StaysUnlessOld | gateway/web_link.py:354-366 | a job stays if fewer than ten of its session are later and at most 200 of all are at least as late (itself included), and goes if ten of its session are later |
| WebRetention.PruneIdempotent | gateway/web_link.py:336-374 | within the limits nothing is removed, so pruning an idle root twice is pruning it once |
| WebLink.LinkRuns.TryAcquire | gateway/web_link.py:504-505 | takes a slot exactly when one is free |
| WebLink.LinkRuns.Register | gateway/web_link.py:507-511 | refused exactly while the session drains; otherwise one more user and the session's one lock |
| WebLink.LinkRuns.Leave | gateway/web_link.py:529-541 | one user less, the last one takes the lock along, and pruning spares exactly the sessions still in use |
| WebLink.RunKeeps | gateway/web_link.py:501-552 | every interleaving of linked runs, refusals, timeouts and late workers keeps the invariant |
| WebLink.TablesAccounted | gateway/web_link.py:501-543 | free slots plus requests not yet released are the limit; lock map and user counts have the same keys, and each count is the number of requests inside |
| WebLink.OneWorkPerSession | gateway/web_link.py:519-527 | at most one request of a session works or drains with its lock |
| WebLink.SlotFreedOnce | gateway/web_link.py:529-543 | a slot is given back by one request that held it, once, and only after all its workers are idle |
| WebLink.LockOutlivesWorkers | gateway/web_link.py:529-534 | a session's lock changes hands only through its holder's release, after all its workers are idle |
| WebLink.JobsKept | gateway/web_link.py:344-374 | no step removes a job of a session that is in use after it |
| WebLink.UserKeepsJobs | gateway/web_link.py:336-341 | while a request is inside its session no job of the session disappears, over any run |
| WebLink.NewJobIsThere | gateway/web_link.py:311-316 | a job that a working request makes is in its session's folder beside all that was there, and no other folder changes |
| WebLink.IdleWithinLimits | gateway/web_link.py:336-341 | from any root, whenever nobody is inside any session: all retention limits hold if any request has ever been released, and otherwise the root is unchanged |
| WebLink.DrainingAdvances | gateway/web_link.py:545-552 | a draining request advances exactly when its next worker is idle and can release after the last; refused and freed ones can give the slot back |
| AsrService.SpeechTable.Remember | demo/asr_service.py:62-66 | the id moves to the end with its new state; the oldest leave beyond 256 |
| AsrService.SpeechTable.Claim | demo/asr_service.py:156-162 | a request may run exactly when its id is not remembered and nothing is active; otherwise nothing changes |
| AsrService.SpeechTable.Free | demo/asr_service.py:210-213 | the slot is freed exactly if it is this job's; a running entry becomes cancelled or failed |
| AsrService.RememberedNewest | demo/asr_service.py:62-66 | forgetting the oldest before or after remembering makes no difference, so the table is a window of the full log |
| AsrService.RunKeeps | demo/asr_service.py:135-214 | every await-level interleaving of requests and cancels keeps the invariant |
| AsrService.SingleFlight | demo/asr_service.py:158-161 | at most one job is unfinished, and a process belongs to the active job only |
| AsrService.SlotFreedAfterReap | demo/asr_service.py:204-213 | the slot changes only from free to a started job and back, the latter by the job itself once its process is gone |
| AsrService.PriorExactly | demo/asr_service.py:68-70 | an id is remembered iff its last entry is less than 600 seconds old and fewer than 256 other ids followed it |
| AsrService.CancelIsObeyed | demo/asr_service.py:135-148 | once a cancel is answered every job of its id from before the call is over without a process; every later job of the id, finished or not, started only after the id, remembered at the latest by the call, was forgotten: 600 seconds or 256 other ids later |
| AsrService.DeliveredExactlyIfLate | demo/asr_service.py:192-205 | a job that a cancel stopped still delivers its result iff the cancel came after the last check of the job |
| AsrService.LateCancelDelivers | demo/asr_service.py:135-142 | a concrete run: a cancel is answered as cancelled and the job delivers its result |
| AsrService.DeliveredIsRemembered | demo/asr_service.py:191-193 | a delivered result is remembered as completed from that step on, for 600 seconds and until 256 other ids have followed, unless the id is cancelled or used again |
| AsrService.UndeliveredIsRemembered | demo/asr_service.py:208-210 | a job that ends with its id still marked running is remembered as cancelled iff it was cancelled and else as failed |
| AsrService.CancelledStops | demo/asr_service.py:171-187 | a job that is cancelled, or whose client leaves, before it has its answer goes to its end undelivered at its next step |
| AsrService.IdleCancelForgetsNothing | demo/asr_service.py:143-148 | cancelling an id that is remembered and not running changes nothing |
| ContextBudget.ReadPolicy | demo/context.py:75-102 | the limits, the percentage and the window for every combination of runtime limits and environment entries, absent, invalid and out of range ones included, with the soft threshold below the usable budget |
| ContextBudget.KeepRecent | demo/context.py:262-272 | the longest newest suffix of old turns within window and budget, with its exact cost |
| ContextBudget.ChooseSources | demo/context.py:274-283 | each source block is taken exactly if it fits after the blocks taken before it |
| ContextBudget.TakeMemory | demo/context.py:251-257 | the memory block is omitted exactly if it does not fit |
| ContextBudget.KeepOlder | demo/context.py:284-292 | older turns are added without a gap until the next one would exceed the soft threshold |
| ContextBudget.PrepareRequest | demo/context.py:227-299 | refuses exactly when the mandatory part does not fit; otherwise messages, report and choices are exact, used is the real cost of the request, and validate_request accepts it; the rows below say what that is in terms of the history |
| ContextBudget.EndsWithNewestTurns | demo/context.py:240-244 | the request ends with the kept turns verbatim, a contiguous suffix that contains everything from the newest user message on |
| ContextBudget.OmittedSourceDoesNotFit | demo/context.py:275-283 | a source left out would not fit beside the finished request either |
| ContextBudget.NothingDroppedIff | demo/context.py:165-171 | nothing is folded or omitted if and only if everything together fits, and the old turns fit the window or the soft threshold |
| ContextBudget.HistoryAccounted | demo/context.py:239-244 | of the given history: folded and kept are together its messages that are neither system nor developer messages, the last kept ones end the request index by index, all system and developer messages are in it in order, and when nothing is dropped so is every message |
| ContextBudget.SplitKeepsAll | demo/context.py:239-241 | system messages and turns of a history are together all its messages |
| ContextBudget.ReferencesAre | demo/context.py:204-224 | the source blocks are exactly the sources with a text, in order, each with its own id and title |
| ContextBudget.CurrentTurnIs | demo/context.py:242-244 | the current turn is everything from the newest user message on, or the last message without one |
| ContextBudget.CostsInTokens | demo/context.py:152-163 | costs are token counts plus 8 for the request, 8 for each message and 16 for tools, within the window |
| ContextBudget.WhyFolded | demo/context.py:262-292 | the newest turn left out would pass the soft threshold and, while fewer than wanted are kept, would not fit the window even without sources; more than wanted are kept only below the soft threshold |
| ContextBudget.MemoryStands | demo/context.py:251-257 | memory that is not omitted is a system message of its own right after the system messages |
| DraftMaterial.RemainingAt | demo/session_context.py:220-223 | what remains of a range holds exactly its positions that no occupied range holds |
| DraftMaterial.RemainingInside | demo/session_context.py:220-223 | the remaining pieces lie in the range and are pairwise disjoint |
| DraftMaterial.CutSpans | demo/session_context.py:220-223 | the loop over the occupied ranges computes that remainder |
| DraftMaterial.TakePrefix | demo/session_context.py:205-214 | the prefix is what the limit leaves of the rendering, taken if and only if that reaches into the body; it is counted with its separator and occupies the range it shows |
| DraftMaterial.TakePrefixes | demo/session_context.py:203-214 | all prefixes in order, each beside those before it |
| DraftMaterial.PrefixesWithin | demo/session_context.py:208-214 | the prefixes stay within INJECT_CHARS and the room, and none is a description line without body text |
| DraftMaterial.PrefixesWholeIff | demo/session_context.py:208-213 | every upload with a body is shown whole if and only if all of them fit under the limit together |
| DraftMaterial.PrefixedOk | demo/session_context.py:203-214 | the prefixes are counted right, begin the renderings they name, and are disjoint when no upload is selected twice |
| DraftMaterial.EmitBlock | demo/session_context.py:224-231 | a remaining range goes into the omitted ones, with nothing else changed, if and only if its block does not fit; otherwise the block is appended, counted and its range occupied |
| DraftMaterial.PlaceSources | demo/session_context.py:215-231 | the draft after all hits on attachments, range by range |
| DraftMaterial.RetrievedAllOk | demo/session_context.py:215-231 | after all hits the pieces are disjoint and every retrieved position is shown or named |
| DraftMaterial.LeftOutTooLong | demo/session_context.py:226-231 | a range is left out only if it is part of a hit whose block would not fit beside all that is shown in the end, and nothing but blocks of the hits is added |
| DraftMaterial.KeepRecords | demo/session_context.py:237-240 | the longest newest suffix of records that fits, with its exact cost |
| DraftMaterial.OmissionNote | demo/session_context.py:178-189 | the note lists the first items, six at most, while they fit, and says so when there are more |
| DraftMaterial.NoteFits | demo/session_context.py:178-189 | the note takes at most 600 characters |
| DraftMaterial.Compose | demo/session_context.py:192-244 | nothing exactly when a selected upload is missing; otherwise the prefixes, then blocks of the hits, genuine and disjoint; a range is omitted only if its block does not fit; every retrieved position is shown or named; a newest contiguous run of records; the note for what is left out |
| DraftMaterial.WithinBudget | demo/session_context.py:192-202 | the whole text is at most MATERIAL_CHARS for every request the budget leaves room for |
| DraftMaterial.BudgetIsTight | demo/session_context.py:202 | for every request with room, the material of a call with three too long hits and one record that takes all the room has a note of exactly 600 and in all exactly MATERIAL_CHARS characters |
| DraftMaterial.FullMaterial | demo/session_context.py:192-244 | such a call |
| DraftMaterial.NoteIsFull | demo/session_context.py:182-189 | two items that take all the room of the note and a third that is only counted make a note of 600 characters |
| DraftMaterial.PrefixShowsItsRange | demo/session_context.py:206-214 | the range a prefix claims is the beginning of the upload's text, shown whole |
| DraftMaterial.BlockShowsItsRange | demo/session_context.py:224-225 | a labelled block shows exactly the document's text in the range whose first and last position its label spells out |
| DraftMaterial.OmissionTells | demo/session_context.py:226-241 | what the note says of a part left out spells out its range, or the number of records |
| DraftMaterial.PartsInOrder | demo/session_context.py:244 | the text is, each after the one before: the global block, the kept records from the oldest to the newest, the pieces, the note, and at its very end the request |
| Retrieval.CutChunks | demo/local_retrieval.py:78-90 | the loop produces the chunks of the specification and ends |
| Retrieval.ChunksCover | demo/local_retrieval.py:78-90 | chunks are at most 900 long, each starts 160 before the end of the one before, ends advance, and together they reach from the start to the end |
| Retrieval.StretchInOneChunk | demo/local_retrieval.py:78-90 | any stretch of at most 161 characters lies wholly inside one chunk |
| Retrieval.LongerStretchSplit | demo/local_retrieval.py:78-90 | at every seam of every text, the stretch of 162 characters that reaches one beyond the overlap on either side lies in no chunk |
| RetrievalSync.Index.Sync | demo/local_retrieval.py:201-234 | the tables after a sync, and its counts of changed and removed sources |
| RetrievalSync.SyncIsRebuild | demo/local_retrieval.py:201-234 | on a consistent index an incremental sync gives the same sources (ordinal aside) and the same chunks as a rebuild |
| RetrievalSync.SyncKeepsConsistent | demo/local_retrieval.py:205-231 | a sync leaves a consistent index: always after a rebuild, otherwise if it was one |
| RetrievalSync.SecondSyncChangesNothing | demo/local_retrieval.py:218-220 | after any sync the same sync again changes no row at all and counts nothing |
| RetrievalSync.ReachableIsRebuild | demo/local_retrieval.py:173-187 | after any series of syncs the index is what one rebuild from the last documents makes |
| RetrievalSync.EveryStretchStored | demo/local_retrieval.py:221-231 | after a sync every stretch of at most 161 characters of every document lies in a stored chunk row that holds the document's text of its range and the words of title and text |
| RetrievalSync.OnlyDocumentsStored | demo/local_retrieval.py:214-231 | every stored chunk row holds a stretch of one of the documents |
| RetrievalSync.SourcesAreDocuments | demo/local_retrieval.py:214-226 | every document has a row that describes it and no other source has one |
| RetrievalDocuments.AddRecord | demo/local_retrieval.py:105-134 | a record is accepted exactly if it is valid and all limits still hold with it |
| RetrievalDocuments.AddRecords | demo/local_retrieval.py:104-134 | the records of one kind are accepted exactly if all are valid and indexable together |
| RetrievalDocuments.Documents | demo/local_retrieval.py:93-135 | documents in order with distinct ids, exactly for a snapshot within all limits |
| RetrievalDocuments.DocumentsDescribe | demo/local_retrieval.py:104-134 | each record becomes the document in its place, with its own id, whole text and number |
| TaskMemory.Build | demo/task_memory.py:138-209 | the loop over the candidates computes the memory of the specification |
| TaskMemory.BuiltChained | demo/task_memory.py:186-204 | each identity's entry is an active item of that identity, and every superseded item links forward to one that links back |
| TaskMemory.ActiveIsLastWriter | demo/task_memory.py:189-204 | an identity has an active item iff something was stated for it, exactly one, and it holds the last stated text |
| TaskMemory.ChainEndsAtActive | demo/task_memory.py:199-203 | following superseded_by only moves to later items and ends at the active item of the identity |
| TaskMemory.OnlyOwnRoleSupersedes | demo/task_memory.py:176-188 | an item is superseded only by a statement of the same role, so no assistant or tool text replaces a user's |
| TaskMemory.SentencesStay | demo/task_memory.py:184-186 | a plain sentence or list entry is never superseded |
| TaskMemory.EveryStatementCounted | demo/task_memory.py:171-194 | every kept candidate is one mention of one item, and every one that is too long is counted as omitted |
| TaskMemory.Recorded | demo/task_memory.py:171-204 | a statement that is taken stands as an active item of its role, with its text, in the section its field or wording calls for, and its place as the newest source |
| TaskMemory.FieldRevised | demo/task_memory.py:184-204 | a named field of the user, the goal among them, has one current value: the one stated last |
| TaskMemory.LabelsAdd | demo/task_memory.py:184-186 | plain sentences and the other section labels only add: nothing that stood is superseded |
| TaskMemory.LastEightSources | demo/task_memory.py:190-194 | an item has the places of its last eight mentions |
| TaskMemoryText.Offer | demo/task_memory.py:300-304 | the next line of a section is taken exactly if it fits, with its exact extra cost |
| TaskMemoryText.Round | demo/task_memory.py:296-304 | one round gives every section that has lines left one turn |
| TaskMemoryText.Render | demo/task_memory.py:269-310 | nothing below the notice; otherwise the notice and the chosen lines within the budget, where a line is missing only if it would not fit |
| TaskMemoryText.NothingLeftIffAllFit | demo/task_memory.py:302-304 | every line is rendered if and only if all of them together fit |
| TaskMemoryText.ShownInOrder | demo/task_memory.py:305-310 | the text begins with the notice; sections follow in order, each chosen line on its own line below the title of its section, in the order of the section |
| TranscriptLine.EscapedTextBound | demo/projects.py:656-657 | JSON escaping takes at most six bytes per byte of the text and leaves no raw line break |
| TranscriptLine.LineSize | demo/projects.py:546-548 | a written record is at most six times its text plus 463 bytes and the digits of its time |
| TranscriptLine.AcceptedFits | demo/projects.py:656-657 | every accepted record is within the reader's line limit |
| TranscriptLine.BodyIsOneLine | demo/projects.py:548-558 | a written record holds no line break but its last byte |
| Transcript.SkipLine | demo/projects.py:668-672 | an oversized line is skipped exactly to its end |
| Transcript.ReadRecords | demo/projects.py:654-688 | the reader yields, line by line, a row, a damaged record or nothing for a blank line |
| Transcript.ReadFullHistory | demo/projects.py:691-720 | too large, too many, damaged (strict) or exactly the rows |
| Transcript.TranscriptFile.AppendTurn | demo/projects.py:538-560 | refused turns leave the file alone; an accepted one is appended on a line of its own behind whatever was there |
| Transcript.AppendReads | demo/projects.py:551-558 | reading after an append gives the old reading plus the new row, for every prior content, if and only if the file does not end in a readable record without line break of exactly the limit's length |
| Transcript.CutTailFits | demo/projects.py:551-558 | an append, complete or cut off at any byte, never leaves a last line as long as the reader's limit |
| Transcript.LaterAppendReads | demo/projects.py:555-558 | over any run of appends, each cut off at any byte, every later complete append adds exactly its turn to what is read |
| Transcript.CutConversationReads | demo/projects.py:538-560 | after any run of appends, each cut off at any byte, the reader gets exactly the turns whose record reached the file whole, in order |
| Transcript.ConversationReadsBack | demo/projects.py:538-560 | every conversation written from an empty file reads back turn by turn |
| TranscriptDecode.DecodesText | demo/projects.py:548 | decoding an escaped text gives the text back, whatever follows it |
| TranscriptDecode.RecordRoundTrip | demo/projects.py:675-676 | a written record decodes to its time, role and text, with and without its line break |
| TranscriptDecode.PartIsNoRecord | demo/projects.py:675-683 | no proper beginning of a written record reads as a record |
| TranscriptDecode.PaddedRecordLost | demo/projects.py:668-672 | a concrete file: a record that another writer padded to the limit is read, and is lost once append_turn has closed its line |
| TranscriptDecode.DecodeIsSound | demo/projects.py:675-688 | a reader with the properties assumed of JSON exists |

## Where code and documentation differ

- `gateway/app.py:1388` says that a cancel that lands while Team B runs wins. It does from the running mark to the check
  behind the run; between the gate and the mark, and between the check and the store, the confirm overwrites it
  (`ConfirmResults.CancelFinalExactly`).
- `gateway/app.py:1414-1415` calls a cancelled session final; a revision does not look at the phase and makes it confirmable
  again (`ConfirmResults.RevisionReopens`).
- `demo/turn_control.py:36-50` answers that a cancel was requested; a lease that is torn down before it starts is still recorded as done
  (`Turns.LabelExactly`).
- `demo/asr_service.py:142` answers that the request was cancelled; a request whose result was already accepted still returns it
  (`AsrService.DeliveredExactlyIfLate`).
- `demo/projects.py:555-556` keeps an interrupted previous record; one of exactly the limit's length, which only another
  writer can leave, is lost to the reader (`TranscriptDecode.PaddedRecordLost`, `Transcript.AppendReads`).

## Left out

- Token estimates, the tokenizer, text patterns, SQLite and full-text ranking, solvers, language models and the speech worker are oracles or steps that succeed or fail.
- HTTP routing, event-stream framing, pages, authentication and multipart parsing.
- Numbers.RunsExact: numbers are maximal runs of ASCII digits; signs, decimal points, exponents and Chinese numerals of the source's pattern are not modelled.
- Hashes (prefix, baseline, source id, fingerprint) are the data they are taken over; the seal against accidental modification of plans is not modelled.
- SemanticCycle.Prepare: the claims on the budget and on the largest fit need a cost that is monotone in the planned text, because the binary search of the source does.
- SemanticCycle.DropsOnlyCovered: assumes that the prompt history is the stored user and assistant messages, and leaves out that only a complete rendering may replace them.
- SemanticCycle.StoredCacheAlwaysReloads: growth keeps the newest correction; what a newer correction does is stated by SemanticMemory.ReloadAfterGrowth.
- ConfirmResults.EachPlanOnce: speaks of one session; packing_plan_id lookups, disk checkpoints and missing sessions are not modelled, and the checklist gates are one choice that may refuse.
- ConfirmSafety.StepKeeps: a Team B run that returns leaves the session done or in need of revision.
- Idempotency.StoredIsReplayed: a response that is too large or whose store fails is not stored, which is one choice; the clock never goes back.
- Turns.FinalizerEnds: the on-disk state file, the queue that delivers events and the interruption of transports are not modelled, nor is a failure between the start of a lease and the start of its thread.
- The table of the 256 last finished turns and its eviction.
- LiveLog.FollowerSeesExactly: needs that no write failed below the follower's position when it reads the file; followers of a running turn that is evicted from memory are followed no further.
- LiveLog.LiveTable.BeginTurn: opening the file, replacing the record and writing the latest pointer are one step, a file write is one step that succeeds or fails, and turn ids are fresh.
- WebLink.DrainingAdvances: each worker reports idle once; the choice of the previous record is not modelled.
- WebRetention.LinkFolders.PruneIdle: a removal always succeeds and leaves the times of other folders alone; job ids of one session are distinct.
- AsrService.CancelIsObeyed: tasks are not cancelled from outside while they await; prepare, status and shutdown are not modelled, and timeouts are choices.
- ContextBudget.PrepareRequest: the texts and the zone of the report are not modelled.
- DraftMaterial.WithinBudget: leaves out the final strip, which only shortens, and assumes that the number of omitted parts has at most 571 digits.
- DraftMaterial.Compose: selected ids are distinct and hits run forward for the disjointness claim; the reference blocks are given.
- RetrievalSync.SyncIsRebuild: the ordinal column is set aside, and the retry on a corrupt database and schema versions are not modelled.
- TaskMemory.Build: starts from the extracted candidates; item ids are positions in order of creation, and confirmation and sensitive-text filters belong to the extractor.
- TaskMemoryText.Render: starts from the lines of each section in order; their sorting and wording are not modelled.
- Transcript.ReadFullHistory: message ids, including the replacement of missing and repeated ones, and the bounded tail of the page are not modelled.
- TranscriptLine.AcceptedFits: holds for times of up to 1585 digits.
