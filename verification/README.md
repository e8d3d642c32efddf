# Rojo, verified

A Dafny model of the parts of Rojo (a service that takes a software job, works on it in isolated git
worktrees and returns a checked patch) whose correctness is not visible in any one function, with
proofs of what they keep. `dafny verify dfyconfig.toml` checks the whole project.

The collaborators of the code (planner, implementor, verifier, reviewer, git, store, bus, file system)
are arbitrary: at every call they may succeed, return an error or panic, and their answers are
nondeterministic. The contracts hold for all of that.

| file | what it models |
|---|---|
| `Jobs.dfy` | statuses, the transition table, `Job.Transition`, the work list as a path through the table |
| `Trace.dfy`, `World.dfy` | the effects of one run, the summary of them, and the environment that leaves them |
| `Fanout.dfy`, `Processor.dfy` | `Process`: fan-out, gate, review, revision, deferred exits, cancel, deadline, panic |
| `PipelineClaims.dfy`, `DeadAttempt.dfy` | what the contract of `Process` says about the trace of a run, effect by effect, and when a job may return a dead attempt |
| `GateInterleaving.dfy` | the concurrent verification goroutines, step by step |
| `Verification.dfy` | `Runner.Verify`, `AutoRunner.Verify`, detection |
| `Lifecycle.dfy` | intake, queue, workers, store, crash and recovery as one protocol of atomic steps |
| `Intake.dfy`, `Worker.dfy`, `Recovery.dfy` | the queue, submission, a worker's turn and the recovery pass as code, tied to the protocol |
| `Repository.dfy`, `Query.dfy` | the in-memory repository, listing order, paging |
| `FileStore.dfy` | the durable store: index, atomic replace, every state a crash can leave |
| `EventLog.dfy` | the event log byte by byte, torn appends, and the polling cursor |
| `Bus.dfy`, `PersistingBus.dfy` | bounded subscriptions and their close discipline; store before fan-out under interleaving |
| `RateLimiter.dfy`, `RateLimiterClaims.dfy` | token buckets with idle eviction, and bounds over any window |

How the pieces are modelled:

- A run of `Process` is a class method that calls a nondeterministic `Environment`; each call appends one
  effect to a ghost trace. `Summarise` folds the trace into the few facts the contracts speak of, and
  `PipelineClaims` and the lemmas of `Trace` translate those facts back into statements about the trace.
- Effects that can divert a job, fatal errors and panics are noted in the summary, so that a contract can say that nothing
  else keeps a job from completing. Errors the code only logs are not among them.
- Go panics are an explicit outcome that unwinds through the deferred cleanup and the deferred recovery.
- A status write that fails or panics leaves the record as it was; an artifact write that fails may leave
  anything; the checks may change files in the worktree they run in.
- Goroutines and concurrent clients are interleaved as atomic steps; what the source does under one mutex is
  one step, except where a crash can fall in between.
- Time is `real` in the limiter and otherwise a nondeterministic end of the context; each look at the context is an effect
  that records what was found.
- A crash is the death of the process: what was written stays, rename is atomic.

Where the code and its own comments differ, the model follows the code:

- `internal/api/events.go:34-39` says an unparseable `since` yields an empty slice; the code answers with an
  error (`ServeHistory`).
- `internal/events/store.go:17-21` says a live subscriber never sees an event missing from the history. After an
  append that failed part way it does: `PersistingBus.TornAppendHidesALiveEvent`. The exact condition, event by event,
  is in `PersistingBus.MissingIffTorn`.
- `internal/storage/filestore/filestore.go:301-303` expects a torn last line to cost one event. The next append
  after it is lost as well: `EventLog.AppendIsReadIffLogIsWhole`. An index into the history is stable exactly when
  no line lacks only its newline: `EventLog.CursorIsStableIffNothingDangles`.
- `internal/api/ratelimit.go:52-54` says an idle bucket is full. That holds exactly when the idle time is enough to
  fill one: `RateLimiter.IdleMeansFull`; and a request whose own bucket is swept between fetching and spending
  keeps the token it spends: `RateLimiterClaims.UnderfootCostsNothing` and `RateLimiterClaims.OneExtraIsReached`.
- `internal/api/jobs.go:184-197` caps the page size silently, so a client that asks for more than the cap and steps by
  what it asked for skips jobs: `Repository.PagesConcatenate` says exactly when pages add up to the listing.
- `internal/orchestration/processor.go:415-417` says that on a revision attempts which failed stay dead. A reviewer that
  asks for changes with empty notes leaves no feedback, so they are asked again, and without a verifier the job may return
  an attempt that failed. `Fanout.OneStaysLive` is the condition on one pass, `DeadAttempt.DeadAttemptIsReturned` the exact
  condition on the configuration, and `PipelineClaims.DeadAttemptReturnedOnlyIfAllDied` what the trace then holds.
- `internal/orchestration/processor.go:174-178` says no exit path leaves a worktree behind. A panic in Create does: the caller
  never learns of the worktrees made before it, and none of them is removed (`PipelineClaims.RemovedExactlyOnce`).
- `internal/storage/filestore/filestore.go:79-88` files jobs by the id inside the record. The index equals the disk exactly
  when each record lies in the directory of its own id, which every write of the store keeps: `Store.Open`.

## Model

| member | source | states |
|---|---|---|
| Jobs.Job.Transition | internal/jobs/job.go:17-24 | a transition is taken exactly when the table allows it, and otherwise nothing changes |
| Jobs.TerminalIsFinal | internal/jobs/transitions.go:3-14 | terminal statuses are exactly those with no way out, and every other status may fail or be cancelled |
| Jobs.TerminalEndsPath | internal/jobs/transitions.go:3-23 | nothing follows a terminal status on any legal path |
| Jobs.WorkListSteps | internal/orchestration/processor.go:227-233 | appending revision passes never rewrites the steps already in the list, and gives it 5 + 4 per revision |
| Jobs.WorkListIsLegal | internal/orchestration/processor.go:227-357 | however often it has grown, the work list is a legal path from queued that ends in reviewing |
| Jobs.TableIsTheWorkList | internal/jobs/transitions.go:3-23 | the table allows exactly the steps of the work list, completing a job in review, and failing or cancelling a job that has not ended |
| Trace.CertifiedMeansFresh | internal/orchestration/fanout.go:132-134 | a worktree counts as certified exactly when the trace holds an all-passed verification of it with that report and since then no write to any attempt, no other verification of it and no new verifying pass |
| Trace.ImplFailedMeans | internal/orchestration/processor.go:432-444 | a worktree counts as failed exactly when some proposal for it or write to it failed, at any time |
| Trace.AppliedMeans | internal/orchestration/processor.go:439-446 | a worktree counts as applied exactly when some proposal was applied to it in full |
| Trace.ChangedMeans | internal/orchestration/processor.go:407-446 | a worktree counts as changed exactly when a proposal was applied to it in full since the current implementing pass began |
| Trace.UsesPrecedeRemoval | internal/orchestration/processor.go:193-206 | without a use after cleanup every apply, verification and diff of a worktree precedes its removal |
| Trace.LateMeans | internal/orchestration/processor.go:248-252 | in a run whose record holds no late write, every status written after a look that found the context ended is failed or cancelled |
| Trace.MuteMeans | internal/orchestration/review.go:126-131 | the summary is mute exactly when some review of the trace asked for changes with empty notes |
| Trace.SignsMean | internal/orchestration/processor.go:248-391 | trouble, a fatal error and a panic are noted exactly when the trace holds an effect of that kind |
| Fanout.OneStaysLive | internal/orchestration/processor.go:418-444 | an implementing pass that succeeds is sure to leave a live attempt exactly when it comes with feedback or no attempt was dead before it |
| Fanout.VariantCount | internal/orchestration/fanout.go:71-80 | the fan-out is the number between 1 and 8 nearest to what was asked for |
| Fanout.VariantIdInjective | internal/orchestration/fanout.go:63-68 | two attempts at one job never share a worktree |
| Fanout.SelectWinner | internal/orchestration/fanout.go:146-153 | the lowest-indexed candidate that passed, and none exactly when none passed |
| Fanout.Representative | internal/orchestration/fanout.go:209-219 | the lowest-indexed implemented candidate, else the first, and none only when there are none |
| Orchestration.ProgressIsLegal | internal/orchestration/processor.go:248-256 | statuses written so far form a legal path that follows the work list |
| Orchestration.TurnedDown | internal/orchestration/processor.go:254-256 | a step is legal exactly for a job loaded as queued; any other is turned down at the first step and may end failed |
| Orchestration.AtTheEnd | internal/orchestration/processor.go:376-383 | at the end of the list the job is reviewing and the gate error is nil, so the last guard never fires |
| Orchestration.GateFeedback | internal/orchestration/review.go:149-163 | the feedback is the summary and the attempt's failure in their fixed frame, then the truncated output of every failed check in order and nothing else; it is never empty |
| Orchestration.Processor.Advance | internal/orchestration/processor.go:554-562 | an illegal step changes nothing; a legal one changes the job, and the record exactly when the write succeeds |
| Orchestration.Processor.MarkFailed | internal/orchestration/processor.go:586-595 | an ended job is left alone and the refusal is joined to the cause; any other is announced as failed and then handed to the store, and a failed write is joined to the cause |
| Orchestration.Processor.MarkCancelled | internal/orchestration/processor.go:597-603 | the same for cancelled, returning nil only when the record says cancelled |
| Orchestration.Processor.CreateCandidates | internal/orchestration/fanout.go:91-101 | candidates are exactly the worktrees handed out, distinct and named after the job and their place, also when creation stops half way |
| Orchestration.Processor.Prepare | internal/orchestration/processor.go:294-309 | the caller knows every worktree made, except after a panic in Create, when it knows none |
| Orchestration.Processor.Implement | internal/orchestration/processor.go:404-460 | it fails exactly when no attempt had a proposal applied to it in full in this pass, so one unlucky attempt does not sink the rest, and it unwinds exactly on a panic; implementation errors are sticky and match the trace; after a success one attempt is live if there was feedback or none was dead before; failure wraps a real cause if some attempt was live |
| Orchestration.Processor.VerifyCandidates | internal/orchestration/fanout.go:109-138 | in any completion order each live attempt's report and error match the certificates, and dead ones are untouched |
| Orchestration.Processor.VerifyStage | internal/orchestration/processor.go:468-519 | always names an attempt; without a gate error and with a verifier it is live and certified with its own report, and no live attempt before it is certified; a gate error means that no live attempt is certified, and then the lowest-indexed implemented attempt stands for the job |
| Orchestration.FirstPassedWins | internal/orchestration/fanout.go:146-153 | the first candidate that passed is, in the evidence of the trace, the first that is alive and certified |
| Orchestration.Processor.CaptureDiff | internal/orchestration/artifacts.go:41-87 | a capture is never forgotten: the stored patch is the diff of that worktree as it is, or the diff is blank and nothing is stored, or reading or writing it failed; it never fails the job |
| Orchestration.Processor.Review | internal/orchestration/review.go:57-132 | a failed gate never reaches the reviewer; it asks for a revision, with the gate's feedback, exactly when one is allowed and the checks could run, and fails with the gate's error otherwise; after a passed gate the decision is the reviewer's verdict on this patch and this report, with its notes |
| Orchestration.Processor.AskReviewer | internal/orchestration/review.go:85-132 | each decision has its one cause: approve, reject, changes requested with or without a revision left, a reviewer error, or a patch nobody could read |
| Orchestration.Processor.CleanupAll | internal/orchestration/processor.go:193-206 | removes every worktree in order once, or a prefix of them if a removal panics |
| Orchestration.Processor.ImplementStep | internal/orchestration/processor.go:311-315 | in either pass at least one attempt is live on entry, so "no variant could be implemented" wraps a real cause, and nothing was applied in full in a pass that fails; afterwards every live attempt has had a proposal applied in full |
| Orchestration.Processor.ReviewStep | internal/orchestration/processor.go:328-358 | with an implementor and a revision left, a failed gate whose checks could run and a request for changes never fail the job: one more pass is appended, with the gate's output or the reviewer's notes as its feedback; without, both fail it; a passed gate is failed only by a reviewer's error, rejection or such a request; the job goes on only with its attempt accepted or a pass appended |
| Orchestration.Processor.Conclude | internal/orchestration/processor.go:373-391 | neither an ended context nor a gate error lets the job complete, and nothing else but a fatal error or a panic keeps it from completing |
| Orchestration.Processor.Drive | internal/orchestration/processor.go:248-367 | the loop ends (revisions left, then steps left, decrease), never meets an illegal step on a queued job, stops at once when the context has ended, and leaves sound locals |
| Orchestration.Processor.Unwound | internal/orchestration/processor.go:146-206 | the deferred exits tidy up all known worktrees and then end the job after a panic, their own included |
| Orchestration.Processor.Process | internal/orchestration/processor.go:122-392 | for every behaviour of the collaborators: the statuses handed to the store are a legal path along the work list; unless a terminal write or event was lost, the record ends terminal and is the last status of that path; at most one terminal event, agreeing with the record, and on a bus exactly one if nil is returned, which happens only for a job completed or cancelled; unless lost, cancelled exactly when a look found the context cancelled and failed when one found the deadline passed, with nothing but such an end written after that look; no completion for a context that had ended before; a job loaded as queued completes and nil is returned unless the trace holds an effect that can divert it, and every failure returned has its cause in the trace; worktrees named after the job, removed once and unused after; a completed job has a plan, the first live certified attempt as its winner, its patch and its approval |
| PipelineClaims.CompletionIsEarned | internal/orchestration/processor.go:311-386 | a completed job's winner has a fresh all-passed verification in the trace, a proposal applied in full, no failed proposal or write ever, was created by this run, and no attempt made before it has a fresh pass without a failure |
| PipelineClaims.CertifiedChecksRan | internal/verification/detect.go:75-87 | with the detecting verifier, whose every report is that of `AutoVerify`, a completed job's winner has a fresh verification in the trace whose report is non-empty and all passed |
| PipelineClaims.ApprovedWhatWasStored | internal/orchestration/review.go:85-119 | with or without a verifier, a completed job's reviewer approved the very patch of the attempt returned, unless it could not be read, and with a verifier was shown the report of a fresh pass; a capture that went through saved that patch, and it is what is stored |
| PipelineClaims.RemovedExactlyOnce | internal/orchestration/processor.go:174-206 | a worktree handed out is removed at most once and not used after that; with no panic in Cleanup it is removed exactly when no Create panicked |
| PipelineClaims.RecoveryNamesEveryWorktree | internal/orchestration/recovery.go:126-144 | every worktree a run of `Process` has made is among the names recovery tries |
| PipelineClaims.LifeMeans | internal/orchestration/processor.go:554-603 | the summary lists the trace's status writes and terminal events, in order |
| PipelineClaims.FailuresHaveCauses | internal/orchestration/processor.go:248-603 | a run that returns an error or unwinds holds the effect that explains it: a deadline seen, a fatal error, a panic, a pass in which nothing was applied, a gate no live attempt passed, a rejection or a request for changes; and with an implementor the last two are final only after a revision was tried |
| PipelineClaims.DeadAttemptReturnedOnlyIfAllDied | internal/orchestration/processor.go:418-420 | an attempt that failed to implement is returned only without a verifier, with a reviewer, an implementor and a second attempt, after a review that asked for changes with empty notes, the guard on feedback; without a verifier it failed exactly when every attempt did |
| DeadAttempt.DeadAttemptIsReturned | internal/orchestration/processor.go:311-315 | for any configuration and job id: some trace that keeps all `Process` promises of a completed job returns an attempt that failed to implement if and only if there are workspaces, a reviewer, an implementor, no verifier and a fan-out of at least two |
| DeadAttempt.RunReturnsDead | internal/orchestration/processor.go:418-420 | the run that does it, effect by effect, for every such configuration and job id, with every promise of `Process` checked on it |
| GateInterleaving.EveryOrderAgrees | internal/orchestration/fanout.go:109-138 | after any interleaving of the goroutines each attempt holds its own outcome |
| GateInterleaving.SchedulesAreEquivalent | internal/orchestration/fanout.go:109-153 | any two complete schedules end in the one state given by the attempts' own outcomes, reports, errors and with them the winner |
| GateInterleaving.TroubleStaysLocal | internal/orchestration/fanout.go:125-131 | what befalls one attempt, a panic included, is invisible to the others under any schedules |
| GateInterleaving.DoneWhenAllHadTheirTurns | internal/orchestration/fanout.go:119-138 | no goroutine waits for another: all are done exactly when each live one has had its own steps, in any order |
| GateInterleaving.WinnerWasJudgedClean | internal/orchestration/fanout.go:146-153 | an attempt wins exactly when it is the first live one judged clean |
| Verification.RunCheck | internal/verification/runner.go:116-140 | a nonzero exit passes exactly when the check tolerates that code, with its note; a zero exit passes unless silence is wanted and something other than white space was printed; what could not run fails with the reason |
| Verification.RunnerVerify | internal/verification/runner.go:100-113 | an error exactly for no checks or an ended context; otherwise all pass exactly when every check is clean, and each check that could not run or exited with a code it does not tolerate shows as failed |
| Verification.TestsApply | internal/verification/detect.go:115-170 | each language's tests apply exactly when one of its manifests is there and its tool is installed, and npm's only with a real script |
| Verification.Detect | internal/verification/detect.go:93-176 | the checks are exactly the applicable ones, never nothing at all, and only a broken package.json fails by note |
| Verification.AutoVerify | internal/verification/detect.go:75-87 | an error exactly when the context ends before some applicable check has started; otherwise a non-empty report that passes exactly when every applicable check is clean and package.json is not broken, in which each applicable check that broke shows as failed, a failing go test among them |
| Lifecycle.StoreChangesLegally | internal/storage/filestore/filestore.go:210-224 | in every reachable state a record changes only under the hand of the one place holding the job, and legally |
| Lifecycle.StepKeepsExclusive | internal/worker/pool.go:37-53 | every step of the protocol keeps a job in at most one place |
| Lifecycle.StepKeepsConsistent | internal/orchestration/recovery.go:71-107 | every step keeps the store in agreement with whoever holds the job |
| Lifecycle.StepKeepsAccounted | internal/api/jobs.go:70-90 | every step keeps each unfinished job somewhere |
| Lifecycle.ExclusiveOwnership | internal/orchestration/recovery.go:71-107 | at every point of every run: an id is in the queue once or with one worker, queued ids are stored queued, and an unfinished job that is not queued is with a worker or awaits recovery |
| Lifecycle.NothingQueuedIsLost | internal/orchestration/recovery.go:85-92 | a job stored as queued is in the queue, at intake, with a worker, or was left by recovery for the next start |
| Lifecycle.EveryJobCanFinish | internal/worker/pool.go:37-75 | from every state with the process up each unfinished job can be brought to a terminal status without a restart, unless recovery had no room for it |
| Lifecycle.WorkersLoadQueuedJobs | internal/worker/pool.go:65-75 | whatever a worker loads is stored as queued |
| Lifecycle.RecordsFollowTheTable | internal/jobs/transitions.go:3-23 | through any interleaving and any crashes each record's history is a legal path |
| Lifecycle.TerminalIsForever | internal/jobs/transitions.go:11-13 | a terminal record is never changed again by anyone, across restarts |
| Lifecycle.ProcessingFits | internal/worker/pool.go:37-53 | any legal path of writes that ends a job can be carried out by the worker that fetched it, and leaves the record at the path's end, the worker free and all else as it was |
| Worker.Handle | internal/worker/pool.go:65-75 | what `Process` writes for a job the protocol has handed a worker are steps of that worker; unless the ending was lost they lead to the state with the record the run left, a terminal one, and the worker free; without trouble that record is completed; an error or panic never ends the worker |
| Intake.Queue.Enqueue | internal/queue/queue.go:18-25 | accepted exactly when there is room, at the tail, and never waits |
| Intake.Submit | internal/api/jobs.go:70-97 | accepted means stored and, where there is a queue, queued; a full queue leaves a failed record unless the update failed too; and without store errors these are the protocol's steps |
| Intake.IntakeIsTheProtocol | internal/api/jobs.go:70-90 | create, enqueue and compensate take the protocol from the old store and queue to the new |
| Recovery.ReclaimCoversEveryAttempt | internal/orchestration/recovery.go:132-144 | whatever the fan-out was, every worktree a crashed job can have made is among the names tried |
| Recovery.ReclaimSparesOtherJobs | internal/orchestration/recovery.go:141-144 | no name belongs to two jobs whose ids hold no dash |
| Recovery.ReclaimWorktree | internal/orchestration/recovery.go:132-160 | exactly the present, removable worktrees of the job go; true exactly when one went |
| Recovery.FailInterrupted | internal/orchestration/recovery.go:162-182 | with a bus the event goes out either way, the record changes exactly when the update succeeds |
| Recovery.Recover | internal/orchestration/recovery.go:71-107 | a failed listing is the one error and changes nothing; otherwise store, queue, worktrees, events and all four counters after the pass, with no queue or no bus as well |
| Recovery.ListedIds | internal/orchestration/recovery.go:79-103 | a pass considers each waiting (or interrupted) job exactly once and no other |
| Recovery.PassReconciles | internal/orchestration/recovery.go:71-107 | exactly the interrupted jobs become failed, all other records stay as they are |
| Recovery.PassReclaims | internal/orchestration/recovery.go:94-97 | exactly the removable worktrees of interrupted jobs are gone |
| Recovery.SecondPassFailsTheRest | internal/orchestration/recovery.go:94-102 | a second pass finds to fail exactly the jobs whose update was refused in the first, none if none was |
| Recovery.RecoveryIsTheProtocol | internal/orchestration/recovery.go:79-103 | the loop does what the protocol's recovery steps do |
| Repository.InMemoryRepository.Create | internal/jobs/repository.go:31-39 | adds a job exactly when its id is new |
| Repository.InMemoryRepository.Update | internal/jobs/repository.go:51-59 | replaces a job exactly when its id is known |
| Repository.ListingIsUnique | internal/jobs/repository.go:76-81 | there is only one order newest first then by id, whatever the map iteration |
| Repository.ListingIsNewestFirst | internal/jobs/repository.go:76-81 | an older job is never listed before a newer one, and equally old ones stand in the lexicographic order of their ids |
| Repository.CompareIsLexicographic | internal/jobs/repository.go:76-81 | the comparison of ids is the lexicographic one: a proper prefix, or the smaller character where they part |
| Repository.Listing | internal/storage/filestore/filestore.go:227-242 | the list holds each job of the index once, in that order, for both stores |
| Repository.ReadPageParams | internal/api/jobs.go:187-207 | rejected exactly for nonsense, default 50, cap 200 |
| Repository.TakePage | internal/api/jobs.go:170-180 | the page holds the entries from the offset on, as many as the limit or as there are, none past the end |
| Repository.PagesConcatenate | internal/api/jobs.go:137-182 | pages at 0, L, 2L, ... add up to the listing exactly when L is within the cap or one capped page holds everything |
| FileStore.Files.Write | internal/storage/filestore/filestore.go:154-157 | bytes arrive in pieces and may stop anywhere, and no record changes meanwhile |
| FileStore.Store.Open | internal/storage/filestore/filestore.go:60-90 | every readable record is indexed, unreadable ones are skipped, and the index equals the disk exactly when records lie under their own ids |
| FileStore.Store.WriteJob | internal/storage/filestore/filestore.go:136-169 | the record is replaced exactly when it encodes and no file call of this write failed, and every state on the way holds the old records or the new |
| FileStore.Store.Save | internal/storage/filestore/filestore.go:191-197 | stored exactly when the record encodes and no file call failed; index and disk move together; every crash point reopens to the index before or after |
| FileStore.Store.Create | internal/storage/filestore/filestore.go:178-198 | refines the plain map's create, refuses exactly invalid ids and failed writes, and is atomic under a crash at any step |
| FileStore.Store.Update | internal/storage/filestore/filestore.go:210-224 | refines the plain map's update, refuses exactly failed writes, and is atomic under a crash at any step |
| FileStore.Store.Get | internal/storage/filestore/filestore.go:200-208 | refines the plain map's lookup |
| FileStore.Store.List | internal/storage/filestore/filestore.go:227-242 | the same listing as the in-memory repository over the same jobs |
| FileStore.Landed | internal/storage/filestore/filestore.go:165-168 | what is true of the job.json files is true of the jobs they decode to, at every step |
| FileStore.Restart | internal/storage/filestore/filestore.go:60-90 | opening what any crash left gives a sound store that holds one of the committed versions |
| EventLog.History | internal/storage/filestore/filestore.go:282-308 | the decodable, non-blank lines in order, and nothing for a missing file |
| EventLog.LinesAreThePieces | internal/storage/filestore/filestore.go:294-299 | splitting at newlines gives pieces without newlines that joined by newlines are the text again |
| EventLog.Append | internal/storage/filestore/filestore.go:252-277 | success exactly when the log opens, the event encodes and the file system takes the whole line and its newline; otherwise exactly the part it took is written, or nothing |
| EventLog.HistoryOfAnyLog | internal/storage/filestore/filestore.go:294-307 | after any sequence of whole and torn appends, the history is the readable events and then the dangling one |
| EventLog.HistoryIsWhatWasAppended | internal/storage/filestore/filestore.go:273-307 | with whole-line appends the history is exactly the events appended, in order |
| EventLog.AppendIsReadIffLogIsWhole | internal/storage/filestore/filestore.go:268-275 | a successful append can be read back exactly when the log was empty or ended in a newline |
| EventLog.CursorIsStableIffNothingDangles | internal/api/events.go:34-50 | the history stays a prefix of every later history exactly when no line lacks only its newline |
| EventLog.DanglingEventVanishes | internal/storage/filestore/filestore.go:295-305 | an event torn before its newline is served until anything more reaches the log, whole or torn, and never again: all that follows the readable events was appended later |
| EventLog.TornLineCostsTheNext | internal/storage/filestore/filestore.go:295-305 | concrete logs in a concrete format on which a later event is lost and an index changes its meaning |
| EventLog.BracesMeetTheNeeds | internal/storage/filestore/filestore.go:261-264 | the assumptions on the line format can be met |
| EventLog.ServeHistory | internal/api/events.go:40-52 | bad request exactly for an unreadable or negative cursor, otherwise everything from the cursor on |
| EventLog.PollsSeeEachEventOnce | cmd/rojo/main.go:185-198 | however polls, whole and torn appends interleave, the client has a prefix of the history, without gap or repeat, and all of it after a poll |
| Bus.Subscription.TrySend | internal/events/events.go:87-93 | accepted exactly when there is room; only open channels are sent to |
| Bus.Subscription.Close | internal/events/events.go:129-132 | only an open channel is closed, so each is closed at most once |
| Bus.Subscription.Receive | internal/events/events.go:36-40 | receiving keeps the account of accepted, waiting and dropped events |
| Bus.InProcessBus.Subscribe | internal/events/events.go:106-118 | a fresh open registered subscription with the default buffer where none is asked for, and no other changed |
| Bus.InProcessBus.Unsubscribe | internal/events/events.go:120-133 | the subscription is closed and no longer registered, harmlessly so the second time |
| Bus.InProcessBus.Publish | internal/events/events.go:75-104 | every registered subscriber of the job is offered the event once, the callback is called once a failed send, and registered stays the same as open |
| Bus.PublishedKeeps | internal/events/events.go:87-93 | a subscriber's events since it subscribed remain split in order into received, waiting and dropped |
| PersistingBus.LiveEventsAreInHistory | internal/events/store.go:31-40 | under every interleaving an event received or waiting is already in its job's history, as often, if each successful append found the log intact |
| PersistingBus.MissingIffTorn | internal/events/store.go:15-40 | under every interleaving an event received or waiting was stored, and is missing from its job's history exactly when each append that stored it found a torn line at the end of the log and it does not dangle there itself |
| PersistingBus.ReadableIffIntact | internal/storage/filestore/filestore.go:268-307 | the appends that succeeded can all be read back, in order, exactly when each found the log intact |
| PersistingBus.RunKeepsInv | internal/events/store.go:31-40 | at every point what a subscriber has plus what is still to be fanned out was stored before, event by event |
| PersistingBus.SubscribersHearWhatIsFannedOut | internal/events/events.go:75-104 | in every run each subscriber was offered exactly what was fanned out for its job while it was subscribed, in order, and has received or still holds what it accepted |
| PersistingBus.StoredIsFannedOutOnce | internal/events/store.go:31-40 | each time an event was stored it has been fanned out once or is still to be, and nothing else ever is |
| PersistingBus.TornAppendHidesALiveEvent | internal/events/store.go:31-40 | an interleaving in which a received event is missing from the history, for any two events and any tear |
| PersistingBus.OrderMayDiffer | internal/events/store.go:36-39 | two publishers can be stored in one order and heard in the other |
| RateLimiter.IdleMeansFull | internal/api/ratelimit.go:48-60 | idle means full exactly when refill times idle time is at least the capacity |
| RateLimiter.TokenBucket.Allow | internal/api/ratelimit.go:32-46 | refill up to capacity, then spend a whole token or refuse |
| RateLimiter.Limiter.Sweep | internal/api/ratelimit.go:137-154 | when due, exactly the buckets idle longer than the limit go and the counters restart |
| RateLimiter.Limiter.Serve | internal/api/ratelimit.go:109-119 | fetch or create, sweep, then spend from the bucket fetched even when it has just been swept |
| RateLimiterClaims.NothingStaysForever | internal/api/ratelimit.go:129-154 | past each sweep check every bucket was used within twice the idle time and fewer than 256 were made since the last sweep; at the first request the only bucket is the one just made |
| RateLimiterClaims.OthersAreUntouched | internal/api/ratelimit.go:52-54 | evicting a bucket its client is not using changes no later allowance when idle means full |
| RateLimiterClaims.OwnAllowance | internal/api/ratelimit.go:109-119 | a request is admitted exactly when its client has a whole token, and takes it unless the bucket went underfoot |
| RateLimiterClaims.SweepingIsInvisible | internal/api/ratelimit.go:52-54 | a client's decisions are those of a limiter that never forgets, as long as no request of its own lost its bucket, whatever happens to other clients |
| RateLimiterClaims.OneMoreAlike | internal/api/ratelimit.go:109-154 | one request keeps a client's future allowances those of a limiter that never forgets exactly when it does not lose that client's bucket to the sweep |
| RateLimiterClaims.UnderfootCostsNothing | internal/api/ratelimit.go:109-119 | a request whose bucket is swept before it spends is admitted and its client's allowance stays what it was, full, one more than without the sweep |
| RateLimiterClaims.WindowIsBounded | internal/api/ratelimit.go:32-46 | over any stretch of any run one client is admitted at most capacity plus refill times its length, plus one if a bucket went underfoot and, for each further one, what the idle time falls short of capacity plus one; so plus one at most when it brings in that much |
| RateLimiterClaims.RefusedOnlyWhenSpent | internal/api/ratelimit.go:32-46 | a client is refused only when, since some earlier request of its own, one more admission would exceed a full bucket and all that flowed in since |
| RateLimiterClaims.OneExtraIsReached | internal/api/ratelimit.go:111-118 | the extra one happens |

## Left out

- HTTP routing, authentication, health, WebSocket streaming, the MCP server, the CLI and its rendering: plumbing; only the `since` cursor and its polling loop are kept.
- Model clients, prompts, planner and context selection: oracles that answer anything.
- Git, subprocesses, Docker and the command allowlist: a worktree is its contents, and create, diff and cleanup are environment calls.
- `implementor.Apply` and path policy: all operations, or an error after a prefix.
- JSON: the record format is any format that reads back what it wrote; the line format also has no newline in a line and rejects parts of lines and lines with anything visible before them (`Codec.Faithful`, `Codec.Strict`), which JSON objects meet.
- Power loss and directory fsync: a crash is the death of the process.
- The directory lock and unreadable data directories: a store is opened by one process.
- Wall-clock sleeps and timeouts, metrics, logging, `UpdatedAt`: no effect on what is proved.
- The `job.created` event of a submission, and what the step events carry: nothing depends on them.
- Texts: error strings, event payloads, the joined causes of a failed fan-out, touched paths and file context, truncation and notes of check output in a report.
- Orchestration.GateFeedback: the wording of the summary and of the error is a parameter, and output is cut by characters where the source cuts bytes.
- `RunWithRevisionLoop`: the pipeline does not call it; only its constant is used.
- Canceller bookkeeping and the cancel endpoint: a cancel is a context that may end at any moment.
- A panic while a terminal status is announced or stored inside the deferred recovery: `Process` says what it leaves (`spoiled`), the protocol of `Lifecycle` assumes store writes succeed and does not include it.
- Cloning of records on the way in and out of the stores: records are values here, so aliasing does not arise.
- ValidJobId: counts characters where the source counts bytes, because ids are generated as hexadecimal.
- RateLimiter.Limiter.Serve: floating-point rounding is not modelled, tokens and time are reals; the client key and the trusted proxy header are a given string.
- Bus.InProcessBus.Publish: the drop callback is a count of calls, because what it does is the caller's affair.
- Lifecycle.TerminalIsForever: does not cover failing store writes, because the protocol assumes they succeed.
