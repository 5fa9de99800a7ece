# certwatch agent: a verified model

A Dafny model of the certwatch monitoring agent and proofs about it. `dafny verify
dfyconfig.toml` checks the whole project.

The agent checks TLS certificates of configured and NetBox-discovered hosts and reports to a
dashboard. It is a long-running process that may die at any moment, so most of what is proved
here is about what survives: reports, counters, identity, and the meaning of a cycle whose checks
run in parallel.

## What is modelled

* **Delivery** (`Files`, `PendingReports`, `Backoff`, `Delivery`, `DeliverySafety`,
  `DeliveryAttempts`, `DeliveryFairness`). A state machine over the pending directory, any number of concurrent
  submitters, a network that loses, delays and repeats messages, and a dashboard that accepts an
  id once. Opening, each partial write, the full write, the rename, the load and the unlink are
  separate steps, and the process may die between any two. An invariant is kept by every step;
  the theorems say that no report is lost, none is accepted twice, what `_attempts` counts, and
  that no file can starve the agent's own reports as long as each start gets to its first live
  file's attempt.
* **The same, imperatively** (`Clock`, `RetrySpec`, `Replay`, `ReportSubmission`, `AgentSafety`).
  Class `Agent` has the save, the retry loop and the replay loop as methods over a directory and
  a clock; a report's write may fail at any of its file operations, and so may the unlink after
  an answer. Each method records its file operations and messages as steps and is proved to make
  a run of the state machine, so the theorems hold of it; each is also proved against a
  specification of directory, delays, counter and status. The unbounded loop is driven by a
  finite sequence of rounds; a loop that outlives it reports `Retrying`.
* **Replay** (`ReplayLedger`, `ReplayFairness`). Conservation over one pass, and over any number of
  starts when a waiting report is served.
* **Time** (`Timestamps`). Fixed-width rendering (section 5.1 of RFC 3339), the Gregorian calendar,
  and the three comparisons the agent decides with.
* **The runtime** (`NetboxSync`, `Runtime`, `RuntimeSafety`, `Heartbeat`). An interleaving machine of
  the main thread, heartbeat, workers, check thread and NetBox thread with a program counter
  each: flags, queue, first-sync gate, NetBox inventory. Reading a flag, setting one, a queue
  operation and the return of a call are separate steps; waits may end by timeout or by flag.
  Class `HeartbeatThread` is the heartbeat and class `CertCheckThread` the check thread as
  imperative code, each proved to make a run of the machine; `RunNetboxSync` is one sync.
* **Cycles** (`ParallelChecks`, `ParallelPool`, `CheckThread`, `HostResolution`). The thread pool under
  every schedule, the list rebuilt from its results against checking one host after another, the
  cycle loop, and on-demand checks against cycle entries.
* **Identity** (`Identity`). Registration and the credentials file, with crashes.
* **Host names** (`HostnameMatch`). The wildcard matcher against the rule on labels (section 6.4.3 of
  RFC 6125).

## Assumptions

* Processes crash, storage does not: `os.replace` is atomic and what was renamed stays.
* `uuid4` report ids are fresh: a new one names no file and no earlier report.
* Every write gets a later modification time than those before it. One agent process runs at a
  time. When an agent is first installed its pending directory holds no report and no file dated
  in the future.
* The dashboard accepts an id once and answers 409 afterwards; it may answer 400 or 413, or any
  error that is retried, at any time. Checks and syncs are arbitrary: they may return or raise
  anything.
* Timestamps of dashboard and agent come from synchronised clocks where they are compared, and
  `registered_at` in agent.json is a string, as registration returns it.
* In the imperative replay the rename into quarantine and the unlink of a stray temporary file
  succeed; `Delivery` has both failing, as a step that ends the replay.
* No number reaches the 4300 digits at which Python's conversion to and from text gives up, and
  no text holds a lone surrogate.

## Where a promise does not hold as stated

* *Every pending report is eventually attempted.* A file that raises before its own counter
  moves (undecodable bytes, a `_persisted_at` that is no string, an `_attempts` on which `int`
  raises) keeps its place at the head of the queue, and the exception ends the pass at every
  start. `ServedIffNoBlockerAhead` gives the exact condition, checkable on the directory before
  the first start; `PoisonStarves` is the concrete case. The agent never writes such a file, so
  no file stands in the way of its own reports: `OwnReportsAreServed`. What remains is that each
  start gets to its first live file's attempt, the write of the counter included.
* *Exit code 2 after an auth error.* It is lost exactly when no thread has set the auth event and
  a thread whose join gave up still stands before doing so: `ExitCodeLostIff`.
  `AuthErrorCanExitClean` is a run in which that happens.
* *A parallel cycle is the sequential one.* Exactly for distinct identity keys, which two hosts
  without `host_id` do not have: `ParallelIffDistinctKeys`.
* *An on-demand check is the cycle's check.* `CycleAndOnDemandAgreeIff` gives the exact condition.
  One manual host with a null port, a threshold that is no number, a `timeouts` or `concurrency`
  that is null, or a pool of size 0 ends the whole cycle; an action for another manual host
  still succeeds: `SameOutcomeIff`, `PoolOfZeroStopsTheCycle`.

The model follows the code where comments differ: a revoked agent that fails in bootstrap exits
1 (certwatch/runner.py:105-107), not 2 as the file's header says; signal handlers are installed
only after the replay; the first-sync gate waits for its own event only and shutdown does not
wake it (certwatch/check_thread.py:243); a counter rewrite moves the modification time, so "oldest first"
means oldest write at listing time; `replayed_count` includes rejected and duplicate reports; an
exception other than an auth error ends the replay but not the start
(certwatch/runner.py:156-165).

## Model

| member | source | states |
|---|---|---|
| DeliverySafety.NoReportLost | certwatch/report_submission.py:84-136 | in every state of every run a report whose save returned is on disk with its original wire fields, or was accepted unchanged, or was answered 400 or 413 |
| DeliverySafety.AcceptedOnceAndIntact | certwatch/report_submission.py:283-310 | in every state of every run the dashboard has accepted no id twice, and each accepted body is the payload first submitted under its id |
| DeliverySafety.DeletedOnlyWhenSettled | certwatch/report_submission.py:292-345 | the step that removes the file of a saved report finds it accepted unchanged or rejected |
| DeliverySafety.RejectedMeansAnswered | certwatch/report_submission.py:311-345 | a report counts as rejected only if the dashboard answered a request for it with 400 or 413 |
| DeliverySafety.InvStep | certwatch/report_submission.py:272-403 | every step, a crash between any two file operations and a lost, late or repeated message included, keeps the delivery invariant |
| DeliveryAttempts.CounterIsWorkDone | certwatch/report_submission.py:281 | while the file exists its `_attempts` is exactly the requests ever made, plus the bumps whose process died before the request, plus one if the live process has bumped and not sent |
| DeliveryAttempts.WastedBumpsAreLosses | certwatch/report_submission.py:272-291 | over any run the bumps a report has wasted are at most the ends of lives and the failures of its own chmod after the rename, so with `CounterIsWorkDone` the counter exceeds the requests by no more than that and one in flight |
| DeliveryAttempts.DelaysNeverDecrease | certwatch/report_submission.py:357-380 | the delays requested for a report never decrease over all its retries, crashes and replays, and the next one is at least the last |
| DeliveryAttempts.CountingStep | certwatch/pending_reports.py:100-111 | every step keeps the agreement between the counter on disk, the counter in memory, and the tally of requests |
| Backoff.TotalWait | certwatch/report_submission.py:65 | n >= 5 waits from the first one on total 230 + 120(n - 5) seconds |
| Backoff.DelayIs | certwatch/report_submission.py:65 | the waits in seconds: 5, 15, 30, 60 and from then on 120 |
| AgentSafety.AgentLosesNothing | certwatch/report_submission.py:84-136 | the same guarantee for the imperative agent, after any sequence of its methods |
| AgentSafety.AgentIsAcceptedOnce | certwatch/report_submission.py:292-310 | the same at-most-once guarantee for the imperative agent |
| ReportSubmission.Agent.CreateTmp | certwatch/pending_reports.py:201-202 | opening the temporary file is one step: an empty torn file appears, nothing else changes |
| ReportSubmission.Agent.WriteTmp | certwatch/pending_reports.py:203-207 | after the write the temporary file holds the whole record |
| ReportSubmission.Agent.RenameTmp | certwatch/pending_reports.py:215 | the rename puts the whole record under the report name; at the end of a first save it is the step after which the report counts as saved |
| ReportSubmission.Agent.AtomicWrite | certwatch/pending_reports.py:196-216 | wherever the write fails (open, write, rename, chmod) the directory is as that point leaves it, the submitter ends, and the steps are a run of the machine |
| RetrySpec.FailedWriteIsInvisible | certwatch/pending_reports.py:208-213 | a write that fails before its rename changes nothing that is listed or read, a chmod that fails comes after the record is in place, and only a failed rename leaves the temporary file |
| RetrySpec.StopsAtEnds | certwatch/report_submission.py:272-403 | how the loop ends, read off its last round alone: re-raised exactly on a 401; delivered, duplicate or rejected exactly on an answer heard, duplicate if an earlier arrival was admitted; shutdown exactly on a woken wait; every earlier round was retriable |
| RetrySpec.SubmitKeepsOrDeletes | certwatch/report_submission.py:292-403 | after a submission the file is gone on 200, 409, 400 and 413, and otherwise holds the payload and the number of bumps |
| RetrySpec.FirstLifeWaits | certwatch/report_submission.py:252-255 | the waits of a first submission are 5, 15, 30, 60 and then 120 seconds |
| ReportSubmission.Agent.LoadBumped | certwatch/pending_reports.py:106-109 | a file or counter on which load or `int` raises ends the submitter without a file operation; otherwise the record comes back bumped |
| ReportSubmission.Agent.IncrementAttempts | certwatch/pending_reports.py:100-111 | the file holds the bumped record and nothing else changes; or load, `int` or the write raised, the directory is as the write left it, and no call is made |
| ReportSubmission.Agent.Transmit | certwatch/report_submission.py:284-291 | one request leaves, and the dashboard has treated it as the fate of the call says |
| ReportSubmission.Agent.Dashboard | tests/e2e/mock_dashboard.py:311-326 | the first request with an id is accepted, every later one is a duplicate |
| ReportSubmission.Agent.HearAndDelete | certwatch/report_submission.py:292-345 | after a final answer exactly the report file is deleted |
| ReportSubmission.Agent.BackOff | certwatch/report_submission.py:357-380 | the wait is the scheduled delay for the attempts made; shutdown ends the submitter and keeps the file |
| ReportSubmission.Agent.Call | certwatch/report_submission.py:283-403 | one call ends as its fate implies (401 re-raised, 409 after an earlier arrival), deletes the file exactly on a final answer whose unlink does not raise, and waits exactly on a retriable error |
| ReportSubmission.Agent.Round | certwatch/report_submission.py:281-403 | one pass of the loop bumps before it calls, makes no call if the write of the counter fails anywhere, and moves directory, dashboard and clock as specified |
| ReportSubmission.Agent.RetryLoop | certwatch/report_submission.py:258-403 | the loop stops at the first round that is not retriable, ends as that round says (`LoopEnds`), or at the first write of the counter that fails; directory, counter, delays, elapsed time and the dashboard's memory are those of the rounds made, and its steps are a run of the machine |
| ReportSubmission.Agent.Save | certwatch/pending_reports.py:52-74 | after a save the file holds the payload with `_attempts` 0 and the report counts as saved; a failing write raises and leaves what was visible before, but for a chmod that fails after the rename |
| ReportSubmission.Agent.SubmitReportWithRetry | certwatch/report_submission.py:84-136 | the report is saved before the first call and is gone exactly after a final answer; the ending is read off the last round; total time is the schedule's prefix sum; if the save fails no call is made and no time passes |
| ReportSubmission.Agent.CleanupStrayTmpFiles | certwatch/pending_reports.py:145-161 | exactly the temporary files are deleted and reported |
| ReportSubmission.Agent.ListPendingReportPaths | certwatch/pending_reports.py:124-142 | the listing is the sorted `.json` names of the scan |
| ReportSubmission.Agent.QuarantineCorrupt | certwatch/pending_reports.py:164-178 | the file moves to quarantine with its bytes |
| ReportSubmission.Agent.ReplayFile | certwatch/report_submission.py:184-234 | one listed file is quarantined, skipped, resubmitted or ends the pass, as its content decides |
| ReportSubmission.Agent.ReplayFiles | certwatch/report_submission.py:184-244 | the files are handled in order up to the first that stops the pass |
| ReportSubmission.Agent.ReplayPendingReports | certwatch/report_submission.py:139-244 | cleanup, listing and pass together: the outcome is that of handling the listed files oldest first, the process is down exactly after a 401 or shutdown, and the steps are a run of the machine |
| PendingReports.WireRoundTrip | certwatch/pending_reports.py:181-190 | after a save and n bumps the wire payload read back is the one submitted and the counter is n |
| PendingReports.BumpKeepsWire | certwatch/pending_reports.py:100-111 | a bump raises the counter by one and leaves the wire fields alone |
| PendingReports.PersistedKeepsWire | certwatch/pending_reports.py:65-67 | stripping a saved record gives back the payload |
| PendingReports.BodyOfPayload | certwatch/report_submission.py:284-291 | the body sent for a payload is that payload |
| PendingReports.BodyFillsDefaults | certwatch/report_submission.py:284-291 | four fields must be there, `action_id` and `checks` have defaults, nothing else is sent |
| PendingReports.DecideIff | certwatch/report_submission.py:191-222 | which content makes a file corrupt, an orphan, raising or resubmitted |
| PendingReports.LessIff | certwatch/report_submission.py:207 | the string order of the orphan test: the first difference decides, a proper prefix comes first |
| PendingReports.TextCounterCounts | certwatch/pending_reports.py:108-109 | a counter stored as text counts as the number it spells and is written back as one |
| Integers.IntegerOfDecimal | certwatch/pending_reports.py:108 | the reading of text by `int` gives back every number that `str` writes |
| Integers.IntegerOfForms | certwatch/pending_reports.py:108 | `int` also takes a plus sign, surrounding white space and single underscores, and no empty text |
| PendingReports.ListingSpec | certwatch/pending_reports.py:124-142 | the listing holds each `.json` file once, by nondecreasing modification time |
| PendingReports.SortByMtimeSorts | certwatch/pending_reports.py:141 | the sort is by modification time |
| Files.SuffixOfName | certwatch/pending_reports.py:135-155 | a file is listed exactly if its suffix is `.json` and cleaned up exactly if it is `.tmp`, so never both |
| Files.RenderInjective | certwatch/pending_reports.py:201 | different names are different strings, temporary names included |
| Files.RenderOnto | certwatch/pending_reports.py:135-141 | every non-empty file name is covered |
| Files.AtomicWriteRefinesUpdate | certwatch/pending_reports.py:196-216 | cut after any step, the write shows a reader the old directory or the old one with one entry updated |
| ReplayLedger.ReplayConserves | certwatch/report_submission.py:169-244 | a pass that is not stopped counts every listed file once as what its content makes of it, leaves exactly the orphans, and quarantines exactly the corrupt bytes |
| ReplayLedger.StoppedReplayKeepsTheRest | certwatch/report_submission.py:184-234 | a stopped pass has counted the files before the last, each by its kind, has not touched those after it, and has changed at most `_attempts` in that one |
| ReplayLedger.LedgerOfPass | certwatch/report_submission.py:184-234 | the account holds after every file of a pass |
| ReplayLedger.WhyAPassEnds | certwatch/report_submission.py:184-234 | a pass ends at its last file for that file's reason: an auth error exactly on a 401 of its last call, shutdown, or another exception; corrupt files, orphans and final answers let it go on |
| ReplayFairness.ServedIffNoBlockerAhead | certwatch/report_submission.py:184-234 | over more starts than there are live files ahead of it, a report is attempted if and only if none of those raises before its own counter moves |
| ReplayFairness.WaitIsBounded | certwatch/report_submission.py:175-234 | each start that gets to its first live file takes one file from ahead of a waiting report |
| ReplayFairness.AheadShrinks | certwatch/pending_reports.py:100-111 | the number of live files ahead of a waiting report falls with every such start |
| ReplayFairness.AttemptMovesBack | certwatch/pending_reports.py:100-111 | an attempted file is gone after the pass or newer than every file the pass found |
| ReplayFairness.UnbumpedIsLast | certwatch/report_submission.py:281 | a live file whose counter is not moved is the last one its pass comes to, and is untouched |
| ReplayFairness.PassEffect | certwatch/report_submission.py:184-244 | a file present after a pass was there before, unchanged or newer than all the pass found |
| ReplayFairness.BlockedForEver | certwatch/runner.py:156-165 | with a raising file ahead of it a report is never attempted, in any number of starts |
| ReplayFairness.PoisonStarves | certwatch/pending_reports.py:108 | it happens: a null `_attempts` in the oldest file starves a younger report for as many starts as one likes |
| DeliveryFairness.NeverABlocker | certwatch/pending_reports.py:65-67 | in every reachable state of an installation that began without undecodable files no file raises before its counter moves |
| DeliveryFairness.SavedHasOwnTime | certwatch/pending_reports.py:124-142 | in every reachable state a saved report's file shares its modification time with no other file, so the order oldest first leaves it one place |
| DeliveryFairness.OwnReportsAreServed | certwatch/runner.py:127-165 | there, every waiting report is attempted within as many starts as there are live files up to it, if each start gets to its first live file's attempt |
| Timestamps.RenderIsChronological | certwatch/clock.py:97-105 | string order of rendered timestamps is the order of the seconds they denote, and equal strings are equal times |
| Timestamps.RenderOrder | certwatch/clock.py:105 | string order is the order of the fields, most significant first |
| Timestamps.PadOrder | certwatch/clock.py:105 | fixed-width decimals of any width are ordered as numbers |
| Timestamps.TickIsOneSecond | certwatch/clock.py:97-105 | the seconds count grows by one with each tick of the calendar, leap years included |
| Timestamps.ExpiryIsRealTime | certwatch/heartbeat_thread.py:316-317 | an action is dropped exactly when its expiry time has passed |
| Timestamps.DroppedStaysDropped | certwatch/action_workers.py:206-218 | whatever string the dashboard sent, what is expired at enqueue is expired at every later pickup |
| Timestamps.OrphanMeansOlderRegistration | certwatch/report_submission.py:205-219 | replay skips a report exactly when it was saved before the registration |
| RuntimeSafety.ExitCode | certwatch/runner.py:281-352 | the runner returns 2 if an auth path set the shutdown event, only if some thread or the replay met an auth error, and exactly then if no join timed out |
| RuntimeSafety.ExitCodeLostIff | certwatch/runner.py:291-352 | the runner returns 0 although a thread met an auth error if and only if the auth event is unset and a thread whose join gave up stands before its first `set` |
| RuntimeSafety.AuthWindow | certwatch/heartbeat_thread.py:238-241 | auth set without shutdown means some thread stands between its two `set` calls |
| RuntimeSafety.AuthErrorCanExitClean | certwatch/runner.py:291-346 | that condition is reachable: a concrete run with a 401 in hand, four joins that give up, and exit code 0 |
| RuntimeSafety.FlagsStay | certwatch/runner.py:86-88 | events are never unset and the first cause of shutdown does not change |
| RuntimeSafety.FirstSyncSetOnce | certwatch/netbox_sync.py:344-411 | the NetBox thread sets its event at most once, and exactly once however it ends |
| RuntimeSafety.FirstCycleGated | certwatch/check_thread.py:228-258 | the first cycle begins only once the event is set or 30 seconds have gone by |
| RuntimeSafety.FirstCycleSeesFetch | certwatch/check_thread.py:134-143 | let through by an event set after a sync whose fetch succeeded, the first cycle checks the hosts of a successful fetch |
| RuntimeSafety.NetboxSafety | certwatch/netbox_sync.py:88-152 | however syncs interleave, the local view is empty or a fetch result, and every array sent is the in-order image of a fetch result |
| RuntimeSafety.QueueAccounts | certwatch/action_workers.py:144-193 | puts are gets followed by what is queued, are exactly the unexpired actions of the responses in order, and unfinished tasks are those queued and in hand |
| RuntimeSafety.HandledAtMostOnce | certwatch/action_workers.py:197-262 | an action is in the hands of at most one worker, passes its dispatch checks at most once, only unexpired and of known type, and is handled only after that |
| RuntimeSafety.NothingClearedAfterShutdown | certwatch/action_workers.py:220-230 | once shutdown is set no action passes its dispatch checks |
| RuntimeSafety.NothingBeginsAfterShutdown | certwatch/heartbeat_thread.py:191 | once shutdown is set no heartbeat call, cycle, sync, look at the queue or thread is begun, and nothing more is posted to the dashboard by a sync |
| RuntimeSafety.TaskDoneNeverRaises | certwatch/action_workers.py:190-191 | `task_done` always finds an unfinished task |
| RuntimeSafety.InvStep | certwatch/runner.py:268-287 | every step of every thread keeps the runtime invariant |
| Runtime.UnexpiredIff | certwatch/heartbeat_thread.py:315-334 | an action is kept exactly if it is in the response and unexpired |
| Runtime.UnexpiredKeepsOrder | certwatch/heartbeat_thread.py:315-334 | what is kept stands at increasing positions of the response |
| Runtime.UnexpiredSkipsNone | certwatch/heartbeat_thread.py:315-334 | every position of an unexpired action is kept, and no other |
| Heartbeat.HeartbeatThread.EnqueueActions | certwatch/heartbeat_thread.py:311-342 | the queue gains exactly the unexpired actions in order, up to the first that raises, one unfinished task each, and the loop is a run of the machine |
| Heartbeat.HeartbeatThread.ProcessResponse | certwatch/heartbeat_thread.py:298-309 | refresh first, then the actions whatever became of it, unless it was a 401 or raised |
| Heartbeat.HeartbeatThread.DoHeartbeat | certwatch/heartbeat_thread.py:222-282 | what one answer does to configuration, queue and events, and where it leaves the thread |
| Heartbeat.HeartbeatThread.Run | certwatch/heartbeat_thread.py:188-218 | the loop over any script of beats is a run of the machine; queue, configuration and times of the beats are as specified; it stops only for shutdown set elsewhere, a 401, an unexpected exception or a missing interval, and sets the events for no other reason |
| Heartbeat.HeartbeatInherits | certwatch/heartbeat_thread.py:188-218 | hence the queue's account and the auth window hold of the thread's own queue and events |
| Heartbeat.EnqueuedIff | certwatch/heartbeat_thread.py:298-334 | after any number of beats exactly those actions were enqueued that were unexpired when a beat went through them; a failed refresh loses none |
| Heartbeat.ConfigIsLastRefresh | certwatch/heartbeat_thread.py:344-376 | the configuration is that of the last refresh that succeeded |
| Heartbeat.BeatsDoNotCatchUp | certwatch/heartbeat_thread.py:195-201 | no beat begins before the end of an earlier one plus the interval then current |
| NetboxSync.HostRoundTrip | certwatch/netbox_sync.py:269-295 | every field of a host, absent ones included, can be read back from its payload |
| NetboxSync.PayloadInjective | certwatch/netbox_sync.py:141 | a hosts array determines the fetch it came from, order included |
| NetboxSync.PayloadFields | certwatch/netbox_sync.py:269-295 | which field carries what; an absent display name or address is omitted |
| NetboxSync.SyncMoveKeepsInventory | certwatch/netbox_sync.py:115-152 | an action of one sync keeps the inventory sound for all syncs, and a failed fetch changes nothing |
| NetboxSync.SubmitWithRetry | certwatch/netbox_sync.py:155-261 | every request carries the same array, waits follow the schedule, each ending has its own status, the sync time is recorded on success only |
| NetboxSync.RunNetboxSync | certwatch/netbox_sync.py:88-152 | a failed fetch makes no call and leaves local state alone; after a successful one local state is its result whatever the submission's fate |
| ParallelChecks.ParallelIffDistinctKeys | certwatch/check_thread.py:346-373 | every completion order of every set of outcomes rebuilds the sequential list if and only if identity keys are distinct |
| ParallelChecks.ScheduleDoesNotMatter | certwatch/check_thread.py:513-522 | with distinct keys the rebuilt list is the sequential one for every completion order |
| ParallelChecks.DuplicateKeyDisagrees | certwatch/check_thread.py:520 | two hosts under one key are reported wrongly by some schedule |
| ParallelChecks.KeysTellHostsApart | certwatch/check_thread.py:301-328 | identity keys are equal only for equal references, except that a missing id reads "None" |
| ParallelChecks.BuildToCheck | certwatch/check_thread.py:294-328 | manual hosts first in configuration order, then NetBox hosts, each with its target and port; a port that cannot be converted raises |
| ParallelChecks.SequentialReportsEach | certwatch/check_thread.py:364-373 | the sequential list reports each host with a result once, in order, under its own reference, with its own result, from the builder of its source |
| ParallelPool.NearPrefix | certwatch/check_thread.py:479-482 | below any host that started at most W - 1 have not, for every schedule and moment of shutdown |
| ParallelPool.PoolRefinesSequential | certwatch/check_thread.py:479-522 | when all futures are collected the list is that of checking the started hosts one after another, each reported as itself; without shutdown those are all hosts |
| ParallelPool.NothingStartsAfterShutdown | certwatch/check_thread.py:479-482 | once shutdown is set no further check starts |
| ParallelPool.PrefixStep | certwatch/check_thread.py:479-482 | every step of the pool keeps the near-prefix |
| ParallelPool.ResultsStep | certwatch/check_thread.py:513-522 | every step keeps the dict equal to the outcomes collected |
| CheckThread.CollectResults | certwatch/check_thread.py:515-520 | the dict after the loop |
| CheckThread.RebuildChecks | certwatch/check_thread.py:364-373 | the list after the loop |
| CheckThread.RunChecks | certwatch/check_thread.py:291-375 | a cycle builds no list exactly if a reading of its configuration raises or something else does; otherwise, with distinct keys, it reports what checking the hosts one after another would, each host with a result once and as itself |
| CheckThread.CountStatuses | certwatch/check_thread.py:164-171 | `succeeded` is the number of checks whose status is success, and the two sums make up the list |
| CheckThread.CertCheckThread.RunCycle | certwatch/check_thread.py:131-179 | one cycle, its log entry and the statistics, whose duration ends before the submission; a cycle that raises before its list is built reports nothing and changes no statistics |
| CheckThread.CertCheckThread.Conclude | certwatch/check_thread.py:180-209 | an auth error sets both events; otherwise the wait is the interval current at the end of the cycle |
| CheckThread.CertCheckThread.Run | certwatch/check_thread.py:118-222 | over any script of rounds: the type, content and start of every cycle and the statistics; the loop stops only for shutdown set elsewhere, a 401, a missing interval or a woken wait, and sets the events for no other reason; the steps are a run of the machine |
| CheckThread.CheckThreadInherits | certwatch/check_thread.py:118-222 | hence the first-sync gate, the auth window and the exit code of the machine hold of the thread's own events |
| CheckThread.StartupThenScheduled | certwatch/check_thread.py:128-179 | report types are startup up to and including the first settled submission, scheduled from then on |
| CheckThread.NoCatchUp | certwatch/check_thread.py:206-209 | no cycle starts before the end of an earlier one plus the interval read there |
| HostResolution.CycleAndOnDemandAgreeIff | certwatch/action_workers.py:309-389 | on-demand checks agree with the cycle on target, port, timeouts, threshold, function and builder exactly when there is no host, or the cycle's readings of ports, thresholds, timeouts and pool size raise nothing and ids identify hosts |
| HostResolution.SameOutcomeIff | certwatch/action_workers.py:309-389 | per host and for every configuration: the action does what the cycle does, raising included, exactly when the reference identifies the host or, if the cycle raises, the action meets an unusable value of its own |
| HostResolution.PoolOfZeroStopsTheCycle | certwatch/check_thread.py:358-359 | with a pool of 0, no `concurrency` object or a null `timeouts` the cycle checks nothing while the action checks the host |
| HostResolution.CycleRunsIff | certwatch/check_thread.py:291-359 | which configuration values let a cycle get to its checks |
| HostResolution.CycleCheckIs | certwatch/check_thread.py:294-359 | the call the cycle makes for each host, field by field with its defaults: manual hosts by name and port 443, NetBox hosts by address or else name, 5 second timeouts, the largest threshold or 30 days |
| HostResolution.ManualActionIs | certwatch/action_workers.py:340-389 | what `check_host` does with a manual reference: not found, raising, or the first host of that id |
| HostResolution.NetboxActionIs | certwatch/action_workers.py:320-380 | the same for a NetBox reference |
| HostResolution.IdentifiedIff | certwatch/action_workers.py:498-504 | every reference identifies its host exactly when manual ids are non-empty and hosts of one id are alike |
| HostResolution.ResolveManualHost | certwatch/action_workers.py:491-504 | the search returns the first host with the id |
| HostResolution.HandleCheckHost | certwatch/action_workers.py:309-389 | the branch on the reference type and the search for the host |
| Identity.RegisteredOnce | certwatch/bootstrap.py:240-254 | once the credentials file exists every later state has the same one, every later life uses it, and the dashboard creates no further identity |
| Identity.OneIdentity | certwatch/bootstrap.py:328-348 | all lives that run use one identity; every other one issued was lost between the answer and the rename |
| Identity.NeverCorrupt | certwatch/agent_state.py:61-77 | no start finds a half-written credentials file |
| Identity.InvStep | certwatch/bootstrap.py:305-348 | every step, crashes included, keeps the identity invariant |
| Identity.RecordRoundTrip | certwatch/agent_state.py:54-59 | the four fields read back as saved |
| Identity.ParseIff | certwatch/bootstrap.py:257-303 | three fields are required; without `registered_at` the record reads an empty string, which orphans nothing |
| Identity.RegisterWithBackoff | certwatch/bootstrap.py:380-446 | calls until one is not retriable, waiting by the schedule; credentials exactly if that one granted them |
| Identity.DataDirectory.SaveCredentials | certwatch/agent_state.py:32-80 | wherever it fails, a reader sees the old file or the whole new one |
| Identity.DataDirectory.Bootstrap | certwatch/bootstrap.py:211-377 | with a credentials file nothing is registered or changed; without one it returns an identity exactly if the last call granted one, it was saved and the configuration was not refused, and that is the one the next start reads |
| HostnameMatch.MatchIsByLabel | certwatch/cert_check.py:265-273 | matching on the first dot is matching label by label |
| HostnameMatch.HostnameMatchIsByLabel | certwatch/cert_check.py:245-262 | a certificate matches exactly when a DNS name, or with none the common name, does label by label |
| HostnameMatch.CaseAndRootDotDoNotMatter | certwatch/cert_check.py:251 | names that differ in ASCII letter case only, and a trailing dot of the host name, give the same answer |
| HostnameMatch.WildcardIsOneLabel | certwatch/cert_check.py:265-273 | the wildcard stands for one label, not none and not two; any other pattern matches itself only |

## Left out

- Sockets, TLS handshakes, X.509 parsing and HTTP: a check or call is an arbitrary outcome; certwatch/dashboard_client.py is one outcome datatype.
- JSON text: a file holds a value, text that does not parse, or bytes on which decoding raises something else.
- File modes, `fsync` and directory creation.
- Quarantine names: the wall-clock suffix is a parameter, so two quarantined files of one name in one second overwrite each other here as there.
- The reports' `checks` field, status mapping, CA categories and expiry days: tables of single branches.
- Configurations whose lists are no lists or whose hosts are no objects, and host ids and names that are no strings.
- The rules of `int` and `float` for configuration fields: a field is absent, convertible to a value, or not. For `_attempts` they are modelled (Unicode 14.0, as Python 3.11 has it).
- `StatsState` beyond the last cycle's numbers and the last sync time, logging, environment and YAML parsing, pynetbox access.
- Calls without a shutdown event (`shutdown_event=None`), which no caller in the agent makes.
- Lower-casing outside ASCII in host names.
- certwatch/check_loop.py, the offline loop, which repeats the cycle in a weaker form.
- Real durations of joins and waits: a join may give up at any time, a wait may end by timeout at any time; only the first-sync gate and the fake clock count seconds.
- ReportSubmission.Agent.RetryLoop: total for the rounds it is given; that an outage ends is the environment's business.
- ReportSubmission.Agent.Dashboard: lost and late messages of other submitters come between its steps in `Delivery`, not in this method.
- RuntimeSafety.NothingClearedAfterShutdown: speaks of the dispatch checks; a handler whose checks passed before shutdown still runs.
- CheckThread.CertCheckThread.Run: the other threads' setting of shutdown and the NetBox hosts each cycle finds are part of its script; other threads' steps come between its own in `Runtime`, not in this method.
- Heartbeat.HeartbeatThread.Run: the queue equation is that of a loop during which no worker takes an action; gets between its steps are in `Runtime`.
- ReplayFairness.ServedIffNoBlockerAhead: asks that no other report shares the waiting one's modification time, which `SavedHasOwnTime` shows of the agent's own, and that each start gets as far as its first live file's attempt, its write included.
